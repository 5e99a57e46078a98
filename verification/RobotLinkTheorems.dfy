/** Promise discipline and response pairing on the robot link, over all runs. */
module RobotLinkTheorems {
  import opened Bytes
  import opened RobotLink
  import opened RobotLinkInvariant
  import opened AnswerPairing

  // ----- over runs -----

  ghost predicate Reached(s: State, es: seq<Event>) {
    Run(INIT, es) == Some(s)
  }

  lemma {:induction false} RunInv(s: State, es: seq<Event>)
    requires Inv(s) && Run(s, es).Some?
    ensures Inv(Run(s, es).value)
    decreases |es|
  {
    hide Apply, Inv;
    if es != [] {
      StepInv(s, es[0]);
      RunInv(Apply(s, es[0]), es[1..]);
    }
  }

  lemma ReachedInv(s: State, es: seq<Event>)
    requires Reached(s, es)
    ensures Inv(s)
  {
    hide Inv;
    InitInv();
    RunInv(INIT, es);
  }

  /**
   * Ticket k was answered over connection c as its message i. The answer is that message's own
   * exactly if the messages before it were given i answers in all, and it is the only one if
   * up to it no message of the connection was answered twice.
   */
  ghost predicate Paired(s: State, k: nat, c: nat, i: nat, r: Reply) {
    && ReceivedAs(s, k, c, i, r)
    && (AnswerTo(s.served, c, i, r) <==> AnswersBefore(s.served, c, i) == i)
    && (AnswerTo(s.served, c, i, r) ==> s.served[r.serial].answers[0] == r.value)
    && (PoliteUpTo(s.served, r.serial) ==> IsAnswer(s.served, s.conns, Message(Client(k), s.submitted[k]), r))
  }

  lemma ReceivedIsPaired(s: State, k: nat, c: nat, i: nat, r: Reply)
    requires Inv(s) && ReceivedAs(s, k, c, i, r)
    ensures Paired(s, k, c, i, r)
  {
    hide TicketInv, SocketInv, LogInv, GenuineInv, ServedInv, StreamInv, SyncInv, PromiseInv, OrderInv, ReceivedAs,
      AnswersBefore;
    PairedExactlyIf(s, k, c, i, r);
    if AnswerTo(s.served, c, i, r) {
      PairedIsFirst(s, k, c, i, r);
    }
    if PoliteUpTo(s.served, r.serial) {
      PolitePaired(s, k, c, i, r);
    }
  }

  /**
   * Response pairing: a promise kept with an answer holds one that came over the connection on
   * which its own request was sent, paired with it by position; whatever heartbeats, failures,
   * reconnects, lost answers and abandoned requests came before, and whatever came after.
   */
  lemma ResponsePairing(s: State, es: seq<Event>, k: nat)
    requires Reached(s, es) && k < |s.promises| && s.promises[k].FromRobot?
    ensures exists c: nat, i: nat :: Paired(s, k, c, i, Reply(s.promises[k].serial, s.promises[k].value))
  {
    ReachedInv(s, es);
    var c, i := AnswerOf(s, k);
  }

  lemma AnswerOf(s: State, k: nat) returns (c: nat, i: nat)
    requires Inv(s) && k < |s.promises| && s.promises[k].FromRobot?
    ensures Paired(s, k, c, i, Reply(s.promises[k].serial, s.promises[k].value))
  {
    var r := Reply(s.promises[k].serial, s.promises[k].value);
    assert PromiseHas(s, k);
    hide TicketInv, SocketInv, LogInv, GenuineInv, ServedInv, StreamInv, SyncInv, PromiseInv, OrderInv, ReceivedAs,
      Paired;
    c, i :| ReceivedAs(s, k, c, i, r);
    ReceivedIsPaired(s, k, c, i, r);
  }

  /** A promise the link itself keeps says ERR:, which the server reads as a failure, and what went wrong. */
  lemma LinkErrorsAreRefusals(s: State, es: seq<Event>, k: nat)
    requires Reached(s, es) && k < |s.promises| && s.promises[k].FromLink?
    ensures StartsWith(s.promises[k].value, Ascii("ERR:")) && LinkError(s.promises[k].value)
  {
    ReachedInv(s, es);
    assert PromiseHas(s, k);
    LinkErrorSaysErr(s.promises[k].value);
    hide LogInv, GenuineInv, OrderInv, ServedInv, StreamInv, SyncInv, SocketInv, LinkError;
  }

  /** No request is ever handed to the controller twice, in whole or in part, on one connection or on two. */
  lemma AtMostOneExecution(s: State, es: seq<Event>, a: nat, b: nat, k: nat)
    requires Reached(s, es) && a < |s.served| && b < |s.served|
    requires HoldsTicket(s.conns, s.served[a].conn, s.served[a].index, k)
    requires HoldsTicket(s.conns, s.served[b].conn, s.served[b].index, k)
    ensures a == b
  {
    ReachedInv(s, es);
    hide TicketInv, GenuineInv, StreamInv, SyncInv, SocketInv, PromiseInv, OrderInv;
  }

  /**
   * A request whose answer is its own was carried out after all earlier requests that were
   * answered at all.
   */
  lemma AnsweredInOrder(s: State, es: seq<Event>, k: nat, later: nat)
    requires Reached(s, es) && k < later < |s.promises|
    requires s.promises[k].FromRobot? && s.promises[later].FromRobot?
    requires PoliteUpTo(s.served, s.promises[later].serial)
    ensures s.promises[k].serial < s.promises[later].serial
  {
    ReachedInv(s, es);
    var c, i := AnswerOf(s, later);
    PairedExactlyIf(s, later, c, i, Reply(s.promises[later].serial, s.promises[later].value));
    AnswersOrdered(s, k, later, Message(Client(later), s.submitted[later]));
  }

  lemma AnswersOrdered(s: State, k: nat, later: nat, m: Message)
    requires Inv(s) && k < later < |s.promises| && TicketIn(m) == Some(later)
    requires s.promises[k].FromRobot? && s.promises[later].FromRobot?
    requires IsAnswer(s.served, s.conns, m, Reply(s.promises[later].serial, s.promises[later].value))
    ensures s.promises[k].serial < s.promises[later].serial
  {
    hide LogInv, GenuineInv, ServedInv, StreamInv, SyncInv, SocketInv, KeptInv;
    var b := s.promises[later].serial;
    assert HoldsTicket(s.conns, s.served[b].conn, s.served[b].index, later);
  }

  /**
   * Promise discipline: in every reachable state the promises of all popped tickets are kept,
   * except that of the one in the worker's hands, which is the last popped; so promises are
   * kept in submission order, each before the next pop.
   */
  lemma PromiseDiscipline(s: State, es: seq<Event>, k: nat)
    requires Reached(s, es) && k < |s.promises|
    ensures s.promises[k].Unset? <==> k >= |s.submitted| - |s.queue| || InHand(s.worker) == Some(k)
    ensures InHand(s.worker).Some? ==> InHand(s.worker).value == |s.submitted| - |s.queue| - 1
  {
    ReachedInv(s, es);
    hide LogInv, GenuineInv, OrderInv, ServedInv, StreamInv, SyncInv, SocketInv, PromiseInv;
  }

  /** A kept promise is never set again, and only the ticket in hand is ever set. */
  lemma PromiseKeptOnce(s: State, es: seq<Event>, e: Event, k: nat)
    requires Reached(s, es) && Enabled(s, e) && k < |s.promises|
    ensures
      var t := Apply(s, e);
      && k < |t.promises|
      && (t.promises[k] != s.promises[k] ==>
            s.promises[k].Unset? && InHand(s.worker) == Some(k) && InHand(t.worker).None?)
  {
    ReachedInv(s, es);
    hide LogInv, GenuineInv, OrderInv, ServedInv, StreamInv, SyncInv, SocketInv, PromiseInv, ErrorText, Tagged;
  }

  predicate ByWorker(e: Event) {
    e.ReadRunning? || e.Connect? || e.Take? || e.Beat? || e.Send? || e.SendFails? || e.NoSocket?
    || e.Receive? || e.ReceiveFails? || e.Resolve? || e.Drop? || e.Report?
  }

  function WorkerSteps(es: seq<Event>): nat {
    if es == [] then 0 else (if ByWorker(es[0]) then 1 else 0) + WorkerSteps(es[1..])
  }

  /** Most steps the worker can still take before the promise in its hands is kept. */
  function StepsLeft(w: Worker): nat {
    match w
    case Sending(_) => 4
    case Receiving(_) => 3
    case Failing(_, _) => 2
    case Resolving(_, _) => 1
    case Reporting(_, _) => 1
    case _ => 0
  }

  /**
   * A popped request is resolved by the worker's next four steps at the latest, whatever the
   * network, the controller, the clients and a stopping thread do in between.
   */
  lemma ResolvedWithinFour(s: State, past: seq<Event>, es: seq<Event>, k: nat)
    requires Reached(s, past) && InHand(s.worker) == Some(k)
    requires Run(s, es).Some? && WorkerSteps(es) >= 4
    ensures var t := Run(s, es).value; k < |t.promises| && !t.promises[k].Unset?
  {
    ReachedInv(s, past);
    ResolvedInTime(s, es, k);
  }

  lemma {:induction false} ResolvedInTime(s: State, es: seq<Event>, k: nat)
    requires Inv(s) && Run(s, es).Some? && k < Taken(s)
    requires InHand(s.worker) == Some(k) ==> WorkerSteps(es) >= StepsLeft(s.worker)
    ensures var t := Run(s, es).value; k < |t.promises| && !t.promises[k].Unset?
    decreases |es|
  {
    if es != [] {
      StepInv(s, es[0]);
      TowardsResolved(s, es[0], k);
      ResolvedInTime(Apply(s, es[0]), es[1..], k);
    }
  }

  lemma TowardsResolved(s: State, e: Event, k: nat)
    requires Inv(s) && Enabled(s, e) && k < Taken(s)
    ensures
      var t := Apply(s, e);
      && k < Taken(t)
      && (InHand(t.worker) == Some(k) ==>
            && InHand(s.worker) == Some(k)
            && StepsLeft(t.worker) + (if ByWorker(e) then 1 else 0) <= StepsLeft(s.worker))
  {
    hide LogInv, GenuineInv, OrderInv, ServedInv, StreamInv, SyncInv, SocketInv, PromiseInv, KeptInv, ErrorText, Tagged;
  }

  /**
   * After its wait the worker stops if told to, else takes the oldest request not yet taken, and
   * only with no request queued pings the robot.
   */
  lemma WorkComesFirst(s: State, es: seq<Event>, e: Event)
    requires Reached(s, es) && s.worker.Choosing? && ByWorker(e) && Enabled(s, e)
    ensures
      var t, k := Apply(s, e), |s.submitted| - |s.queue|;
      if !s.running then t.worker.Ended? && t.queue == s.queue
      else
        && t.worker.Sending?
        && var m := t.worker.m;
           if s.queue == [] then m.origin.Heartbeat? && |m.request| == 188 && m.request[0] == 0x08 && t.queue == []
           else 0 <= k && m == Message(Client(k), s.submitted[k]) && t.queue == s.queue[1..]
  {
    ReachedInv(s, es);
    hide LogInv, GenuineInv, OrderInv, ServedInv, StreamInv, SyncInv, SocketInv, PromiseInv, KeptInv;
  }

  /** send_and_receive never runs without a socket, and the connected flag tells the truth. */
  lemma AlwaysActive(s: State, es: seq<Event>)
    requires Reached(s, es)
    ensures !Enabled(s, NoSocket)
    ensures s.connected <==> s.socket.Some?
  {
    ReachedInv(s, es);
    hide LogInv, GenuineInv, OrderInv, ServedInv, StreamInv, SyncInv, TicketInv, PromiseInv;
  }

  // ----- why the controller must not answer twice -----

  lemma {:induction false} RunAppend(s: State, a: seq<Event>, b: seq<Event>)
    requires Run(s, a).Some?
    ensures Run(s, a + b) == Run(Run(s, a).value, b)
    decreases |a|
  {
    hide Apply;
    if a == [] {
      assert a + b == b;
    } else {
      assert (a + b)[1..] == a[1..] + b;
      RunAppend(Apply(s, a[0]), a[1..], b);
    }
  }

  lemma RunSnoc(s: State, es: seq<Event>, e: Event)
    requires Run(s, es).Some? && Enabled(Run(s, es).value, e)
    ensures Run(s, es + [e]) == Some(Apply(Run(s, es).value, e))
  {
    hide Apply, Enabled;
    RunAppend(s, es, [e]);
    assert [e][1..] == [];
  }

  lemma Extend(es: seq<Event>, s: State, e: Event) returns (es': seq<Event>, s': State)
    requires Reached(s, es) && Enabled(s, e)
    ensures es' == es + [e] && s' == Apply(s, e) && Reached(s', es')
  {
    RunSnoc(INIT, es, e);
    es', s' := es + [e], Apply(s, e);
  }

  lemma FirstExchange(first: seq<byte>, x: seq<byte>, y: seq<byte>) returns (es: seq<Event>, s: State)
    requires x != []
    ensures Reached(s, es)
    ensures s == State([first], [FromRobot(0, x)], [], AtTop, true, true, Some(0),
                       [Conn([Message(Client(0), first)], 1, [Reply(0, y)])], [Served(0, 0, [x, y])])
  {
    es, s := [], INIT;
    assert Reached(s, es);
    hide Run, Reached;
    es, s := Extend(es, s, ReadRunning);
    es, s := Extend(es, s, Connect(true));
    es, s := Extend(es, s, Enqueue(first));
    es, s := Extend(es, s, Take);
    es, s := Extend(es, s, Send);
    assert s.conns[0].sent == [Message(Client(0), first)];
    es, s := Extend(es, s, Serve(0, [x, y]));
    assert s.conns[0].outbox == [Reply(0, x), Reply(0, y)];
    es, s := Extend(es, s, Receive);
    assert s.conns[0].outbox == [Reply(0, y)];
    es, s := Extend(es, s, Resolve);
  }

  /**
   * Two answers to one request shift the pairing: the next client is given the second answer
   * to the first request while its own request has not been read.
   */
  lemma SecondAnswerShifts(first: seq<byte>, second: seq<byte>, x: seq<byte>, y: seq<byte>)
      returns (es: seq<Event>, s: State)
    requires x != [] && y != []
    ensures Reached(s, es)
    ensures s.submitted == [first, second] && s.promises == [FromRobot(0, x), FromRobot(0, y)]
    ensures s.served == [Served(0, 0, [x, y])]
    ensures |s.conns| == 1 && s.conns[0].sent == [Message(Client(0), first), Message(Client(1), second)]
  {
    hide Run, Reached;
    es, s := FirstExchange(first, x, y);
    es, s := Extend(es, s, ReadRunning);
    es, s := Extend(es, s, Enqueue(second));
    es, s := Extend(es, s, Take);
    es, s := Extend(es, s, Send);
    assert s.conns[0].sent == [Message(Client(0), first), Message(Client(1), second)];
    es, s := Extend(es, s, Receive);
    es, s := Extend(es, s, Resolve);
  }
}
