/** The invariant of the robot link, and that every step of every party keeps it. */
module RobotLinkInvariant {
  import opened Bytes
  import opened RobotLink

  // ----- tickets and promises -----

  /** The ticket the worker has popped and not yet resolved. */
  function InHand(w: Worker): Option<nat> {
    match w
    case Sending(m) => TicketOf(m)
    case Receiving(m) => TicketOf(m)
    case Resolving(m, _) => TicketOf(m)
    case Failing(m, _) => TicketOf(m)
    case Reporting(m, _) => TicketOf(m)
    case _ => None
  }

  predicate Carries(w: Worker) {
    w.Sending? || w.Receiving? || w.Resolving? || w.Failing? || w.Reporting?
  }

  function Taken(s: State): int {
    |s.submitted| - |s.queue|
  }

  predicate IsReason(reason: string) {
    reason == NO_SESSION || reason == SEND_FAILED || reason == RECEIVE_FAILED
  }

  /** The bytes of a heartbeat. */
  predicate IsBeat(request: seq<byte>) {
    |request| == REQUEST_SIZE && request[0] == PINGR
  }

  ghost predicate QueueInv(s: State) {
    && |s.promises| == |s.submitted|
    && |s.queue| <= |s.submitted|
    && (forall i | 0 <= i < |s.queue| :: s.queue[i] == Message(Client(Taken(s) + i), s.submitted[Taken(s) + i]))
    && (InHand(s.worker).Some? ==> InHand(s.worker).value == Taken(s) - 1)
    && (Carries(s.worker) && s.worker.m.origin.Client? ==>
          s.worker.m.origin.ticket < |s.submitted| && s.worker.m.request == s.submitted[s.worker.m.origin.ticket])
    && (Carries(s.worker) ==> !s.worker.m.origin.Part?)
    && (Carries(s.worker) && s.worker.m.origin.Heartbeat? ==> IsBeat(s.worker.m.request))
    && (s.worker.Failing? || s.worker.Reporting? ==> IsReason(s.worker.reason))
    && (s.worker.Ended? ==> !s.running)
  }

  ghost predicate KeptInv(s: State) {
    forall k | 0 <= k < |s.promises| :: s.promises[k].Unset? <==> k >= Taken(s) || InHand(s.worker) == Some(k)
  }

  ghost predicate TicketInv(s: State) {
    QueueInv(s) && KeptInv(s)
  }

  predicate SocketInv(s: State) {
    && (s.connected <==> s.socket.Some?)
    && (s.socket.Some? ==> s.socket.value + 1 == |s.conns|)
    && (s.worker.Choosing? || s.worker.Sending? || s.worker.Receiving? || s.worker.Resolving? ==> s.socket.Some?)
  }

  // ----- what was sent and what was read -----

  /** Position (c, i) of the logs holds a message of this ticket, in whole or in part. */
  predicate HoldsTicket(conns: seq<Conn>, c: nat, i: nat, k: nat) {
    c < |conns| && i < |conns[c].sent| && TicketIn(conns[c].sent[i]) == Some(k)
  }

  ghost predicate LogInv(s: State) {
    && (forall c: nat, i: nat, k: nat | HoldsTicket(s.conns, c, i, k) ::
          k < Taken(s) && (s.worker.Sending? ==> InHand(s.worker) != Some(k)))
    && (forall c: nat, i: nat, d: nat, j: nat, k: nat |
          HoldsTicket(s.conns, c, i, k) && HoldsTicket(s.conns, d, j, k) :: c == d && i == j)
  }

  /** A message of a ticket is its request, or a part from its beginning; any other is a heartbeat, or a part of one. */
  predicate Genuine(m: Message, submitted: seq<seq<byte>>) {
    && (TicketIn(m).Some? ==> TicketIn(m).value < |submitted| && m.request <= submitted[TicketIn(m).value])
    && (m.origin.Client? ==> m.request == submitted[m.origin.ticket])
    && (m.origin.Heartbeat? ==> IsBeat(m.request))
    && (TicketIn(m).None? ==> m.request != [] && m.request[0] == PINGR)
  }

  ghost predicate GenuineInv(s: State) {
    forall c: nat, i: nat | c < |s.conns| && i < |s.conns[c].sent| :: Genuine(s.conns[c].sent[i], s.submitted)
  }

  /** Messages of a connection are read in order, each once. */
  ghost predicate ReadInOrder(served: seq<Served>) {
    forall a, b | 0 <= a < b < |served| && served[a].conn == served[b].conn :: served[a].index < served[b].index
  }

  ghost predicate ServedInv(s: State) {
    && (forall c | 0 <= c < |s.conns| :: s.conns[c].consumed <= |s.conns[c].sent|)
    && (forall a | 0 <= a < |s.served| ::
          s.served[a].conn < |s.conns| && s.served[a].index < s.conns[s.served[a].conn].consumed)
    && ReadInOrder(s.served)
  }

  // ----- answers -----

  /** How many answers the worker has received over connection c. */
  function Received(s: State, c: nat): int
    requires c < |s.conns|
  {
    |Given(s.served, c)| - |s.conns[c].outbox|
  }

  /** Answer number n of those given on connection c came from message number n or an earlier one. */
  predicate NotEarly(served: seq<Served>, c: nat, n: nat) {
    var g := Given(served, c);
    n < |g| && g[n].serial < |served| && served[g[n].serial].index <= n
  }

  /** What is still to be received on connection c is the rest of what was given. */
  ghost predicate StreamOn(s: State, c: nat)
    requires c < |s.conns|
  {
    && 0 <= Received(s, c) <= |s.conns[c].sent|
    && s.conns[c].outbox == Given(s.served, c)[Received(s, c)..]
    && forall n: nat | n < Received(s, c) :: NotEarly(s.served, c, n)
  }

  ghost predicate StreamInv(s: State) {
    forall c | 0 <= c < |s.conns| :: StreamOn(s, c)
  }

  /**
   * On the open connection one answer has been received for each message sent, but for the last
   * while it is awaited.
   */
  predicate SyncInv(s: State) {
    OpenSocket(s) ==>
      var c := s.socket.value;
      var sent := s.conns[c].sent;
      match s.worker
      case Receiving(m) => sent != [] && sent[|sent| - 1] == m && Received(s, c) == |sent| - 1
      case Resolving(m, r) =>
        && sent != [] && sent[|sent| - 1] == m && Received(s, c) == |sent| <= |Given(s.served, c)|
        && Given(s.served, c)[|sent| - 1] == r
      case Failing(_, _) => true
      case _ => Received(s, c) == |sent|
  }

  /** Ticket k was sent whole as message i of connection c, and r was answer number i received over it. */
  predicate ReceivedAs(s: State, k: nat, c: nat, i: nat, r: Reply) {
    && k < |s.submitted| && c < |s.conns| && i < |s.conns[c].sent|
    && s.conns[c].sent[i] == Message(Client(k), s.submitted[k])
    && i < Received(s, c) && i < |Given(s.served, c)|
    && Given(s.served, c)[i] == r
  }

  /** What the link itself keeps a promise with, written out. */
  predicate LinkError(value: seq<byte>) {
    || value == Ascii("ERR: ") + Ascii("Robot session not active")
    || value == Ascii("ERR: ") + Ascii("Failed to send command to robot")
    || value == Ascii("ERR: ") + Ascii("Failed to receive response from robot")
    || value == Ascii("ERR: ") + Ascii("empty response")
  }

  lemma LinkErrorSaysErr(value: seq<byte>)
    requires LinkError(value)
    ensures StartsWith(value, Ascii("ERR:"))
  {
    assert value[..5] == Ascii("ERR: ");
    assert value[..4] == Ascii("ERR:");
  }

  /** Where a promise's value came from. */
  ghost predicate PromiseHas(s: State, k: nat)
    requires k < |s.promises|
  {
    match s.promises[k]
    case Unset => true
    case FromRobot(serial, value) =>
      serial < |s.served| && exists c: nat, i: nat :: ReceivedAs(s, k, c, i, Reply(serial, value))
    case FromLink(value) => LinkError(value)
  }

  ghost predicate PromiseInv(s: State) {
    forall k: nat | k < |s.promises| :: PromiseHas(s, k)
  }

  /** The controller step a ticket was answered by comes before those that read later tickets. */
  ghost predicate OrderInv(s: State) {
    forall k: nat, a: nat, later: nat |
      && k < |s.promises| && s.promises[k].FromRobot? && k < later
      && a < |s.served| && HoldsTicket(s.conns, s.served[a].conn, s.served[a].index, later)
      :: s.promises[k].serial < a
  }

  ghost predicate Inv(s: State) {
    && TicketInv(s)
    && SocketInv(s)
    && LogInv(s)
    && GenuineInv(s)
    && ServedInv(s)
    && StreamInv(s)
    && SyncInv(s)
    && PromiseInv(s)
    && OrderInv(s)
  }

  lemma InitInv()
    ensures Inv(INIT)
  {
  }

  // ----- preservation -----

  lemma StepQueue(s: State, e: Event)
    requires QueueInv(s) && Enabled(s, e)
    ensures QueueInv(Apply(s, e))
  {
    if e.Enqueue? || e.Take? {
      hide ErrorText, Tagged, Deliver, SetPromise;
    } else {
      QueueUntouched(s, e);
      hide Apply;
    }
  }

  lemma QueueUntouched(s: State, e: Event)
    requires Enabled(s, e) && !e.Enqueue? && !e.Take?
    ensures
      var t := Apply(s, e);
      && t.submitted == s.submitted && t.queue == s.queue && |t.promises| == |s.promises|
      && (s.worker.Ended? ==> t.worker.Ended? && (t.running ==> s.running))
      && (t.worker.Ended? && !s.worker.Ended? ==> !t.running)
      && (Carries(t.worker) ==>
            || (Carries(s.worker) && t.worker.m == s.worker.m)
            || (t.worker.m.origin.Heartbeat? && IsBeat(t.worker.m.request)))
      && (t.worker.Failing? || t.worker.Reporting? ==>
            || IsReason(t.worker.reason)
            || ((s.worker.Failing? || s.worker.Reporting?) && t.worker.reason == s.worker.reason))
  {
    hide ErrorText, Tagged, Deliver, SetPromise;
  }

  lemma StepKept(s: State, e: Event)
    requires TicketInv(s) && Enabled(s, e)
    ensures KeptInv(Apply(s, e))
  {
    hide ErrorText, Tagged, Deliver;
  }

  lemma StepSocket(s: State, e: Event)
    requires SocketInv(s) && Enabled(s, e)
    ensures SocketInv(Apply(s, e))
  {
    hide ErrorText, Tagged, SetPromise;
  }

  lemma StepLog(s: State, e: Event)
    requires TicketInv(s) && SocketInv(s) && LogInv(s) && Enabled(s, e)
    ensures LogInv(Apply(s, e))
  {
    hide ErrorText, Tagged, SetPromise;
    var t := Apply(s, e);
    forall c: nat, i: nat, k: nat | HoldsTicket(t.conns, c, i, k)
      ensures
        || HoldsTicket(s.conns, c, i, k)
        || ((e.Send? || e.SendFails?) && c == s.socket.value && i == |s.conns[c].sent| && InHand(s.worker) == Some(k))
    {
    }
  }

  lemma StepGenuine(s: State, e: Event)
    requires QueueInv(s) && GenuineInv(s) && Enabled(s, e)
    ensures GenuineInv(Apply(s, e))
  {
    hide ErrorText, Tagged, SetPromise;
  }

  lemma StepServed(s: State, e: Event)
    requires ServedInv(s) && Enabled(s, e)
    ensures ServedInv(Apply(s, e))
  {
    hide ErrorText, Tagged, SetPromise;
  }

  /** Each answer given on a connection came from a step that read a message of it. */
  lemma {:induction false} GivenOn(served: seq<Served>, c: nat, n: nat)
    requires n < |Given(served, c)|
    ensures var r := Given(served, c)[n]; r.serial < |served| && served[r.serial].conn == c
  {
    var m := |served| - 1;
    if n < |Given(served[..m], c)| {
      GivenOn(served[..m], c, n);
    }
  }

  lemma ServedMoves(s: State, e: Event)
    requires Enabled(s, e)
    ensures
      Apply(s, e).served ==
      if e.Serve? then s.served + [Served(e.conn, s.conns[e.conn].consumed, e.answers)] else s.served
  {
    hide ErrorText, SetPromise, Tagged, Deliver;
  }

  lemma GivenAppend(served: seq<Served>, v: Served, c: nat)
    ensures Given(served + [v], c) == Given(served, c) + if v.conn == c then Tagged(|served|, v.answers) else []
  {
    assert (served + [v])[..|served|] == served;
    hide Tagged;
  }

  /** A step of the controller appends its answers to what was given on its connection. */
  lemma GivenGrows(s: State, e: Event, c: nat)
    requires Enabled(s, e)
    ensures
      var t := Apply(s, e);
      && Given(s.served, c) <= Given(t.served, c)
      && (!(e.Serve? && e.conn == c) ==> Given(t.served, c) == Given(s.served, c))
      && (e.Serve? && e.conn == c ==> Given(t.served, c) == Given(s.served, c) + Tagged(|s.served|, e.answers))
  {
    ServedMoves(s, e);
    if e.Serve? {
      GivenAppend(s.served, Served(e.conn, s.conns[e.conn].consumed, e.answers), c);
    }
    hide Apply, Given, Tagged;
  }

  lemma NotEarlyStays(s: State, e: Event, c: nat, n: nat)
    requires Enabled(s, e) && NotEarly(s.served, c, n)
    ensures NotEarly(Apply(s, e).served, c, n)
  {
    GivenGrows(s, e, c);
    hide Given, ErrorText, SetPromise, Tagged, Deliver;
  }

  /** The counts on a connection change only as its answers are given and received. */
  lemma ReceivedMoves(s: State, e: Event, c: nat)
    requires Enabled(s, e) && c < |s.conns|
    ensures
      var t := Apply(s, e);
      && c < |t.conns| && s.conns[c].sent <= t.conns[c].sent
      && Received(t, c) == Received(s, c) + (if e.Receive? && s.socket.value == c then 1 else 0)
      && (t.conns[c].sent != s.conns[c].sent ==>
            s.socket == Some(c) && ((e.Send? && t.conns[c].sent == s.conns[c].sent + [s.worker.m]) || e.SendFails?))
  {
    GivenGrows(s, e, c);
    OutboxMoves(s, e, c);
    SentMoves(s, e, c);
    hide Given, Apply, Tagged;
  }

  lemma SentMoves(s: State, e: Event, c: nat)
    requires Enabled(s, e) && c < |s.conns|
    ensures
      var t := Apply(s, e);
      && c < |t.conns| && s.conns[c].sent <= t.conns[c].sent
      && (t.conns[c].sent != s.conns[c].sent ==>
            s.socket == Some(c) && ((e.Send? && t.conns[c].sent == s.conns[c].sent + [s.worker.m]) || e.SendFails?))
  {
    hide ErrorText, SetPromise, Tagged;
  }

  /** When an answer is received, it comes from a message already sent, so not from a later one. */
  lemma ReceiveNotEarly(s: State, e: Event, c: nat)
    requires e.Receive? && Enabled(s, e) && c == s.socket.value && c < |s.conns|
    requires StreamOn(s, c) && SyncInv(s) && ServedInv(s)
    ensures NotEarly(s.served, c, Received(s, c))
  {
    var n := Received(s, c);
    GivenOn(s.served, c, n);
    hide Given;
  }

  lemma OutboxMoves(s: State, e: Event, c: nat)
    requires Enabled(s, e) && c < |s.conns|
    ensures
      var t := Apply(s, e);
      && c < |t.conns|
      && var before, after := s.conns[c].outbox, t.conns[c].outbox;
         if e.Receive? && s.socket.value == c then before != [] && after == before[1..]
         else if e.Serve? && e.conn == c then after == before + Tagged(|s.served|, e.answers)
         else after == before
  {
    hide ErrorText, SetPromise, Tagged;
  }

  lemma StepOutbox(s: State, e: Event, c: nat)
    requires c < |s.conns| && StreamOn(s, c) && Enabled(s, e)
    ensures var t := Apply(s, e);
            && c < |t.conns| && Received(t, c) <= |Given(t.served, c)|
            && 0 <= Received(t, c) && t.conns[c].outbox == Given(t.served, c)[Received(t, c)..]
  {
    GivenGrows(s, e, c);
    OutboxMoves(s, e, c);
    hide Given, Apply, NotEarly, Tagged;
  }

  /** No more answers have been received than messages sent, as the worker waits for each. */
  lemma StepCount(s: State, e: Event, c: nat)
    requires c < |s.conns| && StreamOn(s, c) && SyncInv(s) && Enabled(s, e)
    ensures var t := Apply(s, e); c < |t.conns| && 0 <= Received(t, c) <= |t.conns[c].sent|
  {
    ReceivedMoves(s, e, c);
    hide Given, Received, Apply;
  }

  lemma StepEarly(s: State, e: Event, c: nat, n: nat)
    requires c < |s.conns| && StreamOn(s, c) && SyncInv(s) && ServedInv(s) && Enabled(s, e)
    requires c < |Apply(s, e).conns| && n < Received(Apply(s, e), c)
    ensures NotEarly(Apply(s, e).served, c, n)
  {
    ReceivedMoves(s, e, c);
    if n == Received(s, c) {
      ReceiveNotEarly(s, e, c);
    }
    hide Given, Received, Apply, ServedInv, SyncInv, NotEarly;
    NotEarlyStays(s, e, c, n);
  }

  lemma StepStream(s: State, e: Event, c: nat)
    requires c < |s.conns| && StreamOn(s, c) && SyncInv(s) && ServedInv(s) && Enabled(s, e)
    ensures c < |Apply(s, e).conns| && StreamOn(Apply(s, e), c)
  {
    StepOutbox(s, e, c);
    StepCount(s, e, c);
    forall n: nat | n < Received(Apply(s, e), c)
      ensures NotEarly(Apply(s, e).served, c, n)
    {
      StepEarly(s, e, c, n);
    }
    hide Given, Apply, Received, NotEarly, ServedInv, SyncInv;
  }

  lemma NewStream(s: State, e: Event, c: nat)
    requires ServedInv(s) && Enabled(s, e) && |s.conns| <= c < |Apply(s, e).conns|
    ensures StreamOn(Apply(s, e), c)
  {
    NothingGiven(s, c);
    NewConnection(s, e, c);
    hide Apply, Enabled, ServedInv, NotEarly, Given;
  }

  lemma NewConnection(s: State, e: Event, c: nat)
    requires Enabled(s, e) && |s.conns| <= c < |Apply(s, e).conns|
    ensures var t := Apply(s, e); t.conns[c] == Conn([], 0, []) && t.served == s.served
  {
    hide SetPromise, ErrorText, Tagged;
  }

  lemma NothingGiven(s: State, c: nat)
    requires ServedInv(s) && c >= |s.conns|
    ensures Given(s.served, c) == []
  {
    if Given(s.served, c) != [] {
      GivenOn(s.served, c, 0);
    }
  }

  lemma StepSync(s: State, e: Event)
    requires SocketInv(s) && StreamInv(s) && SyncInv(s) && ServedInv(s) && Enabled(s, e)
    ensures SyncInv(Apply(s, e))
  {
    var t := Apply(s, e);
    if OpenSocket(t) {
      var c := t.socket.value;
      if c < |s.conns| {
        assert StreamOn(s, c);
        SyncStays(s, e, c);
      } else {
        SyncStarts(s, e, c);
      }
    }
  }

  lemma SyncStays(s: State, e: Event, c: nat)
    requires SocketInv(s) && c < |s.conns| && StreamOn(s, c) && SyncInv(s) && Enabled(s, e)
    requires OpenSocket(Apply(s, e)) && Apply(s, e).socket.value == c
    ensures SyncInv(Apply(s, e))
  {
    GivenGrows(s, e, c);
    ReceivedMoves(s, e, c);
    hide Given, ErrorText, SetPromise, NotEarly, Tagged, Deliver;
  }

  lemma SyncStarts(s: State, e: Event, c: nat)
    requires SocketInv(s) && ServedInv(s) && Enabled(s, e) && c >= |s.conns|
    requires OpenSocket(Apply(s, e)) && Apply(s, e).socket.value == c
    ensures SyncInv(Apply(s, e))
  {
    NothingGiven(s, c);
    hide ErrorText, SetPromise, ServedInv, Tagged;
  }

  lemma ReceivedAsStays(s: State, e: Event, k: nat, c: nat, i: nat, r: Reply)
    requires Enabled(s, e) && ReceivedAs(s, k, c, i, r)
    ensures ReceivedAs(Apply(s, e), k, c, i, r)
  {
    GivenGrows(s, e, c);
    ReceivedMoves(s, e, c);
    hide Given, Received, ErrorText, SetPromise, Tagged, Deliver;
  }

  /** The answer in the worker's hands is that of the message it sent last. */
  lemma ResolvingAs(s: State)
    requires QueueInv(s) && SocketInv(s) && SyncInv(s) && s.worker.Resolving? && s.worker.m.origin.Client?
    ensures var k := s.worker.m.origin.ticket;
            OpenSocket(s) && ReceivedAs(s, k, s.socket.value, |s.conns[s.socket.value].sent| - 1, s.worker.reply)
  {
    hide Given;
  }

  lemma StepPromise(s: State, e: Event)
    requires Inv(s) && Enabled(s, e)
    ensures PromiseInv(Apply(s, e))
  {
    hide Given, ReceivedAs, Received, LogInv, GenuineInv, StreamInv, OrderInv, Tagged, Deliver;
    var t := Apply(s, e);
    forall k: nat | k < |t.promises|
      ensures PromiseHas(t, k)
    {
      if k < |s.promises| {
        assert PromiseHas(s, k);
        if t.promises[k] == s.promises[k] {
          if s.promises[k].FromRobot? {
            var r := Reply(s.promises[k].serial, s.promises[k].value);
            var c: nat, i: nat :| ReceivedAs(s, k, c, i, r);
            ReceivedAsStays(s, e, k, c, i, r);
          }
        } else if t.promises[k].FromRobot? {
          ResolvingAs(s);
          var c, i := s.socket.value, |s.conns[s.socket.value].sent| - 1;
          ReplySerial(s);
          ReceivedAsStays(s, e, k, c, i, s.worker.reply);
        }
      }
    }
  }

  lemma ReplySerial(s: State)
    requires SocketInv(s) && SyncInv(s) && s.worker.Resolving?
    ensures s.worker.reply.serial < |s.served|
  {
    GivenOn(s.served, s.socket.value, |s.conns[s.socket.value].sent| - 1);
  }

  lemma StepOrder(s: State, e: Event)
    requires Inv(s) && Enabled(s, e)
    ensures OrderInv(Apply(s, e))
  {
    hide ErrorText, Tagged, SyncInv, StreamInv, GenuineInv, KeptInv, ReceivedAs;
    var t := Apply(s, e);
    forall k: nat, a: nat, later: nat |
      && k < |t.promises| && t.promises[k].FromRobot? && k < later
      && a < |t.served| && HoldsTicket(t.conns, t.served[a].conn, t.served[a].index, later)
      ensures t.promises[k].serial < a
    {
      if k < |s.promises| {
        assert PromiseHas(s, k);
      }
      if a < |s.served| {
        assert HoldsTicket(s.conns, s.served[a].conn, s.served[a].index, later);
      }
    }
  }

  lemma StepInv(s: State, e: Event)
    requires Inv(s) && Enabled(s, e)
    ensures Inv(Apply(s, e))
  {
    hide Apply, Enabled, QueueInv, KeptInv, SocketInv, LogInv, GenuineInv, ServedInv, StreamOn, SyncInv, PromiseInv,
      OrderInv;
    StepOrder(s, e);
    StepQueue(s, e);
    StepKept(s, e);
    StepSocket(s, e);
    StepLog(s, e);
    StepGenuine(s, e);
    StepServed(s, e);
    StepSync(s, e);
    StepPromise(s, e);
    forall c: nat | c < |Apply(s, e).conns|
      ensures StreamOn(Apply(s, e), c)
    {
      if c < |s.conns| {
        assert StreamOn(s, c);
        StepStream(s, e, c);
      } else {
        NewStream(s, e, c);
      }
    }
  }
}
