/**
 * The robot client of src/robot/robot.cpp as objects, seen from its worker thread: the queue of
 * work items with shared promises, the socket, and one turn of the worker loop. What the network
 * does comes from outside. Module RobotLink interleaves these steps with everybody else's.
 */
module RobotSession {
  import opened Bytes
  import L = RobotLink
  import RequestCodec
  import I = RobotLinkInvariant
  import T = RobotLinkTheorems

  /** A promise can be kept once; keeping it again would throw. */
  class Promise {
    var value: Option<seq<byte>>

    constructor ()
      ensures value.None?
    {
      value := None;
    }

    method SetValue(v: seq<byte>)
      requires value.None?
      modifies this
      ensures value == Some(v)
    {
      value := Some(v);
    }
  }

  datatype WorkItem = WorkItem(command: seq<byte>, promise: Promise)

  /** When in a turn another thread clears running_: before the worker's wait is over, or after. */
  datatype Stopping = Never | InWait | AfterWait

  /**
   * What comes from outside in one turn: whether connecting succeeds, the results of send, what
   * recv yields, if anything, and the stopping thread.
   */
  datatype Network = Network(connects: bool, os: nat -> int, reply: seq<byte>, stops: Stopping)

  datatype Received = Received(value: seq<byte>) | Thrown(reason: string)

  /** What one exchange over an open socket comes to. */
  function Outcome(command: seq<byte>, net: Network): Received {
    if !RequestCodec.SendsAll(net.os, 0, |command|) then Thrown(L.SEND_FAILED)
    else if net.reply == [] then Thrown(L.RECEIVE_FAILED)
    else Received(net.reply)
  }

  /** All of a request went out, or where send failed, a proper part from its beginning. */
  predicate WentOut(wire: seq<byte>, request: seq<byte>, net: Network) {
    if RequestCodec.SendsAll(net.os, 0, |request|) then wire == request else wire < request
  }

  /** What a promise is kept with, written out: the answer, or the error of what failed first. */
  lemma KeptWith(command: seq<byte>, net: Network)
    ensures
      Kept(Outcome(command, net)) ==
      if !RequestCodec.SendsAll(net.os, 0, |command|) then Ascii("ERR: ") + Ascii("Failed to send command to robot")
      else if net.reply == [] then Ascii("ERR: ") + Ascii("Failed to receive response from robot")
      else net.reply
    ensures Outcome(command, net).Received? <==> RequestCodec.SendsAll(net.os, 0, |command|) && net.reply != []
  {
    hide Ascii;
  }

  /** What a promise is kept with. */
  function Kept(r: Received): seq<byte> {
    match r
    case Received(value) => value
    case Thrown(reason) => L.ErrorText(reason)
  }

  function Commands(queue: seq<WorkItem>): (r: seq<seq<byte>>)
    ensures |r| == |queue|
  {
    seq(|queue|, i requires 0 <= i < |queue| => queue[i].command)
  }

  /** What a turn of the worker sees and changes, promises aside. */
  datatype LinkView = LinkView(running: bool, connected: bool, commands: seq<seq<byte>>)

  /** The view after a turn, the request it tried to send and what the first item's promise was kept with. */
  datatype Turned = Turned(after: LinkView, request: Option<seq<byte>>, kept: Option<seq<byte>>)

  /**
   * The worker at work on an open connection: with nothing queued a heartbeat goes out and no
   * promise is kept; otherwise the first item leaves the queue and its promise is kept, with
   * the answer or the error; any error ends the connection.
   */
  function Worked(commands: seq<seq<byte>>, net: Network, filler: seq<byte>): Turned {
    var request := if commands == [] then [0x08] + filler else commands[0];
    var r := Outcome(request, net);
    if commands == [] then Turned(LinkView(net.stops.Never?, r.Received?, []), Some(request), None)
    else Turned(LinkView(net.stops.Never?, r.Received?, commands[1..]), Some(request), Some(Kept(r)))
  }

  /** A turn of the worker: without a connection, or told to stop in its wait, it pops nothing. */
  function Turn(v: LinkView, net: Network, filler: seq<byte>): Turned {
    if !v.running then Turned(v, None, None)
    else if !(v.connected || net.connects) then Turned(v.(running := net.stops.Never?), None, None)
    else if net.stops.InWait? then Turned(LinkView(false, true, v.commands), None, None)
    else Worked(v.commands, net, filler)
  }

  class Robot {
    var queue: seq<WorkItem>
    var socket: Option<nat>
    var dialled: nat   // sockets opened so far, each with a number of its own
    var connected: bool
    var running: bool

    /** Work items wait with a promise of their own, not yet kept; the flag mirrors the socket. */
    ghost predicate Valid()
      reads this, set i | 0 <= i < |queue| :: queue[i].promise
    {
      && (forall i | 0 <= i < |queue| :: queue[i].promise.value.None?)
      && (forall i, j | 0 <= i < j < |queue| :: queue[i].promise != queue[j].promise)
      && (connected <==> socket.Some?)
    }

    ghost function View(): LinkView
      reads this
    {
      LinkView(running, connected, Commands(queue))
    }

    constructor ()
      ensures Valid() && queue == [] && !running && !connected
    {
      queue, socket, dialled, connected, running := [], None, 0, false, false;
    }

    /** Starts the worker unless it runs already; the queue is as it was left. */
    method StartSession()
      requires Valid()
      modifies this`running
      ensures Valid() && running
    {
      running := true;
    }

    /** A future for the answer, or null where queue_request throws. */
    method QueueRequest(command: seq<byte>) returns (future: Promise?)
      requires Valid()
      modifies this`queue
      ensures Valid() && (future == null <==> !running)
      ensures future == null ==> queue == old(queue)
      ensures future != null ==>
                fresh(future) && future.value.None? && queue == old(queue) + [WorkItem(command, future)]
    {
      if !running {
        return null;
      }
      var promise := new Promise();
      queue := queue + [WorkItem(command, promise)];
      return promise;
    }

    /** An open socket counts as a connection without setting the flag. */
    method AttemptConnection(connects: bool) returns (ok: bool)
      modifies this`socket, this`dialled, this`connected
      ensures ok == (old(socket).Some? || connects)
      ensures old(socket).Some? ==> socket == old(socket) && connected == old(connected) && dialled == old(dialled)
      ensures old(socket).None? && connects ==> socket == Some(old(dialled)) && dialled == old(dialled) + 1 && connected
      ensures !ok ==> socket.None? && connected == old(connected) && dialled == old(dialled)
    {
      if socket.Some? {
        return true;
      }
      if !connects {
        return false;
      }
      socket, dialled, connected := Some(dialled), dialled + 1, true;
      return true;
    }

    method SendAndReceive(command: seq<byte>, net: Network) returns (r: Received, wire: seq<byte>)
      ensures socket.Some? ==> r == Outcome(command, net) && WentOut(wire, command, net)
      ensures socket.None? ==> r == Thrown(L.NO_SESSION) && wire == []
    {
      if socket.None? {
        return Thrown(L.NO_SESSION), [];
      }
      var ok, out, calls := RequestCodec.SendRequest(command, net.os);
      if !ok {
        return Thrown(L.SEND_FAILED), out;
      }
      if net.reply == [] {
        return Thrown(L.RECEIVE_FAILED), out;
      }
      return Received(net.reply), out;
    }

    method DropSocket()
      modifies this`socket, this`connected
      ensures socket.None? && !connected
    {
      socket, connected := None, false;
    }

    /** The part of a turn after the wait. */
    method Work(net: Network, filler: seq<byte>) returns (wire: seq<byte>)
      requires Valid() && connected && !net.stops.InWait?
      modifies this`queue, this`running, this`socket, this`connected, if queue == [] then {} else {queue[0].promise}
      ensures Valid() && View() == Worked(old(Commands(queue)), net, filler).after
      ensures WentOut(wire, Worked(old(Commands(queue)), net, filler).request.value, net)
      ensures old(queue) != [] ==>
                && queue == old(queue)[1..]
                && old(queue)[0].promise.value == Worked(old(Commands(queue)), net, filler).kept
      ensures old(queue) == [] ==> queue == []
      ensures connected ==> socket == old(socket)
    {
      hide RequestCodec.SendsAll, L.ErrorText, WentOut;
      running := net.stops.Never?;
      var r;
      if queue == [] {
        r, wire := SendAndReceive([L.PINGR] + filler, net);
        if r.Thrown? {
          DropSocket();
        }
        return;
      }
      var item := queue[0];
      queue := queue[1..];
      r, wire := SendAndReceive(item.command, net);
      if r.Thrown? {
        DropSocket();
      }
      item.promise.SetValue(Kept(r));
    }

    /**
     * One turn of worker_loop: the state afterwards is Turn's, what goes out is its request, or
     * the beginning of it where send fails, and of all promises only the one of the first work
     * item is touched, and only if Turn keeps it.
     */
    method WorkerTurn(net: Network, filler: seq<byte>) returns (more: bool, wire: seq<byte>)
      requires Valid()
      modifies this, if queue == [] then {} else {queue[0].promise}
      ensures Valid() && more == running
      ensures View() == Turn(old(View()), net, filler).after
      ensures match Turn(old(View()), net, filler).request
              case None => wire == []
              case Some(request) => WentOut(wire, request, net)
      ensures Turn(old(View()), net, filler).kept.Some? ==>
                && queue == old(queue)[1..]
                && old(queue)[0].promise.value == Turn(old(View()), net, filler).kept
      ensures Turn(old(View()), net, filler).kept.None? ==> queue == old(queue)
      ensures connected ==> socket == if old(socket).Some? then old(socket) else Some(old(dialled))
    {
      hide Outcome, Kept;
      if !running {
        return false, [];
      }
      if !connected {
        var ok := AttemptConnection(net.connects);
        if !ok {
          running := net.stops.Never?;
          return running, [];
        }
      }
      if net.stops.InWait? {
        running := false;
        return false, [];
      }
      wire := Work(net, filler);
      more := running;
    }

    /** stop_session, once the worker has ended. */
    method StopSession()
      requires Valid()
      modifies this`running, this`socket, this`connected
      ensures Valid() && !running && socket.None? && !connected
    {
      running := false;
      DropSocket();
    }
  }

  // ----- a turn as a run of the link -----

  function ViewOf(s: L.State): LinkView {
    LinkView(s.running, s.connected, seq(|s.queue|, i requires 0 <= i < |s.queue| => s.queue[i].request))
  }

  function ValueOf(p: L.Promise): Option<seq<byte>> {
    match p
    case Unset => None
    case FromRobot(_, value) => Some(value)
    case FromLink(value) => Some(value)
  }

  /** An answer left over from an earlier exchange is the one that is received. */
  predicate Consistent(s: L.State, reply: seq<byte>) {
    L.OpenSocket(s) && s.conns[s.socket.value].outbox != [] ==>
      reply == [] || reply == s.conns[s.socket.value].outbox[0].value
  }

  lemma Then(s: L.State, es: seq<L.Event>, u: L.State, e: L.Event) returns (es': seq<L.Event>, u': L.State)
    requires L.Run(s, es) == Some(u) && L.Enabled(u, e)
    ensures es' == es + [e] && u' == L.Apply(u, e) && L.Run(s, es') == Some(u')
  {
    T.RunSnoc(s, es, e);
    es', u' := es + [e], L.Apply(u, e);
  }

  /** The last message sent over the newest connection. */
  function LastSent(s: L.State): Option<seq<byte>> {
    if s.conns == [] || s.conns[|s.conns| - 1].sent == [] then None
    else
      var sent := s.conns[|s.conns| - 1].sent;
      Some(sent[|sent| - 1].request)
  }

  /** An exchange that comes to r, from the work item in the worker's hands to its promise. */
  lemma ExchangeIsARun(s: L.State, r: Received) returns (es: seq<L.Event>, t: L.State, p: L.Promise)
    requires s.worker.Sending? && L.OpenSocket(s) && s.socket.value + 1 == |s.conns|
    requires r == Thrown(L.SEND_FAILED) ==> s.worker.m.request != []
    requires r.Received? ==> r.value != [] && I.ServedInv(s) && Consistent(s, r.value)
    requires r.Thrown? ==> r.reason == L.SEND_FAILED || r.reason == L.RECEIVE_FAILED
    ensures L.Run(s, es) == Some(t) && t.worker.AtTop?
    ensures t.queue == s.queue && t.running == s.running && t.connected == (r.Received? && s.connected)
    ensures t.promises == L.SetPromise(s.promises, s.worker.m.origin, p) && ValueOf(p) == Some(Kept(r))
    ensures r != Thrown(L.SEND_FAILED) ==> LastSent(t) == Some(s.worker.m.request)
  {
    var m, k := s.worker.m, s.socket.value;
    hide L.ErrorText, L.SetPromise;
    if r == Thrown(L.SEND_FAILED) {
      es, t := Then(s, [], s, L.SendFails(0));
      es, t := Then(s, es, t, L.Drop);
      es, t := Then(s, es, t, L.Report);
      p := L.FromLink(L.ErrorText(L.SEND_FAILED));
    } else if r.Thrown? {
      es, t := Then(s, [], s, L.Send);
      es, t := Then(s, es, t, L.ReceiveFails);
      es, t := Then(s, es, t, L.Drop);
      es, t := Then(s, es, t, L.Report);
      p := L.FromLink(L.ErrorText(L.RECEIVE_FAILED));
    } else {
      es, t := AnsweredIsARun(s, r.value);
      var serial := t.worker.reply.serial;
      hide L.Run;
      es, t := Then(s, es, t, L.Resolve);
      p := L.FromRobot(serial, r.value);
    }
  }

  /** Sent, and answered by what is left on the connection or by the controller now. */
  lemma AnsweredIsARun(s: L.State, value: seq<byte>) returns (es: seq<L.Event>, t: L.State)
    requires s.worker.Sending? && L.OpenSocket(s) && s.socket.value + 1 == |s.conns|
    requires I.ServedInv(s) && Consistent(s, value) && value != []
    ensures L.Run(s, es) == Some(t) && t.worker.Resolving? && t.worker.m == s.worker.m && t.worker.reply.value == value
    ensures t.queue == s.queue && t.running == s.running && t.connected == s.connected && t.promises == s.promises
    ensures LastSent(t) == Some(s.worker.m.request)
  {
    var k := s.socket.value;
    assert s.conns[k].consumed <= |s.conns[k].sent|;
    assert L.Run(s, []) == Some(s);
    hide L.Run, L.Tagged, I.ServedInv;
    es, t := Then(s, [], s, L.Send);
    if s.conns[k].outbox == [] {
      es, t := Then(s, es, t, L.Serve(k, [value]));
      assert t.conns[k].outbox == L.Tagged(|s.served|, [value]);
      assert L.Tagged(|s.served|, [value])[0].value == value by {
        TaggedOne(|s.served|, value);
      }
    }
    es, t := Then(s, es, t, L.Receive);
  }

  lemma TaggedOne(serial: nat, value: seq<byte>)
    ensures L.Tagged(serial, [value]) == [L.Reply(serial, value)]
  {
  }

  /** Reading running_, trying to connect without a connection, and being told to stop, if so. */
  lemma ConnectIsARun(s: L.State, net: Network) returns (es: seq<L.Event>, t: L.State)
    requires I.SocketInv(s) && I.ServedInv(s) && Consistent(s, net.reply) && s.worker.AtTop? && s.running
    ensures L.Run(s, es) == Some(t) && I.SocketInv(t) && I.ServedInv(t) && Consistent(t, net.reply)
    ensures t.queue == s.queue && t.promises == s.promises && t.connected == (s.connected || net.connects)
    ensures t.running == (net.stops.Never? || (t.connected && net.stops.AfterWait?))
    ensures if t.connected then t.worker.Choosing? && L.OpenSocket(t) else t.worker.AtTop?
  {
    es, t := Then(s, [], s, L.ReadRunning);
    if !s.connected {
      es, t := Then(s, es, t, L.Connect(net.connects));
    }
    if net.stops.InWait? || (!t.connected && net.stops.AfterWait?) {
      es, t := Then(s, es, t, L.Stop);
    }
  }

  /** What a turn with an open connection comes to. */
  lemma TurnAtWork(s: L.State, net: Network, filler: seq<byte>)
    requires s.running && s.connected && !net.stops.InWait?
    ensures
      var command := if s.queue == [] then [L.PINGR] + filler else s.queue[0].request;
      var r, turned, queue := Outcome(command, net), Turn(ViewOf(s), net, filler), ViewOf(s).commands;
      && turned.request == Some(command)
      && turned.kept == (if s.queue == [] then None else Some(Kept(r)))
      && turned.after == LinkView(net.stops.Never?, r.Received?, if s.queue == [] then queue else queue[1..])
  {
    hide Outcome, Kept;
  }

  lemma ViewAfter(s: L.State, t: L.State, stopped: bool, connected: bool)
    requires t.queue == (if s.queue == [] then [] else s.queue[1..])
    requires t.running != stopped && t.connected == connected
    ensures var queue := ViewOf(s).commands;
            ViewOf(t) == LinkView(!stopped, connected, if s.queue == [] then queue else queue[1..])
  {
  }

  /** Taking work, or a heartbeat, the exchange, and being told to stop meanwhile, if so. */
  lemma WorkIsARun(s: L.State, net: Network, filler: seq<byte>) returns (es: seq<L.Event>, t: L.State)
    requires s.worker.Choosing? && s.running && s.connected && L.OpenSocket(s) && I.ServedInv(s) && I.QueueInv(s)
    requires Consistent(s, net.reply) && |filler| == L.REQUEST_SIZE - 1 && !net.stops.InWait?
    requires s.socket.value + 1 == |s.conns|
    ensures L.Run(s, es) == Some(t) && t.worker.AtTop?
    ensures ViewOf(t) == Turn(ViewOf(s), net, filler).after
    ensures var request := Turn(ViewOf(s), net, filler).request.value;
            RequestCodec.SendsAll(net.os, 0, |request|) ==> LastSent(t) == Some(request)
    ensures |t.promises| == |s.promises|
    ensures forall k | 0 <= k < |s.promises| ::
              if s.queue != [] && k == I.Taken(s)
              then ValueOf(t.promises[k]) == Turn(ViewOf(s), net, filler).kept
              else t.promises[k] == s.promises[k]
  {
    var command := if s.queue == [] then [L.PINGR] + filler else s.queue[0].request;
    var r := Outcome(command, net);
    KeptWith(command, net);
    TurnAtWork(s, net, filler);
    hide Turn, Worked, ViewOf, L.ErrorText, L.Tagged, L.Deliver, L.Run, L.Apply, L.Enabled, Outcome, LastSent,
      RequestCodec.SendsAll, ValueOf;
    var u: L.State;
    es, u := TakeIsARun(s, filler);
    assert Consistent(u, net.reply);
    assert I.ServedInv(u);
    assert s.queue != [] ==> I.Taken(s) < |s.promises|;
    hide I.ServedInv, I.QueueInv, Consistent, Kept;
    var more, v, p := ExchangeIsARun(u, r);
    T.RunAppend(s, es, more);
    es, t := es + more, v;
    if net.stops.AfterWait? {
      es, t := StopIsARun(s, es, t);
    }
    ViewAfter(s, t, net.stops.AfterWait?, r.Received?);
  }

  lemma StopIsARun(s: L.State, es: seq<L.Event>, t: L.State) returns (es': seq<L.Event>, t': L.State)
    requires L.Run(s, es) == Some(t)
    ensures L.Run(s, es') == Some(t') && t' == t.(running := false) && LastSent(t') == LastSent(t)
  {
    hide L.Run;
    es', t' := Then(s, es, t, L.Stop);
  }

  /** The first work item, or with nothing queued a heartbeat, in the worker's hands. */
  lemma TakeIsARun(s: L.State, filler: seq<byte>) returns (es: seq<L.Event>, u: L.State)
    requires s.worker.Choosing? && s.running && I.QueueInv(s) && |filler| == L.REQUEST_SIZE - 1
    ensures L.Run(s, es) == Some(u) && u.worker.Sending?
    ensures u == s.(worker := u.worker, queue := if s.queue == [] then [] else s.queue[1..])
    ensures s.queue == [] ==> u.worker.m == L.Message(L.Heartbeat, [L.PINGR] + filler)
    ensures s.queue != [] ==> u.worker.m == s.queue[0] && u.worker.m.origin == L.Client(I.Taken(s))
  {
    es, u := Then(s, [], s, if s.queue == [] then L.Beat(filler) else L.Take);
  }

  /**
   * Whatever the network and a stopping thread do in it, a turn of the object is a run of the
   * transition system with the same view afterwards, the same request sent and the same promise
   * kept with the same bytes, from every reachable state.
   */
  lemma TurnIsARun(s: L.State, past: seq<L.Event>, net: Network, filler: seq<byte>)
      returns (es: seq<L.Event>, t: L.State)
    requires T.Reached(s, past) && s.worker.AtTop? && s.running && |filler| == L.REQUEST_SIZE - 1
    requires Consistent(s, net.reply)
    ensures L.Run(s, es) == Some(t) && (t.worker.AtTop? || (t.worker.Ended? && !t.running))
    ensures var turned := Turn(ViewOf(s), net, filler);
            && ViewOf(t) == turned.after
            && (turned.request.Some? && RequestCodec.SendsAll(net.os, 0, |turned.request.value|) ==>
                  LastSent(t) == turned.request)
            && |t.promises| == |s.promises|
            && (forall k | 0 <= k < |s.promises| ::
                  if turned.kept.Some? && k == I.Taken(s)
                  then s.promises[k].Unset? && ValueOf(t.promises[k]) == turned.kept
                  else t.promises[k] == s.promises[k])
  {
    T.ReachedInv(s, past);
    hide T.Reached, I.LogInv, I.GenuineInv, I.StreamInv, I.SyncInv, I.PromiseInv, I.OrderInv;
    es, t := ConnectIsARun(s, net);
    hide L.Run;
    if t.connected && net.stops.InWait? {
      es, t := Then(s, es, t, L.Take);
    } else if t.connected {
      T.RunInv(s, es);
      var more, v := WorkIsARun(t, net, filler);
      T.RunAppend(s, es, more);
      es, t := es + more, v;
    }
  }
}
