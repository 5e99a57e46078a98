/**
 * The link to the robot controller as a transition system: the queue of requests with their
 * promises, the robot worker loop with heartbeats and reconnects, the socket, and the
 * controller at the far end of each connection. Network calls have nondeterministic outcomes.
 */
module RobotLink {
  import opened Bytes

  /**
   * A request is numbered (ticketed) in the order queue_request accepts it. What went out of a
   * request, or of a heartbeat, before send failed is a part of it.
   */
  datatype Origin = Client(ticket: nat) | Heartbeat | Part(of: Option<nat>)

  datatype Message = Message(origin: Origin, request: seq<byte>)

  /** The ticket of a work item. */
  function TicketOf(m: Message): Option<nat> {
    if m.origin.Client? then Some(m.origin.ticket) else None
  }

  /** The ticket a message on the wire comes from, in whole or in part. */
  function TicketIn(m: Message): Option<nat> {
    if m.origin.Part? then m.origin.of else TicketOf(m)
  }

  /** An answer on its way back, with the number of the controller step that produced it. */
  datatype Reply = Reply(serial: nat, value: seq<byte>)

  /** One TCP connection: what was sent, how much the controller has read, answers not yet received. */
  datatype Conn = Conn(sent: seq<Message>, consumed: nat, outbox: seq<Reply>)

  /** The controller read message `index` of connection `conn` and sent these answers. */
  datatype Served = Served(conn: nat, index: nat, answers: seq<seq<byte>>)

  datatype Promise = Unset | FromRobot(serial: nat, value: seq<byte>) | FromLink(value: seq<byte>)

  datatype Worker =
    | AtTop                                   // about to read running_
    | Connecting                              // in attempt_connection
    | Choosing                                // in the timed wait for work
    | Sending(m: Message)
    | Receiving(m: Message)
    | Resolving(m: Message, reply: Reply)     // answer received, promise to be set
    | Failing(m: Message, reason: string)     // exception thrown, socket to be dropped
    | Reporting(m: Message, reason: string)   // socket dropped, promise to be set
    | Ended

  datatype State = State(
    submitted: seq<seq<byte>>,   // request of each ticket
    promises: seq<Promise>,      // promise of each ticket
    queue: seq<Message>,         // work items waiting
    worker: Worker,
    running: bool,
    connected: bool,
    socket: Option<nat>,         // index of the open connection
    conns: seq<Conn>,
    served: seq<Served>)

  datatype Event =
    | Enqueue(request: seq<byte>)
    | ReadRunning | Connect(success: bool) | Take | Beat(filler: seq<byte>)
    | Send | SendFails(out: nat) | NoSocket
    | Receive | ReceiveFails | Resolve | Drop | Report
    | Serve(conn: nat, answers: seq<seq<byte>>)
    | Stop | CloseSocket

  const INIT := State([], [], [], AtTop, true, false, None, [], [])

  const PINGR: byte := 0x08
  const REQUEST_SIZE := 188

  const NO_SESSION := "Robot session not active"
  const SEND_FAILED := "Failed to send command to robot"
  const RECEIVE_FAILED := "Failed to receive response from robot"

  function ErrorText(reason: string): seq<byte> {
    Ascii("ERR: ") + Ascii(reason)
  }

  predicate Enabled(s: State, e: Event) {
    match e
    case Enqueue(_) => s.running
    case ReadRunning => s.worker.AtTop?
    case Connect(_) => s.worker.Connecting?
    case Take => s.worker.Choosing? && (!s.running || s.queue != [])
    case Beat(filler) => s.worker.Choosing? && s.running && s.queue == [] && |filler| == REQUEST_SIZE - 1
    case Send => s.worker.Sending? && OpenSocket(s)
    case SendFails(out) => s.worker.Sending? && OpenSocket(s) && out < |s.worker.m.request|
    case NoSocket => s.worker.Sending? && s.socket.None?
    case Receive => s.worker.Receiving? && OpenSocket(s) && s.conns[s.socket.value].outbox != []
    case ReceiveFails => s.worker.Receiving?
    case Resolve => s.worker.Resolving?
    case Drop => s.worker.Failing?
    case Report => s.worker.Reporting?
    case Serve(c, _) => c < |s.conns| && s.conns[c].consumed < |s.conns[c].sent|
    case Stop => true
    case CloseSocket => s.worker.Ended? && !s.running
  }

  predicate OpenSocket(s: State) {
    s.socket.Some? && s.socket.value < |s.conns|
  }

  function Deliver(s: State, m: Message): seq<Conn>
    requires OpenSocket(s)
  {
    var c := s.conns[s.socket.value];
    s.conns[s.socket.value := c.(sent := c.sent + [m])]
  }

  function SetPromise(ps: seq<Promise>, o: Origin, p: Promise): (r: seq<Promise>)
    ensures |r| == |ps|
  {
    if o.Client? && o.ticket < |ps| then ps[o.ticket := p] else ps
  }

  function Tagged(serial: nat, answers: seq<seq<byte>>): (r: seq<Reply>)
    ensures |r| == |answers|
  {
    seq(|answers|, i requires 0 <= i < |answers| => Reply(serial, answers[i]))
  }

  function Apply(s: State, e: Event): State
    requires Enabled(s, e)
  {
    match e
    case Enqueue(request) =>
      s.(submitted := s.submitted + [request], promises := s.promises + [Unset],
         queue := s.queue + [Message(Client(|s.submitted|), request)])
    case ReadRunning =>
      s.(worker := if !s.running then Ended else if s.connected then Choosing else Connecting)
    case Connect(success) =>
      if s.socket.Some? then s.(worker := Choosing)
      else if success then
        s.(socket := Some(|s.conns|), conns := s.conns + [Conn([], 0, [])], connected := true, worker := Choosing)
      else s.(worker := AtTop)
    case Take =>
      if !s.running then s.(worker := Ended)
      else s.(queue := s.queue[1..], worker := Sending(s.queue[0]))
    case Beat(filler) => s.(worker := Sending(Message(Heartbeat, [PINGR] + filler)))
    case Send => s.(conns := Deliver(s, s.worker.m), worker := Receiving(s.worker.m))
    case SendFails(out) =>
      var m := s.worker.m;
      s.(conns := if out > 0 then Deliver(s, Message(Part(TicketOf(m)), m.request[..out])) else s.conns,
         worker := Failing(s.worker.m, SEND_FAILED))
    case NoSocket => s.(worker := Failing(s.worker.m, NO_SESSION))
    case Receive =>
      var k := s.socket.value;
      var c := s.conns[k];
      s.(conns := s.conns[k := c.(outbox := c.outbox[1..])], worker := Resolving(s.worker.m, c.outbox[0]))
    case ReceiveFails => s.(worker := Failing(s.worker.m, RECEIVE_FAILED))
    case Resolve =>
      var r := s.worker.reply;
      var p := if r.value == [] then FromLink(ErrorText("empty response")) else FromRobot(r.serial, r.value);
      s.(promises := SetPromise(s.promises, s.worker.m.origin, p), worker := AtTop)
    case Drop => s.(socket := None, connected := false, worker := Reporting(s.worker.m, s.worker.reason))
    case Report =>
      s.(promises := SetPromise(s.promises, s.worker.m.origin, FromLink(ErrorText(s.worker.reason))), worker := AtTop)
    case Serve(k, answers) =>
      var c := s.conns[k];
      s.(conns := s.conns[k := c.(consumed := c.consumed + 1, outbox := c.outbox + Tagged(|s.served|, answers))],
         served := s.served + [Served(k, c.consumed, answers)])
    case Stop => s.(running := false)
    case CloseSocket => s.(socket := None, connected := false)
  }

  function Run(s: State, es: seq<Event>): Option<State>
    decreases |es|
  {
    if es == [] then Some(s)
    else if Enabled(s, es[0]) then Run(Apply(s, es[0]), es[1..])
    else None
  }

  // ----- the answers on a connection -----

  /** All answers given on connection c, in the order they were sent. */
  function Given(served: seq<Served>, c: nat): seq<Reply> {
    if served == [] then []
    else
      var n := |served| - 1;
      Given(served[..n], c) + if served[n].conn == c then Tagged(n, served[n].answers) else []
  }

  /** How many answers the messages before number i of connection c were given. */
  function AnswersBefore(served: seq<Served>, c: nat, i: nat): nat {
    if served == [] then 0
    else
      var n := |served| - 1;
      AnswersBefore(served[..n], c, i) + if served[n].conn == c && served[n].index < i then |served[n].answers| else 0
  }

  /** On the connection of step `serial`, up to and including it, the controller answered no message twice. */
  ghost predicate PoliteUpTo(served: seq<Served>, serial: nat) {
    && serial < |served|
    && forall a | 0 <= a <= serial && served[a].conn == served[serial].conn :: |served[a].answers| <= 1
  }
}
