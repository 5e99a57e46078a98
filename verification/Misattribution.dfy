/**
 * What a second answer does: runs of the whole server in which clients are given the answers to
 * other clients' requests, up to a task completed with the answer to another task's action.
 */
module Misattribution {
  import opened Bytes
  import opened Commands
  import opened RapidParsing
  import opened Operation
  import opened ControlledLink
  import L = RobotLink
  import LT = RobotLinkTheorems
  import M = Middleware
  import P = Pipeline
  import RequestCodec
  import Telemetry
  import TR = TaskRecord

  // ----- one task after the other -----

  /** n tasks are done, everybody waits for more, and the first connection is still open. */
  predicate Resting(s: M.State, n: nat) {
    && s.p.counter == n + 1 && s.p.queue == [] && s.p.mutex.Nobody? && !s.p.shutdown && s.p.running
    && s.p.requester.Ready? && s.p.worker.AtTop? && |s.p.finals| == n && (forall id | id in s.p.tasks :: id <= n)
    && |s.l.submitted| == |s.l.promises| == n && s.l.queue == [] && s.l.worker.Choosing?
    && s.l.running && s.l.connected && s.l.socket == Some(0) && |s.l.conns| == 1
  }

  lemma Start() returns (es: seq<M.Event>, s: M.State)
    ensures M.Reached(s, es) && Resting(s, 0) && s.l.conns == [L.Conn([], 0, [])] && s.l.served == []
    ensures s.p.tasks == map[] && s.p.requests == []
  {
    es, s := [], M.INIT;
    assert M.Reached(s, es);
    hide M.Run, M.Reached, M.Apply;
    es, s := M.ExtendLink(es, s, L.ReadRunning);
    es, s := M.ExtendLink(es, s, L.Connect(true));
  }

  /** A task is added, taken, and found the link connected. */
  lemma AddAndTake(es: seq<M.Event>, s: M.State, n: nat, request: seq<byte>) returns (es': seq<M.Event>, s': M.State)
    requires M.Reached(s, es) && Resting(s, n)
    ensures M.Reached(s', es') && s'.l == s.l
    ensures s'.p.worker == P.Taken(n + 1) && s'.p.queue == [] && s'.p.mutex.Nobody? && s'.p.requester.Ready?
    ensures s'.p.counter == n + 2 && !s'.p.shutdown && s'.p.running
    ensures s'.p.requests == s.p.requests + [request] && s'.p.finals == s.p.finals
    ensures s'.p.tasks == s.p.tasks[n + 1 := TR.NewTask(n + 1, request, s.p.clock)] && s'.p.clock == s.p.clock
  {
    hide M.Run, M.Reached, M.Apply;
    es', s' := M.ExtendTasks(es, s, P.Reserve(request));
    es', s' := M.ExtendTasks(es', s', P.InsertTask);
    es', s' := M.ExtendTasks(es', s', P.LockForPush);
    es', s' := M.ExtendTasks(es', s', P.Push);
    es', s' := M.ExtendTasks(es', s', P.UnlockPush);
    es', s' := M.ExtendTasks(es', s', P.NotifyOne);
    assert s'.p.queue == [n + 1];
    es', s' := M.ExtendTasks(es', s', P.ReadRunning);
    es', s' := M.ExtendTasks(es', s', P.LockQueue);
    es', s' := M.ExtendTasks(es', s', P.Test);
    es', s' := M.ExtendTasks(es', s', P.Pop);
    es', s' := M.ExtendTasks(es', s', P.UnlockPop);
  }

  /** It is started and handed to the link, where it waits in the queue. */
  lemma StartAndSubmit(es: seq<M.Event>, s: M.State, n: nat, request: seq<byte>, now: int)
      returns (es': seq<M.Event>, s': M.State)
    requires M.Reached(s, es) && s.p.worker == P.Taken(n + 1) && s.p.clock == now
    requires n + 1 in s.p.tasks && s.p.tasks[n + 1] == TR.NewTask(n + 1, request, now)
    requires s.l.running && s.l.connected && |s.l.submitted| == n && s.l.queue == []
    ensures M.Reached(s', es') && s'.p.worker == P.Waiting(n + 1, n)
    ensures s'.p == s.p.(worker := s'.p.worker, tasks := s'.p.tasks, started := s'.p.started)
    ensures s'.p.tasks == s.p.tasks[n + 1 := TR.Started(TR.NewTask(n + 1, request, now), now)]
    ensures s'.l == s.l.(submitted := s.l.submitted + [request], promises := s.l.promises + [L.Unset],
                         queue := [L.Message(L.Client(n), request)])
  {
    hide M.Run, M.Reached, TR.Started;
    es', s' := StartAndFetch(es, s, n, request, now);
    es', s' := M.Extend(es', s', M.ReadConnected);
    es', s' := M.Extend(es', s', M.Submit);
  }

  lemma StartAndFetch(es: seq<M.Event>, s: M.State, n: nat, request: seq<byte>, now: int)
      returns (es': seq<M.Event>, s': M.State)
    requires M.Reached(s, es) && s.p.worker == P.Taken(n + 1) && s.p.clock == now
    requires n + 1 in s.p.tasks && s.p.tasks[n + 1] == TR.NewTask(n + 1, request, now)
    ensures M.Reached(s', es') && s'.l == s.l && s'.p.worker == P.Probing(n + 1, request)
    ensures s'.p == s.p.(worker := s'.p.worker, tasks := s'.p.tasks, started := s'.p.started)
    ensures s'.p.tasks == s.p.tasks[n + 1 := TR.Started(TR.NewTask(n + 1, request, now), now)]
  {
    hide M.Run, M.Reached, M.Apply;
    es', s' := M.ExtendTasks(es, s, P.StartTask);
    es', s' := M.ExtendTasks(es', s', P.FetchTask);
  }

  /** The link takes it and sends it. */
  lemma TakeAndSend(es: seq<M.Event>, s: M.State, m: L.Message, c: L.Conn) returns (es': seq<M.Event>, s': M.State)
    requires M.Reached(s, es) && s.l.running && s.l.queue == [m] && s.l.worker.Choosing?
    requires s.l.socket == Some(0) && s.l.conns == [c]
    ensures M.Reached(s', es') && s'.p == s.p
    ensures s'.l == s.l.(queue := [], worker := L.Receiving(m), conns := [c.(sent := c.sent + [m])])
  {
    hide M.Run, M.Reached, M.Apply;
    es', s' := M.ExtendLink(es, s, L.Take);
    es', s' := M.ExtendLink(es', s', L.Send);
  }

  /** The controller reads the next message of the connection. */
  lemma ServeNext(es: seq<M.Event>, s: M.State, c: L.Conn, answers: seq<seq<byte>>)
      returns (es': seq<M.Event>, s': M.State)
    requires M.Reached(s, es) && s.l.conns == [c] && c.consumed < |c.sent|
    ensures M.Reached(s', es') && s'.p == s.p
    ensures s'.l == s.l.(served := s.l.served + [L.Served(0, c.consumed, answers)], conns := s'.l.conns)
    ensures s'.l.conns ==
            [c.(consumed := c.consumed + 1, outbox := c.outbox + L.Tagged(|s.l.served|, answers))]
  {
    hide M.Run, M.Reached, M.Apply, L.Tagged;
    es', s' := M.ExtendLink(es, s, L.Serve(0, answers));
  }

  /** The link receives what is first, keeps the promise with it, and waits for more. */
  lemma ReceiveFirst(es: seq<M.Event>, s: M.State, n: nat, m: L.Message, c: L.Conn)
      returns (es': seq<M.Event>, s': M.State)
    requires M.Reached(s, es) && s.l.running && s.l.connected && s.l.socket == Some(0) && s.l.conns == [c]
    requires s.l.worker == L.Receiving(m) && m.origin == L.Client(n) && |s.l.promises| == n + 1
    requires c.outbox != [] && c.outbox[0].value != []
    ensures M.Reached(s', es') && s'.p == s.p
    ensures s'.l == s.l.(worker := L.Choosing, conns := [c.(outbox := c.outbox[1..])],
                         promises := s.l.promises[n := L.FromRobot(c.outbox[0].serial, c.outbox[0].value)])
  {
    hide M.Run, M.Reached, M.Apply;
    es', s' := M.ExtendLink(es, s, L.Receive);
    es', s' := M.ExtendLink(es', s', L.Resolve);
    es', s' := M.ExtendLink(es', s', L.ReadRunning);
  }

  /** The record of a task that was given this answer. */
  function Given(id: nat, request: seq<byte>, answer: seq<byte>, now: int): TR.Task {
    if P.IsRefusal(answer)
    then TR.Task(id, TR.Failed, request, now, now, now, P.ROBOT_ERROR + answer)
    else TR.Task(id, TR.Completed, request, now, now, now, answer)
  }

  /** The worker finds the future ready and closes the task. */
  lemma CloseTask(es: seq<M.Event>, s: M.State, n: nat, request: seq<byte>, serial: nat, answer: seq<byte>, now: int)
      returns (es': seq<M.Event>, s': M.State)
    requires M.Reached(s, es) && s.p.worker == P.Waiting(n + 1, n) && s.p.clock == now
    requires |s.l.promises| == n + 1 && s.l.promises[n] == L.FromRobot(serial, answer)
    requires n + 1 in s.p.tasks && s.p.tasks[n + 1] == TR.Started(TR.NewTask(n + 1, request, now), now)
    ensures M.Reached(s', es') && s'.l == s.l
    ensures s'.p == s.p.(worker := P.AtTop, tasks := s'.p.tasks, finals := s'.p.finals)
    ensures s'.p.tasks == s.p.tasks[n + 1 := Given(n + 1, request, answer, now)]
    ensures s'.p.finals == s.p.finals + [P.Final(Given(n + 1, request, answer, now), P.Answered(n, answer))]
  {
    hide M.Run, M.Reached, P.IsRefusal, P.ROBOT_ERROR;
    es', s' := M.Extend(es, s, M.FutureReady);
    es', s' := M.Extend(es', s', M.Tasks(P.Close));
  }

  /**
   * One more task runs through the server: its request is sent, the controller reads the next
   * message of the connection if it is to, and the answer that comes first is the task's.
   */
  lemma Round(es: seq<M.Event>, s: M.State, n: nat, request: seq<byte>, c: L.Conn, served: Option<seq<seq<byte>>>)
      returns (es': seq<M.Event>, s': M.State)
    requires M.Reached(s, es) && Resting(s, n) && s.l.conns == [c] && c.consumed <= |c.sent|
    requires served.Some? ==> served.value != []
    requires var replies := c.outbox + (if served.Some? then L.Tagged(|s.l.served|, served.value) else []);
             replies != [] && replies[0].value != []
    ensures M.Reached(s', es') && Resting(s', n + 1)
    ensures
      var message := L.Message(L.Client(n), request);
      var replies := c.outbox + (if served.Some? then L.Tagged(|s.l.served|, served.value) else []);
      var read := if served.Some? then 1 else 0;
      var task := Given(n + 1, request, replies[0].value, s.p.clock);
      && s'.l.conns == [L.Conn(c.sent + [message], c.consumed + read, replies[1..])]
      && s'.l.served == s.l.served + (if served.Some? then [L.Served(0, c.consumed, served.value)] else [])
      && s'.l.submitted == s.l.submitted + [request] && s'.p.requests == s.p.requests + [request]
      && s'.l.promises == s.l.promises + [L.FromRobot(replies[0].serial, replies[0].value)]
      && s'.p.finals == s.p.finals + [P.Final(task, P.Answered(n, replies[0].value))]
      && s'.p.tasks == s.p.tasks[n + 1 := task] && s'.p.clock == s.p.clock
  {
    hide M.Run, M.Reached, M.Apply, L.Tagged, Given, TR.Started;
    var m := L.Message(L.Client(n), request);
    es', s' := AddAndTake(es, s, n, request);
    es', s' := StartAndSubmit(es', s', n, request, s.p.clock);
    es', s' := TakeAndSend(es', s', m, c);
    var sent := c.(sent := c.sent + [m]);
    if served.Some? {
      es', s' := ServeNext(es', s', sent, served.value);
    }
    var now := s'.l.conns[0];
    es', s' := ReceiveFirst(es', s', n, m, now);
    es', s' := CloseTask(es', s', n, request, now.outbox[0].serial, now.outbox[0].value, s.p.clock);
    assert s'.l.promises == s.l.promises + [L.FromRobot(now.outbox[0].serial, now.outbox[0].value)];
    assert s'.p.tasks == s.p.tasks[n + 1 := Given(n + 1, request, now.outbox[0].value, s.p.clock)];
    assert now.outbox == c.outbox + (if served.Some? then L.Tagged(|s.l.served|, served.value) else []);
  }

  // ----- the answers of a motion that meets a kinematic limit -----

  const LIMIT_REACHED := "NACK|" + "ERROR ON EXECUTION: Kinematic limit reached."

  function ErrorNumber(errno: string): string {
    "NACK|" + ("ERROR ON EXECUTION: " + errno)
  }

  /** A motion that ends at a kinematic limit is answered by these two texts. */
  lemma LimitAnswers(raw: seq<byte>, action: Action, step: Step)
    requires step.Valid() && Parse(raw) == Execute(action)
    requires StartsMotion(step.before, action, step.env) && step.env.motion.KinematicLimit?
    ensures Answers(raw, step) == [Ascii(LIMIT_REACHED), Ascii(ErrorNumber(step.env.motion.errno))]
  {
    MotionAnswered(step.before, action, step.env);
    hide Parse, ExecuteAction, StartsMotion, Ascii;
  }

  /** The controller never answers with nothing. */
  lemma AnswersSaySomething(s: State, a: Action, env: Env)
    ensures forall i | 0 <= i < |ExecuteAction(s, a, env).answers| ::
              var answer := ExecuteAction(s, a, env).answers[i]; answer.Text? ==> answer.text != ""
  {
    MotionSaysSomething(a.cmd, env.motion);
    if StartsMotion(s, a, env) {
      MotionAnswered(s, a, env);
      hide *;
    } else {
      StillSaysSomething(s, a, env);
      hide *;
    }
  }

  lemma MotionSaysSomething(cmd: string, motion: Motion)
    ensures forall i | 0 <= i < |MotionAnswers(MotionAck(cmd), motion)| ::
              var answer := MotionAnswers(MotionAck(cmd), motion)[i]; answer.Text? && answer.text != ""
  {
  }

  lemma StillSaysSomething(s: State, a: Action, env: Env)
    requires !StartsMotion(s, a, env)
    ensures forall i | 0 <= i < |ExecuteAction(s, a, env).answers| ::
              var answer := ExecuteAction(s, a, env).answers[i]; answer.Text? ==> answer.text != ""
  {
    hide IsSafeTarget, Along, At, Shifted, MotionAnswers;
  }

  lemma AnswerNotEmpty(raw: seq<byte>, step: Step, answer: seq<byte>)
    requires step.Valid() && Answers(raw, step) == [answer]
    ensures answer != []
  {
    var parsed := Parse(raw);
    AnswersSaySomething(step.before, parsed.action, step.env);
    var answers := ExecuteAction(step.before, parsed.action, step.env).answers;
    assert RenderedAll(answers, step.report)[0] == Rendered(answers[0], step.report);
    hide Parse, ExecuteAction, Telemetry.Payload;
  }

  /**
   * Three tasks of packed requests, the first a motion that ends at a kinematic limit, the
   * second any action answered once: the second task is failed with the second answer to the
   * first, and the third is completed with the answer to the second task's action, while its
   * own request lies unread on the connection.
   */
  lemma CompletedWithAnothersAnswer(c: ClientRequest, first: seq<byte>, limit: Step,
                                    d: ClientRequest, second: seq<byte>, step: Step, ack: seq<byte>,
                                    e: ClientRequest, third: seq<byte>)
      returns (es: seq<M.Event>, s: M.State)
    requires PackedFrom(c, first) && PackedFrom(d, second) && PackedFrom(e, third)
    requires limit.Valid() && limit.env.motion.KinematicLimit?
    requires StartsMotion(limit.before, RequestCodec.Intended(c), limit.env)
    requires step.Valid() && step.before == Next(first, limit)
    requires Answers(second, step) == [ack] && !P.IsRefusal(ack)
    ensures M.Reached(s, es) && Controlled(s.l, [limit, step])
    ensures 1 in s.p.tasks && s.p.tasks[1].state.Failed? && 2 in s.p.tasks && s.p.tasks[2].state.Failed?
    ensures 3 in s.p.tasks && s.p.tasks[3].state.Completed? && s.p.tasks[3].request == third
    ensures s.p.tasks[3].response == ack && M.ReadOf(s, 1, 1, 2) && s.l.served[1].answers == [ack]
    ensures |s.l.conns| == 1 && s.l.conns[0].consumed == 2 && M.OwnedBy(s.p, 2, 3)
    ensures |s.l.conns[0].sent| == 3 && s.l.conns[0].sent[2] == L.Message(L.Client(2), third)
  {
    hide *;
    var x, y := Ascii(LIMIT_REACHED), Ascii(ErrorNumber(limit.env.motion.errno));
    Unpacked(c, first);
    LimitAnswers(first, RequestCodec.Intended(c), limit);
    AnswerNotEmpty(second, step, ack);
    LimitRefused(limit.env.motion.errno);
    es, s := ThreeRounds(first, second, third, x, y, ack);
    ThreeControlled(s, first, second, limit, step, x, y, ack);
    ReadOfSecond(s, first, second, third);
  }

  lemma ReadOfSecond(s: M.State, first: seq<byte>, second: seq<byte>, third: seq<byte>)
    requires |s.p.finals| == 3
    requires M.TicketOf(s.p.finals[1].source) == Some(1) && M.TicketOf(s.p.finals[2].source) == Some(2)
    requires s.l.submitted == [first, second, third] && s.p.requests == [first, second, third]
    requires |s.l.served| == 2 && s.l.served[1].conn == 0 && s.l.served[1].index == 1
    requires |s.l.conns| == 1 && |s.l.conns[0].sent| == 3 && s.l.conns[0].sent[1] == L.Message(L.Client(1), second)
    ensures M.ReadOf(s, 1, 1, 2) && M.OwnedBy(s.p, 2, 3)
  {
  }

  lemma LimitRefused(errno: string)
    ensures P.IsRefusal(Ascii(LIMIT_REACHED)) && P.IsRefusal(Ascii(ErrorNumber(errno)))
    ensures Ascii(LIMIT_REACHED) != [] && Ascii(ErrorNumber(errno)) != []
  {
    assert Ascii(LIMIT_REACHED)[..4] == Ascii("NACK");
    assert Ascii(ErrorNumber(errno))[..4] == Ascii("NACK");
  }

  lemma ThreeRounds(first: seq<byte>, second: seq<byte>, third: seq<byte>, x: seq<byte>, y: seq<byte>, z: seq<byte>)
      returns (es: seq<M.Event>, s: M.State)
    requires x != [] && y != [] && z != [] && P.IsRefusal(x) && P.IsRefusal(y) && !P.IsRefusal(z)
    ensures M.Reached(s, es)
    ensures s.p.tasks.Keys == {1, 2, 3}
    ensures s.p.tasks[1].state.Failed? && s.p.tasks[2].state.Failed?
    ensures s.p.tasks[3].state.Completed? && s.p.tasks[3].request == third && s.p.tasks[3].response == z
    ensures |s.p.finals| == 3
    ensures M.TicketOf(s.p.finals[1].source) == Some(1) && M.TicketOf(s.p.finals[2].source) == Some(2)
    ensures s.l.submitted == [first, second, third] && s.p.requests == [first, second, third]
    ensures s.l.served == [L.Served(0, 0, [x, y]), L.Served(0, 1, [z])]
    ensures s.l.conns == [L.Conn([L.Message(L.Client(0), first), L.Message(L.Client(1), second),
                                  L.Message(L.Client(2), third)], 2, [])]
  {
    hide M.Run, M.Reached, Resting, Given;
    GivenStates(first, x);
    GivenStates(second, y);
    GivenStates(third, z);
    es, s := Start();
    NothingSubmitted(s);
    var now := s.p.clock;
    assert L.Tagged(0, [x, y]) == [L.Reply(0, x), L.Reply(0, y)];
    es, s := Round(es, s, 0, first, L.Conn([], 0, []), Some([x, y]));
    assert L.Tagged(1, [z]) == [L.Reply(1, z)];
    es, s := Round(es, s, 1, second, s.l.conns[0], Some([z]));
    es, s := Round(es, s, 2, third, s.l.conns[0], None);
    assert s.l.conns[0].sent ==
           [L.Message(L.Client(0), first), L.Message(L.Client(1), second), L.Message(L.Client(2), third)];
    assert s.p.tasks == map[1 := Given(1, first, x, now), 2 := Given(2, second, y, now), 3 := Given(3, third, z, now)];
  }

  lemma GivenStates(request: seq<byte>, answer: seq<byte>)
    ensures forall id: nat, now: int ::
              var task := Given(id, request, answer, now);
              && task.request == request
              && if P.IsRefusal(answer) then task.state.Failed? else task.state.Completed? && task.response == answer
  {
    hide P.IsRefusal, P.ROBOT_ERROR;
  }

  lemma NothingSubmitted(s: M.State)
    requires Resting(s, 0)
    ensures s.l.submitted == [] && s.p.finals == [] && s.l.promises == []
  {
  }

  lemma ThreeControlled(s: M.State, first: seq<byte>, second: seq<byte>, limit: Step, step: Step,
                        x: seq<byte>, y: seq<byte>, z: seq<byte>)
    requires s.l.served == [L.Served(0, 0, [x, y]), L.Served(0, 1, [z])]
    requires |s.l.conns| == 1 && |s.l.conns[0].sent| == 3
    requires s.l.conns[0].sent[0].request == first && s.l.conns[0].sent[1].request == second
    requires limit.Valid() && Answers(first, limit) == [x, y]
    requires step.Valid() && step.before == Next(first, limit) && Answers(second, step) == [z]
    ensures Controlled(s.l, [limit, step])
  {
    hide Answers, Next;
    assert Ran(s.l, [limit, step], 0);
    assert Ran(s.l, [limit, step], 1);
  }

  /**
   * Two clients' requests, the first a motion that ends at a kinematic limit: the second client
   * is given the second answer to the first request, while its own request has not been read.
   */
  lemma TwoAnswersShift(c: ClientRequest, first: seq<byte>, d: ClientRequest, second: seq<byte>, step: Step)
      returns (es: seq<L.Event>, s: L.State)
    requires PackedFrom(c, first) && PackedFrom(d, second) && step.Valid()
    requires StartsMotion(step.before, RequestCodec.Intended(c), step.env) && step.env.motion.KinematicLimit?
    ensures LT.Reached(s, es) && Controlled(s, [step]) && |first| == |second| == 188
    ensures |s.conns| == 1 && s.conns[0].sent == [L.Message(L.Client(0), first), L.Message(L.Client(1), second)]
    ensures |s.served| == 1 && s.served[0].conn == 0 && s.served[0].index == 0
    ensures s.promises ==
            [L.FromRobot(0, Ascii(LIMIT_REACHED)), L.FromRobot(0, Ascii(ErrorNumber(step.env.motion.errno)))]
  {
    RequestCodec.RoundTrip(c);
    LimitAnswers(first, RequestCodec.Intended(c), step);
    hide Parse, Serialize, Decode, Request, StartsMotion, RequestCodec.Intended, L.Run, ExecuteAction;
    es, s := LT.SecondAnswerShifts(first, second, Ascii(LIMIT_REACHED), Ascii(ErrorNumber(step.env.motion.errno)));
    assert Ran(s, [step], 0);
  }
}
