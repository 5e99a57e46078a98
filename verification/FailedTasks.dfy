/** Which tasks that clients were told have failed the controller can still carry out. */
module FailedTasks {
  import opened Bytes
  import opened Commands
  import opened RapidParsing
  import opened Operation
  import opened ControlledLink
  import L = RobotLink
  import LI = RobotLinkInvariant
  import Late = LateExecution
  import M = Middleware
  import P = Pipeline
  import PI = PipelineInvariant
  import LT = RobotLinkTheorems
  import RequestCodec

  // ----- a controlled link goes on controlled -----

  /** What was read stays read, and everything sent stays where it is. */
  predicate Extends(l: L.State, t: L.State) {
    && l.served <= t.served && |l.conns| <= |t.conns|
    && forall c | 0 <= c < |l.conns| :: l.conns[c].sent <= t.conns[c].sent
  }

  lemma RanStays(l: L.State, t: L.State, steps: seq<Step>, after: seq<Step>, a: nat)
    requires Ran(l, steps, a) && Extends(l, t) && (a + 1 == |steps| ==> after == [])
    ensures Ran(t, steps + after, a)
  {
    hide Answers, Next;
  }

  lemma ControlledStays(l: L.State, t: L.State, steps: seq<Step>)
    requires Controlled(l, steps) && Extends(l, t) && t.served == l.served
    ensures Controlled(t, steps)
  {
    assert steps + [] == steps;
    forall a: nat | a < |t.served|
      ensures Ran(t, steps, a)
    {
      assert Ran(l, steps, a);
      RanStays(l, t, steps, [], a);
    }
  }

  const START := State(Point(600.0, 0.0, 500.0), 100.0, fine)

  /** The controller's state after its steps so far. */
  function StateAfter(l: L.State, steps: seq<Step>): State {
    var n := |steps|;
    if n > 0 && InLog(l, n - 1) then Next(ReadAt(l, n - 1), steps[n - 1]) else START
  }

  /** The controller reads the next message of connection c, in calm circumstances. */
  lemma ServeCalm(l: L.State, steps: seq<Step>, c: nat) returns (step: Step, e: L.Event)
    requires Controlled(l, steps) && LI.ServedInv(l) && c < |l.conns| && l.conns[c].consumed < |l.conns[c].sent|
    ensures e.Serve? && e.conn == c && L.Enabled(l, e)
    ensures Controlled(L.Apply(l, e), steps + [step])
  {
    step := CalmStep(StateAfter(l, steps));
    CalmIsValid(StateAfter(l, steps));
    var raw := l.conns[c].sent[l.conns[c].consumed].request;
    e := L.Serve(c, Answers(raw, step));
    var t := L.Apply(l, e);
    Late.LogsGrow(l, e);
    LI.ServedMoves(l, e);
    hide Answers, Next, CalmStep, L.Apply, LI.ServedInv;
    var more := steps + [step];
    forall a: nat | a < |t.served|
      ensures Ran(t, more, a)
    {
      if a < |steps| {
        assert Ran(l, steps, a);
        NextRan(l, t, steps, step, a);
      } else {
        assert a == |steps| && t.served[a] == L.Served(c, l.conns[c].consumed, Answers(raw, step));
      }
    }
  }

  lemma NextRan(l: L.State, t: L.State, steps: seq<Step>, step: Step, a: nat)
    requires Ran(l, steps, a) && Extends(l, t) && step.before == StateAfter(l, steps)
    ensures Ran(t, steps + [step], a)
  {
    hide Answers, Next;
    assert ReadAt(t, a) == ReadAt(l, a);
    assert a + 1 < |steps| ==> (steps + [step])[a + 1] == steps[a + 1];
  }

  /** Message i of connection c is of ticket k and has at least n bytes. */
  predicate Enough(l: L.State, c: nat, i: nat, k: nat, n: nat) {
    LI.HoldsTicket(l.conns, c, i, k) && |l.conns[c].sent[i].request| >= n
  }

  /** Between l and t the controller has read at least n bytes of the request of ticket k. */
  ghost predicate ReadEnough(l: L.State, t: L.State, k: nat, n: nat) {
    exists a: nat :: |l.served| <= a < |t.served| && Enough(t, t.served[a].conn, t.served[a].index, k, n)
  }

  lemma {:induction false} ServeCalmTo(l: L.State, steps: seq<Step>, c: nat, i: nat, k: nat, n: nat)
      returns (es: seq<L.Event>, after: seq<Step>)
    requires LI.Inv(l) && Controlled(l, steps) && Enough(l, c, i, k, n) && i >= l.conns[c].consumed
    ensures L.Run(l, es).Some? && Late.OnlyLink(es)
    ensures Controlled(L.Run(l, es).value, steps + after) && ReadEnough(l, L.Run(l, es).value, k, n)
    decreases i - l.conns[c].consumed
  {
    assert l.conns[c].consumed < |l.conns[c].sent|;
    var step, e := ServeCalm(l, steps, c);
    LI.StepInv(l, e);
    ServedNext(l, e, c, i, k, n);
    var u := L.Apply(l, e);
    hide L.Apply, L.Enabled, LI.Inv, Controlled, ReadEnough, Enough;
    if i == l.conns[c].consumed {
      Late.OneStep(l, e);
      es, after := [e], [step];
    } else {
      var rest, later := ServeCalmTo(u, steps + [step], c, i, k, n);
      es, after := [e] + rest, [step] + later;
      assert es[1..] == rest;
      assert steps + [step] + later == steps + after;
      ReadEnoughEarlier(l, u, L.Run(u, rest).value, k, n);
    }
  }

  lemma ServedNext(l: L.State, e: L.Event, c: nat, i: nat, k: nat, n: nat)
    requires L.Enabled(l, e) && e.Serve? && e.conn == c && Enough(l, c, i, k, n) && i >= l.conns[c].consumed
    ensures
      var t := L.Apply(l, e);
      && Enough(t, c, i, k, n) && t.conns[c].consumed == l.conns[c].consumed + 1
      && |l.served| <= |t.served|
      && (i == l.conns[c].consumed ==> ReadEnough(l, t, k, n))
  {
    hide L.Tagged;
    var t := L.Apply(l, e);
    assert t.served[|l.served|] == L.Served(c, l.conns[c].consumed, e.answers);
  }

  lemma ReadEnoughEarlier(l: L.State, u: L.State, t: L.State, k: nat, n: nat)
    requires |l.served| <= |u.served| && ReadEnough(u, t, k, n)
    ensures ReadEnough(l, t, k, n)
  {
  }

  // ----- what can still be carried out -----

  /** At least n bytes of the request of ticket k have been sent, and the controller has not read them. */
  ghost predicate UnreadEnough(l: L.State, k: nat, n: nat) {
    exists c: nat, i: nat :: Enough(l, c, i, k, n) && i >= l.conns[c].consumed
  }

  /** Ticket k waits in the queue of a running link, is about to be sent, or enough of it is sent and not read. */
  ghost predicate MayRun(l: L.State, k: nat, n: nat) {
    || (LI.Taken(l) <= k && l.running)
    || (l.worker.Sending? && LI.InHand(l.worker) == Some(k))
    || UnreadEnough(l, k, n)
  }

  /** About to be sent, a request is sent whole and read. */
  lemma SendAndServe(l: L.State, steps: seq<Step>, k: nat, n: nat) returns (es: seq<L.Event>, after: seq<Step>)
    requires LI.Inv(l) && Controlled(l, steps) && k < |l.submitted| && n <= |l.submitted[k]|
    requires l.worker.Sending? && LI.InHand(l.worker) == Some(k)
    ensures L.Run(l, es).Some? && Late.OnlyLink(es)
    ensures Controlled(L.Run(l, es).value, steps + after) && ReadEnough(l, L.Run(l, es).value, k, n)
  {
    SentWhole(l, k, n);
    LI.StepInv(l, L.Send);
    var c := l.socket.value;
    var u := L.Apply(l, L.Send);
    Late.LogsGrow(l, L.Send);
    ControlledStays(l, u, steps);
    assert l.conns[c].consumed <= |l.conns[c].sent|;
    hide L.Apply, LI.Inv, L.Enabled, Enough, ReadEnough, Controlled;
    var rest: seq<L.Event>;
    rest, after := ServeCalmTo(u, steps, c, |l.conns[c].sent|, k, n);
    es := [L.Send] + rest;
    assert es[1..] == rest;
    ReadEnoughEarlier(l, u, L.Run(u, rest).value, k, n);
  }

  lemma SentWhole(l: L.State, k: nat, n: nat)
    requires LI.QueueInv(l) && LI.SocketInv(l) && k < |l.submitted| && n <= |l.submitted[k]|
    requires l.worker.Sending? && LI.InHand(l.worker) == Some(k)
    ensures L.Enabled(l, L.Send)
    ensures
      var t, c := L.Apply(l, L.Send), l.socket.value;
      && t.served == l.served && Enough(t, c, |l.conns[c].sent|, k, n)
      && t.conns[c].consumed == l.conns[c].consumed
  {
    hide L.ErrorText, L.SetPromise, L.Tagged;
  }

  lemma CanReadEnough(l: L.State, steps: seq<Step>, k: nat, n: nat) returns (es: seq<L.Event>, after: seq<Step>)
    requires LI.Inv(l) && Controlled(l, steps) && k < |l.submitted| && n <= |l.submitted[k]| && MayRun(l, k, n)
    ensures L.Run(l, es).Some? && Late.OnlyLink(es)
    ensures Controlled(L.Run(l, es).value, steps + after) && ReadEnough(l, L.Run(l, es).value, k, n)
  {
    if UnreadEnough(l, k, n) {
      var c: nat, i: nat :| Enough(l, c, i, k, n) && i >= l.conns[c].consumed;
      es, after := ServeCalmTo(l, steps, c, i, k, n);
    } else if l.worker.Sending? && LI.InHand(l.worker) == Some(k) {
      es, after := SendAndServe(l, steps, k, n);
    } else {
      var first, u := Late.DriveTo(l, k);
      Late.RunLogsGrow(l, first);
      ControlledStays(l, u, steps);
      SubmittedKept(l, first);
      hide L.Apply, LI.Inv, L.Enabled, MayRun, ReadEnough, Controlled;
      var rest: seq<L.Event>;
      rest, after := SendAndServe(u, steps, k, n);
      LT.RunAppend(l, first, rest);
      es := first + rest;
      ReadEnoughEarlier(l, u, L.Run(u, rest).value, k, n);
    }
  }

  lemma {:induction false} SubmittedKept(l: L.State, es: seq<L.Event>)
    requires L.Run(l, es).Some?
    ensures l.submitted <= L.Run(l, es).value.submitted
    decreases |es|
  {
    if es != [] {
      SubmittedGrows(l, es[0]);
      hide L.Apply;
      SubmittedKept(L.Apply(l, es[0]), es[1..]);
    }
  }

  lemma SubmittedGrows(l: L.State, e: L.Event)
    requires L.Enabled(l, e)
    ensures l.submitted <= L.Apply(l, e).submitted
  {
    hide L.ErrorText, L.SetPromise, L.Tagged, L.Deliver;
  }

  // ----- failed tasks -----

  /** Between s and t the controller has read the request of task id, or a part of it, as this action. */
  ghost predicate Executes(s: M.State, t: M.State, id: nat, action: Action) {
    exists a: nat, k: nat ::
      |s.l.served| <= a && M.ReadOf(t, a, k, id) && InLog(t.l, a) && Parse(ReadAt(t.l, a)) == Execute(action)
  }

  /** From s, some continuation with the controller at the far end carries out this action for task id. */
  ghost predicate CanStillRun(s: M.State, steps: seq<Step>, id: nat, action: Action) {
    exists more, after: seq<Step> ::
      && M.Run(s, more).Some?
      && Controlled(M.Run(s, more).value.l, steps + after)
      && Executes(s, M.Run(s, more).value, id, action)
  }

  /** A beginning of a packed request is carried out as what was asked exactly if it is long enough. */
  lemma BeginningRuns(c: ClientRequest, whole: seq<byte>, part: seq<byte>)
    requires PackedFrom(c, whole) && part <= whole
    ensures Request(Decode(c)).Message? && |whole| == 188 && RequestCodec.Needed(c.command.Id()) <= 188
    ensures Parse(part) == Execute(RequestCodec.Intended(c)) <==> |part| >= RequestCodec.Needed(c.command.Id())
  {
    hide Parse, Serialize, Decode, Request, RequestCodec.Intended;
    assert part == whole[..|part|];
    RequestCodec.PartRunsExactlyIf(c, |part|);
  }

  lemma RunsIfMayRun(s: M.State, steps: seq<Step>, id: nat, k: nat, c: ClientRequest)
    requires M.Inv(s) && Controlled(s.l, steps) && M.OwnedBy(s.p, k, id) && M.Carries(s, k, id)
    requires PackedFrom(c, s.p.requests[id - 1]) && Request(Decode(c)).Message?
    requires MayRun(s.l, k, RequestCodec.Needed(c.command.Id()))
    ensures CanStillRun(s, steps, id, RequestCodec.Intended(c))
  {
    var n := RequestCodec.Needed(c.command.Id());
    BeginningRuns(c, s.p.requests[id - 1], s.p.requests[id - 1]);
    hide M.Run, M.Inv, MayRun, PackedFrom, Request, Decode, Serialize, Parse, RequestCodec.Intended,
      RequestCodec.Needed;
    InvParts(s);
    var les, after := CanReadEnough(s.l, steps, k, n);
    var more := M.ServerRun(s, les);
    M.RunInv(s, more);
    var t := M.Run(s, more).value;
    var a: nat :| |s.l.served| <= a < |t.l.served| && Enough(t.l, t.l.served[a].conn, t.l.served[a].index, k, n);
    ReadIsExecuted(s, t, a, k, id, c);
  }

  lemma InvParts(s: M.State)
    requires M.Inv(s)
    ensures LI.Inv(s.l) && M.Ownership(s)
  {
  }

  lemma ReadIsExecuted(s: M.State, t: M.State, a: nat, k: nat, id: nat, c: ClientRequest)
    requires M.Inv(t) && t.p == s.p && M.OwnedBy(s.p, k, id) && 1 <= id <= |s.p.requests|
    requires PackedFrom(c, s.p.requests[id - 1]) && Request(Decode(c)).Message?
    requires |s.l.served| <= a < |t.l.served|
    requires Enough(t.l, t.l.served[a].conn, t.l.served[a].index, k, RequestCodec.Needed(c.command.Id()))
    ensures Executes(s, t, id, RequestCodec.Intended(c))
  {
    hide M.Inv, PackedFrom, Request, Decode, Serialize, Parse, RequestCodec.Intended, RequestCodec.Needed;
    var owner := M.TicketHasTask(t, k, t.l.served[a].conn, t.l.served[a].index);
    M.OneOwner(t, k, id, owner);
    assert M.ReadOf(t, a, k, id);
    BeginningRuns(c, s.p.requests[id - 1], ReadAt(t.l, a));
  }

  /** A finished task's record, and with it its ticket, stays on record, and it never gets another. */
  lemma {:induction false} TicketForever(s: M.State, es: seq<M.Event>, k: nat, id: nat)
    requires M.Inv(s) && M.Run(s, es).Some? && 1 <= id <= |s.p.finals|
    requires M.OwnedBy(M.Run(s, es).value.p, k, id)
    ensures M.TicketOf(s.p.finals[id - 1].source) == Some(k)
    decreases |es|
  {
    if es == [] {
      WorkersIsLast(s);
    } else {
      M.StepInv(s, es[0]);
      FinalsKept(s, es[0], id);
      hide M.Apply, M.Inv, M.Enabled, M.OwnedBy;
      TicketForever(M.Apply(s, es[0]), es[1..], k, id);
    }
  }

  lemma WorkersIsLast(s: M.State)
    requires M.Inv(s)
    ensures M.WorkersTicket(s.p.worker).Some? ==> s.p.worker.id == |s.p.finals| + 1
  {
    hide LI.Inv, PI.TableInv, PI.MonitorInv, PI.ReportedInv, PI.CounterInv, PI.QueueInv, PI.StartedInv;
  }

  lemma FinalsKept(s: M.State, e: M.Event, id: nat)
    requires M.Inv(s) && M.Enabled(s, e) && 1 <= id <= |s.p.finals|
    ensures var t := M.Apply(s, e); id <= |t.p.finals| && t.p.finals[id - 1] == s.p.finals[id - 1]
  {
    M.PartsEnabled(s, e);
    if M.TasksPart(s, e).Some? {
      var t := M.Apply(s, e);
      M.TasksGrow(s.p, M.TasksPart(s, e).value);
      hide LI.Inv, PI.IdsInv, PI.TableInv, P.Apply, L.Apply;
      if t.p.finals != s.p.finals {
        assert t.p.finals[id - 1] == t.p.finals[..|s.p.finals|][id - 1];
      }
    }
  }

  /** What is read later of a ticket that is queued or in hand no more was sent before, and is read as it was sent. */
  lemma RunsOnlyIfMayRun(s: M.State, past: seq<L.Event>, t: M.State, more: seq<M.Event>,
                         a: nat, k: nat, id: nat, c: ClientRequest)
    requires M.Inv(s) && LT.Reached(s.l, past) && M.Run(s, more) == Some(t) && k < |s.l.submitted|
    requires |s.l.served| <= a && M.ReadOf(t, a, k, id) && InLog(t.l, a)
    requires PackedFrom(c, t.p.requests[id - 1]) && Request(Decode(c)).Message?
    requires Parse(ReadAt(t.l, a)) == Execute(RequestCodec.Intended(c))
    ensures MayRun(s.l, k, RequestCodec.Needed(c.command.Id()))
  {
    var les := M.LinkRun(s, more);
    assert Late.ReadBetween(s.l, t.l, k);
    Late.ReadExactlyIf(s.l, past, k);
    BeginningRuns(c, t.p.requests[id - 1], ReadAt(t.l, a));
    if Late.Unread(s.l, k) {
      var cn: nat, i: nat :| LI.HoldsTicket(s.l.conns, cn, i, k) && i >= s.l.conns[cn].consumed;
      Late.RunLogsGrow(s.l, les);
      M.RunInv(s, more);
      hide M.Inv, M.Run, L.Run, Parse, PackedFrom, Request, Decode, Serialize, RequestCodec.Intended,
        RequestCodec.Needed;
      SamePlace(t, cn, i, t.l.served[a].conn, t.l.served[a].index, k);
      assert Enough(s.l, cn, i, k, RequestCodec.Needed(c.command.Id()));
    }
  }

  lemma SamePlace(t: M.State, c: nat, i: nat, d: nat, j: nat, k: nat)
    requires M.Inv(t) && LI.HoldsTicket(t.l.conns, c, i, k) && LI.HoldsTicket(t.l.conns, d, j, k)
    ensures c == d && i == j
  {
    hide PI.Inv;
  }

  /**
   * A task reported as failed can still be carried out, as the very action its client asked for,
   * exactly if a ticket was issued for it and that ticket waits in the queue of a running link,
   * is about to be sent, or was sent and not read with at least the bytes that parsing its
   * command needs.
   */
  lemma FailedTaskRunsExactlyIf(s: M.State, es: seq<M.Event>, steps: seq<Step>, i: nat, c: ClientRequest)
    requires M.Reached(s, es) && Controlled(s.l, steps)
    requires i < |s.p.finals| && s.p.finals[i].task.state.Failed?
    requires i < |s.p.requests| && PackedFrom(c, s.p.requests[i])
    ensures Request(Decode(c)).Message?
    ensures
      var ticket := M.TicketOf(s.p.finals[i].source);
      CanStillRun(s, steps, i + 1, RequestCodec.Intended(c)) <==>
        ticket.Some? && MayRun(s.l, ticket.value, RequestCodec.Needed(c.command.Id()))
  {
    M.ReachedInv(s, es);
    var past := M.LinkRun(M.INIT, es);
    var ticket := M.TicketOf(s.p.finals[i].source);
    assert M.SourceInv(s, i + 1, s.p.finals[i].source);
    assert Request(Decode(c)).Message?;
    hide M.Inv, M.Run, L.Run, M.Reached, LT.Reached, MayRun, Parse, PackedFrom, Request, Decode, Serialize, Executes,
      Controlled, RequestCodec.Intended, RequestCodec.Needed;
    if ticket.Some? && MayRun(s.l, ticket.value, RequestCodec.Needed(c.command.Id())) {
      RunsIfMayRun(s, steps, i + 1, ticket.value, c);
    }
    forall more | M.Run(s, more).Some? && Executes(s, M.Run(s, more).value, i + 1, RequestCodec.Intended(c))
      ensures ticket.Some? && MayRun(s.l, ticket.value, RequestCodec.Needed(c.command.Id()))
    {
      ExecutedOnlyIf(s, past, more, i, c);
    }
  }

  lemma ExecutedOnlyIf(s: M.State, past: seq<L.Event>, more: seq<M.Event>, i: nat, c: ClientRequest)
    requires M.Inv(s) && LT.Reached(s.l, past) && M.Run(s, more).Some? && i < |s.p.finals|
    requires i < |s.p.requests| && PackedFrom(c, s.p.requests[i]) && Request(Decode(c)).Message?
    requires Executes(s, M.Run(s, more).value, i + 1, RequestCodec.Intended(c))
    ensures
      var ticket := M.TicketOf(s.p.finals[i].source);
      ticket.Some? && MayRun(s.l, ticket.value, RequestCodec.Needed(c.command.Id()))
  {
    hide M.Inv, M.Run, LT.Reached, MayRun, Parse, PackedFrom, Request, Decode, Serialize, RequestCodec.Intended,
      RequestCodec.Needed;
    var t := M.Run(s, more).value;
    var a: nat, k: nat :|
      |s.l.served| <= a && M.ReadOf(t, a, k, i + 1) && InLog(t.l, a)
      && Parse(ReadAt(t.l, a)) == Execute(RequestCodec.Intended(c));
    TicketForever(s, more, k, i + 1);
    RequestsKept(s, more);
    TicketKnown(s, i, k);
    RunsOnlyIfMayRun(s, past, t, more, a, k, i + 1, c);
  }

  lemma TicketKnown(s: M.State, i: nat, k: nat)
    requires M.Inv(s) && i < |s.p.finals| && M.TicketOf(s.p.finals[i].source) == Some(k)
    ensures k < |s.l.submitted|
  {
    assert M.SourceInv(s, i + 1, s.p.finals[i].source);
  }

  lemma {:induction false} RequestsKept(s: M.State, es: seq<M.Event>)
    requires M.Run(s, es).Some?
    ensures s.p.requests <= M.Run(s, es).value.p.requests
    decreases |es|
  {
    if es != [] {
      M.PartsEnabled(s, es[0]);
      if M.TasksPart(s, es[0]).Some? {
        PI.RequestsGrow(s.p, M.TasksPart(s, es[0]).value);
      }
      hide P.Apply, L.Apply;
      RequestsKept(M.Apply(s, es[0]), es[1..]);
    }
  }

  /**
   * A send that fails after all bytes its command's parsing needs: clients are told the task
   * failed, and the controller carries out the very action they asked for.
   */
  lemma FailedSendCarriedOut(c: ClientRequest, request: seq<byte>, out: nat, step: Step)
      returns (es: seq<M.Event>, s: M.State)
    requires PackedFrom(c, request) && RequestCodec.Needed(c.command.Id()) <= out < 188
    requires step.Valid() && !step.env.motion.KinematicLimit?
    ensures M.Reached(s, es) && Controlled(s.l, [step])
    ensures 1 in s.p.tasks && s.p.tasks[1].state.Failed? && s.p.tasks[1].request == request
    ensures |s.l.served| == 1 && InLog(s.l, 0) && Parse(ReadAt(s.l, 0)) == Execute(RequestCodec.Intended(c))
  {
    hide *;
    var answer := PartAnswer(c, request, out, step);
    es, s := M.FailedSendStillRuns(request, out, answer);
    PartRan(s.l, request[..out], step, answer);
  }

  lemma PartAnswer(c: ClientRequest, request: seq<byte>, out: nat, step: Step) returns (answer: seq<byte>)
    requires PackedFrom(c, request) && RequestCodec.Needed(c.command.Id()) <= out < 188
    requires step.Valid() && !step.env.motion.KinematicLimit?
    ensures Request(Decode(c)).Message? && 0 < out < |request| == 188
    ensures Parse(request[..out]) == Execute(RequestCodec.Intended(c)) && Answers(request[..out], step) == [answer]
  {
    RequestCodec.PartRunsExactlyIf(c, out);
    AnsweredOnceExactlyIf(step.before, RequestCodec.Intended(c), step.env);
    hide Parse, Serialize, Decode, Request, StartsMotion, RequestCodec.Intended, ExecuteAction, Rendered;
    answer := Answers(request[..out], step)[0];
  }

  lemma PartRan(l: L.State, part: seq<byte>, step: Step, answer: seq<byte>)
    requires l.served == [L.Served(0, 0, [answer])]
    requires |l.conns| == 1 && l.conns[0].sent == [L.Message(L.Part(Some(0)), part)]
    requires step.Valid() && Answers(part, step) == [answer]
    ensures Controlled(l, [step]) && InLog(l, 0) && ReadAt(l, 0) == part
  {
    hide Answers, Next;
    assert Ran(l, [step], 0);
  }
}
