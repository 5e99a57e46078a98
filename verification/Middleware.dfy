/**
 * The whole server: the task pipeline and the robot link running side by side. They meet where
 * the server's robot worker reads the connected flag, queues a request, and waits on its
 * future. Every other step belongs to one side alone.
 */
module Middleware {
  import opened Bytes
  import P = Pipeline
  import L = RobotLink
  import PI = PipelineInvariant
  import LI = RobotLinkInvariant
  import LT = RobotLinkTheorems
  import AnswerPairing
  import Late = LateExecution
  import TR = TaskRecord

  datatype State = State(p: P.State, l: L.State)

  datatype Event =
    | Tasks(pe: P.Event)      // a step of the pipeline alone
    | Link(le: L.Event)       // a step of the link alone
    | ReadConnected           // is_connected
    | Submit                  // queue_request returns a future
    | SubmitThrows            // queue_request throws: the session is over
    | FutureReady             // the future became ready within 90 s
    | FutureTimeout           // it did not

  const INIT := State(P.INIT, L.INIT)

  /** The steps of each side that are no joint step; the link is stopped after the tasker. */
  predicate OwnTasks(e: P.Event) {
    !(e.ReadConnected? || e.Submit? || e.SubmitThrows? || e.Answer? || e.TimeOut?)
  }

  predicate OwnLink(s: State, e: L.Event) {
    !e.Enqueue? && (e.Stop? ==> s.p.stopper.Stopped?)
  }

  function Kept(pr: L.Promise): seq<byte>
    requires !pr.Unset?
  {
    pr.value
  }

  predicate FutureIsSet(s: State) {
    s.p.worker.Waiting? && s.p.worker.ticket < |s.l.promises| && !s.l.promises[s.p.worker.ticket].Unset?
  }

  predicate Enabled(s: State, e: Event) {
    match e
    case Tasks(pe) => OwnTasks(pe) && P.Enabled(s.p, pe)
    case Link(le) => OwnLink(s, le) && L.Enabled(s.l, le)
    case ReadConnected => s.p.worker.Probing?
    case Submit => s.p.worker.Submitting? && s.l.running
    case SubmitThrows => s.p.worker.Submitting? && !s.l.running
    case FutureReady => FutureIsSet(s)
    case FutureTimeout => s.p.worker.Waiting? && !FutureIsSet(s)
  }

  /** The pipeline's part of a step, and the link's. */
  function TasksPart(s: State, e: Event): Option<P.Event>
    requires Enabled(s, e)
  {
    match e
    case Tasks(pe) => Some(pe)
    case Link(_) => None
    case ReadConnected => Some(P.ReadConnected(s.l.connected))
    case Submit => Some(P.Submit(|s.l.submitted|))
    case SubmitThrows => Some(P.SubmitThrows)
    case FutureReady => Some(P.Answer(Kept(s.l.promises[s.p.worker.ticket])))
    case FutureTimeout => Some(P.TimeOut)
  }

  function LinkPart(s: State, e: Event): Option<L.Event>
    requires Enabled(s, e)
  {
    match e
    case Link(le) => Some(le)
    case Submit => Some(L.Enqueue(s.p.worker.request))
    case _ => None
  }

  function Apply(s: State, e: Event): State
    requires Enabled(s, e)
  {
    State(match TasksPart(s, e) case Some(pe) => P.Apply(s.p, pe) case None => s.p,
          match LinkPart(s, e) case Some(le) => L.Apply(s.l, le) case None => s.l)
  }

  function Run(s: State, es: seq<Event>): Option<State>
    decreases |es|
  {
    if es == [] then Some(s)
    else if Enabled(s, es[0]) then Run(Apply(s, es[0]), es[1..])
    else None
  }

  ghost predicate Reached(s: State, es: seq<Event>) {
    Run(INIT, es) == Some(s)
  }

  // ----- coupling of the two sides -----

  /** Ticket k carries the request of task id. */
  predicate Carries(s: State, k: nat, id: nat) {
    && k < |s.l.submitted| && 1 <= id <= |s.p.requests|
    && s.l.submitted[k] == s.p.requests[id - 1]
  }

  predicate SourceInv(s: State, id: nat, source: P.Source) {
    match source
    case Unsent => true
    case Unanswered(k) => Carries(s, k, id)
    case Answered(k, value) =>
      Carries(s, k, id) && k < |s.l.promises| && !s.l.promises[k].Unset? && Kept(s.l.promises[k]) == value
  }

  ghost predicate Coupling(s: State) {
    && (s.p.worker.Waiting? ==> Carries(s, s.p.worker.ticket, s.p.worker.id))
    && (s.p.worker.Closing? ==> SourceInv(s, s.p.worker.id, s.p.worker.source))
    && (forall i | 0 <= i < |s.p.finals| :: SourceInv(s, i + 1, s.p.finals[i].source))
    && (s.p.worker.Aborted? ==> !s.l.running)
    && (!s.l.running ==> s.p.stopper.Stopped?)
  }

  function TicketOf(source: P.Source): Option<nat> {
    match source
    case Unsent => None
    case Unanswered(k) => Some(k)
    case Answered(k, _) => Some(k)
  }

  function WorkersTicket(w: P.Worker): Option<nat> {
    if w.Waiting? then Some(w.ticket) else if w.Closing? then TicketOf(w.source) else None
  }

  predicate Before(a: Option<nat>, b: Option<nat>) {
    a.Some? && b.Some? ==> a.value < b.value
  }

  /** Tasks are given tickets in the order of their ids. */
  ghost predicate TicketOrder(p: P.State) {
    && (forall i, j | 0 <= i < j < |p.finals| :: Before(TicketOf(p.finals[i].source), TicketOf(p.finals[j].source)))
    && (forall i | 0 <= i < |p.finals| :: Before(TicketOf(p.finals[i].source), WorkersTicket(p.worker)))
  }

  /** Ticket k was issued for task id, which is in the worker's hands or finished. */
  predicate OwnedBy(p: P.State, k: nat, id: nat) {
    || (WorkersTicket(p.worker) == Some(k) && p.worker.id == id)
    || (1 <= id <= |p.finals| && TicketOf(p.finals[id - 1].source) == Some(k))
  }

  ghost predicate HasOwner(p: P.State, k: nat) {
    exists id: nat {:trigger OwnedBy(p, k, id)} :: OwnedBy(p, k, id)
  }

  ghost predicate Ownership(s: State) {
    forall k: nat | k < |s.l.submitted| :: HasOwner(s.p, k)
  }

  ghost predicate Inv(s: State) {
    PI.Inv(s.p) && LI.Inv(s.l) && Coupling(s) && TicketOrder(s.p) && Ownership(s)
  }

  /** What the link has kept stays kept, and tickets keep their requests. */
  lemma LinkGrows(l: L.State, e: L.Event)
    requires LI.TicketInv(l) && L.Enabled(l, e)
    ensures
      var m := L.Apply(l, e);
      && |l.submitted| <= |m.submitted| && |l.promises| <= |m.promises|
      && (forall k | 0 <= k < |l.submitted| :: m.submitted[k] == l.submitted[k])
      && (forall k | 0 <= k < |l.promises| && !l.promises[k].Unset? :: m.promises[k] == l.promises[k])
      && (e.Enqueue? ==> |m.submitted| == |l.submitted| + 1 && m.submitted[|l.submitted|] == e.request)
      && (m.running ==> l.running)
      && (!e.Stop? ==> m.running == l.running)
  {
    hide L.ErrorText, L.Tagged, L.Deliver;
  }

  lemma PartsEnabled(s: State, e: Event)
    requires Enabled(s, e)
    ensures TasksPart(s, e).Some? ==> P.Enabled(s.p, TasksPart(s, e).value)
    ensures LinkPart(s, e).Some? ==> L.Enabled(s.l, LinkPart(s, e).value)
  {
  }

  /** How a pipeline step changes what the coupling speaks of. */
  lemma TasksGrow(p: P.State, e: P.Event)
    requires PI.IdsInv(p) && PI.TableInv(p) && P.Enabled(p, e)
    ensures
      var q := P.Apply(p, e);
      && |p.requests| <= |q.requests|
      && (forall i | 0 <= i < |p.requests| :: q.requests[i] == p.requests[i])
      && (q.finals == p.finals
          || (e.Close? && p.worker.Closing? && p.worker.id == |p.finals| + 1 && |q.finals| == |p.finals| + 1
              && q.finals[..|p.finals|] == p.finals && q.finals[|p.finals|].source == p.worker.source))
      && (p.stopper.Stopped? ==> q.stopper.Stopped?)
  {
    PI.RequestsGrow(p, e);
    if p.stopper.Stopped? {
      StopperStays(p, e);
    }
    if PI.OnTable(e) {
      PI.TableSteps(p, e);
      hide P.Apply, PI.CounterInv, PI.QueueInv, PI.StartedInv, PI.TableInv;
    } else {
      PI.TableFrame(p, e);
      hide P.Apply, PI.CounterInv, PI.QueueInv, PI.StartedInv, PI.TableInv;
    }
  }

  lemma StopperStays(p: P.State, e: P.Event)
    requires P.Enabled(p, e) && p.stopper.Stopped?
    ensures P.Apply(p, e).stopper.Stopped?
  {
    hide P.Judge, TR.Insert, TR.Start, TR.Finish, TR.Remove, TR.Sweep, TR.Sweepable;
  }

  lemma WorkerMoves(p: P.State, e: P.Event)
    requires PI.IdsInv(p) && P.Enabled(p, e)
    ensures
      var w, v := p.worker, P.Apply(p, e).worker;
      && (v.Waiting? && v != w ==>
            e.Submit? && w.Submitting? && v == P.Waiting(w.id, e.ticket)
            && 1 <= w.id <= |p.requests| && w.request == p.requests[w.id - 1])
      && (v.Closing? && v != w && !v.source.Unsent? ==>
            w.Waiting? && v.id == w.id
            && ((e.TimeOut? && v.source == P.Unanswered(w.ticket))
                || (e.Answer? && v.source == P.Answered(w.ticket, e.value))))
      && (v.Aborted? ==> v == w || e.SubmitThrows?)
      && (e.Close? ==> v.AtTop?)
  {
    if PI.OnTask(e) {
      hide PI.CounterInv, PI.QueueInv, PI.StartedInv, P.IsRefusal, P.DISCONNECTED, P.ROBOT_ERROR,
        TR.Insert, TR.Start, TR.Finish, TR.Remove, TR.Sweep, TR.Sweepable;
    } else if PI.InWaiting(e) {
      NoTaskInWaiting(p, e);
    } else {
      PI.WorkerFrame(p, e);
    }
  }

  lemma NoTaskInWaiting(p: P.State, e: P.Event)
    requires P.Enabled(p, e) && PI.InWaiting(e)
    ensures var v := P.Apply(p, e).worker; !v.Waiting? && !v.Closing? && !v.Aborted?
  {
    hide P.Judge, TR.Insert, TR.Start, TR.Finish, TR.Remove, TR.Sweep, TR.Sweepable;
  }

  lemma SourceStays(s: State, t: State, id: nat, source: P.Source)
    requires SourceInv(s, id, source)
    requires |s.l.submitted| <= |t.l.submitted|
    requires forall k | 0 <= k < |s.l.submitted| :: t.l.submitted[k] == s.l.submitted[k]
    requires |s.l.promises| <= |t.l.promises|
    requires forall k | 0 <= k < |s.l.promises| && !s.l.promises[k].Unset? :: t.l.promises[k] == s.l.promises[k]
    requires |s.p.requests| <= |t.p.requests|
    requires forall i | 0 <= i < |s.p.requests| :: t.p.requests[i] == s.p.requests[i]
    ensures SourceInv(t, id, source)
  {
  }

  lemma StepCoupling(s: State, e: Event)
    requires Inv(s) && Enabled(s, e)
    ensures Coupling(Apply(s, e))
  {
    hide P.Apply, L.Apply, P.Enabled, L.Enabled, PI.IdsInv, PI.TableInv, PI.MonitorInv, PI.ReportedInv, LI.TicketInv,
      LI.SocketInv, LI.LogInv, LI.GenuineInv, LI.ServedInv, LI.StreamInv, LI.SyncInv, LI.PromiseInv, LI.OrderInv;
    PartsEnabled(s, e);
    var t := Apply(s, e);
    if LinkPart(s, e).Some? {
      LinkGrows(s.l, LinkPart(s, e).value);
    }
    if TasksPart(s, e).Some? {
      TasksGrow(s.p, TasksPart(s, e).value);
      WorkerMoves(s.p, TasksPart(s, e).value);
    }
    forall i | 0 <= i < |t.p.finals|
      ensures SourceInv(t, i + 1, t.p.finals[i].source)
    {
      if i < |s.p.finals| {
        assert t.p.finals[i] == s.p.finals[i] by {
          if t.p.finals != s.p.finals {
            assert t.p.finals[i] == t.p.finals[..|s.p.finals|][i];
          }
        }
        SourceStays(s, t, i + 1, s.p.finals[i].source);
      } else {
        assert i == |s.p.finals| && t.p.finals[i].source == s.p.worker.source;
        SourceStays(s, t, i + 1, s.p.worker.source);
      }
    }
    if s.p.worker.Closing? && t.p.worker == s.p.worker {
      SourceStays(s, t, s.p.worker.id, s.p.worker.source);
    }
  }

  lemma StepTickets(s: State, e: Event)
    requires Inv(s) && Enabled(s, e)
    ensures TicketOrder(Apply(s, e).p)
  {
    hide P.Apply, L.Apply, P.Enabled, L.Enabled, PI.IdsInv, PI.TableInv, PI.MonitorInv, PI.ReportedInv, LI.Inv;
    PartsEnabled(s, e);
    var t := Apply(s, e);
    if TasksPart(s, e).Some? {
      TasksGrow(s.p, TasksPart(s, e).value);
      WorkerMoves(s.p, TasksPart(s, e).value);
      forall i | 0 <= i < |t.p.finals|
        ensures i < |s.p.finals| ==> t.p.finals[i] == s.p.finals[i]
      {
        if i < |s.p.finals| && t.p.finals != s.p.finals {
          assert t.p.finals[i] == t.p.finals[..|s.p.finals|][i];
        }
      }
    }
  }

  /** The worker gives up a ticket only into the record of the task it closes, and there it stays. */
  lemma OwnedStays(p: P.State, e: P.Event, k: nat, id: nat)
    requires PI.IdsInv(p) && PI.TableInv(p) && P.Enabled(p, e) && OwnedBy(p, k, id)
    ensures OwnedBy(P.Apply(p, e), k, id)
  {
    var q := P.Apply(p, e);
    TasksGrow(p, e);
    if WorkersTicket(p.worker) == Some(k) && p.worker.id == id {
      TicketKept(p, e, k);
    } else {
      hide P.Apply, P.Enabled, PI.IdsInv, PI.TableInv;
      assert q.finals[id - 1] == p.finals[id - 1] by {
        if q.finals != p.finals {
          assert q.finals[id - 1] == q.finals[..|p.finals|][id - 1];
        }
      }
    }
  }

  lemma TicketKept(p: P.State, e: P.Event, k: nat)
    requires PI.IdsInv(p) && PI.TableInv(p) && P.Enabled(p, e) && WorkersTicket(p.worker) == Some(k)
    ensures OwnedBy(P.Apply(p, e), k, p.worker.id)
  {
    hide PI.CounterInv, PI.QueueInv, PI.StartedInv, PI.EntryInv, PI.TimeInv, PI.WaitingInv, PI.FinalsInv, PI.SourcesInv,
      PI.ErasedInv, P.IsRefusal, TR.Insert, TR.Start, TR.Remove, TR.Sweep, TR.Ended;
  }

  lemma StepOwnership(s: State, e: Event)
    requires Inv(s) && Enabled(s, e)
    ensures Ownership(Apply(s, e))
  {
    PartsEnabled(s, e);
    var t := Apply(s, e);
    forall k: nat | k < |t.l.submitted|
      ensures HasOwner(t.p, k)
    {
      if k < |s.l.submitted| {
        assert HasOwner(s.p, k);
        var id: nat :| OwnedBy(s.p, k, id);
        hide OwnedBy, P.Apply, L.Apply, P.Enabled, L.Enabled, PI.IdsInv, PI.TableInv;
        if TasksPart(s, e).Some? {
          OwnedStays(s.p, TasksPart(s, e).value, k, id);
        }
        assert OwnedBy(t.p, k, id);
      } else {
        NewTicket(s, e, k);
      }
    }
  }

  /** A new ticket is the worker's. */
  lemma NewTicket(s: State, e: Event, k: nat)
    requires Enabled(s, e) && |s.l.submitted| <= k < |Apply(s, e).l.submitted|
    ensures HasOwner(Apply(s, e).p, k)
  {
    hide L.ErrorText, L.SetPromise, L.Deliver, L.Tagged, P.Judge, TR.Insert, TR.Start, TR.Finish, TR.Remove, TR.Sweep;
    assert OwnedBy(Apply(s, e).p, k, s.p.worker.id);
  }

  lemma StepInv(s: State, e: Event)
    requires Inv(s) && Enabled(s, e)
    ensures Inv(Apply(s, e))
  {
    hide P.Apply, L.Apply, P.Enabled, L.Enabled, PI.Inv, LI.Inv, Coupling, TicketOrder, Ownership;
    PartsEnabled(s, e);
    StepTickets(s, e);
    StepOwnership(s, e);
    StepCoupling(s, e);
    if TasksPart(s, e).Some? {
      PI.StepInv(s.p, TasksPart(s, e).value);
    }
    if LinkPart(s, e).Some? {
      LI.StepInv(s.l, LinkPart(s, e).value);
    }
  }

  lemma {:induction false} RunInv(s: State, es: seq<Event>)
    requires Inv(s) && Run(s, es).Some?
    ensures Inv(Run(s, es).value)
    decreases |es|
  {
    hide Apply, Inv;
    if es != [] {
      StepInv(s, es[0]);
      RunInv(Apply(s, es[0]), es[1..]);
    }
  }

  lemma ReachedInv(s: State, es: seq<Event>)
    requires Reached(s, es)
    ensures Inv(s)
  {
    PI.InitInv();
    LI.InitInv();
    hide PI.Inv, LI.Inv, Run;
    assert Inv(INIT);
    hide Inv;
    RunInv(INIT, es);
  }

  // ----- what the server promises its clients -----

  /** Task t's response came over the link, paired by position with the request of t's own ticket k. */
  ghost predicate GotAnswer(s: State, t: TR.Task, k: nat, c: nat, i: nat, serial: nat) {
    && OwnedBy(s.p, k, t.id) && Carries(s, k, t.id)
    && LT.Paired(s.l, k, c, i, L.Reply(serial, t.response))
  }

  ghost predicate Answered(s: State, t: TR.Task, k: nat, serial: nat) {
    exists c: nat, i: nat :: GotAnswer(s, t, k, c, i, serial)
  }

  /** Task t's response is the controller's only answer to the request bytes t was added with. */
  predicate HasItsAnswer(s: State, t: TR.Task, k: nat, serial: nat) {
    && 1 <= t.id <= |s.p.requests|
    && AnswerPairing.IsAnswer(s.l.served, s.l.conns, L.Message(L.Client(k), s.p.requests[t.id - 1]),
                              L.Reply(serial, t.response))
  }

  lemma AnsweredBy(s: State, t: TR.Task, k: nat, c: nat, i: nat, serial: nat)
    requires GotAnswer(s, t, k, c, i, serial)
    ensures Answered(s, t, k, serial)
  {
    hide GotAnswer;
  }

  /** A kept promise that is no refusal holds an answer that came over the link. */
  lemma KeptIsAnswer(l: L.State, k: nat) returns (c: nat, i: nat)
    requires LI.Inv(l)
    requires k < |l.promises| && !l.promises[k].Unset? && !P.IsRefusal(Kept(l.promises[k]))
    ensures l.promises[k].FromRobot?
    ensures LT.Paired(l, k, c, i, L.Reply(l.promises[k].serial, l.promises[k].value))
  {
    assert LI.PromiseHas(l, k);
    hide LI.TicketInv, LI.SocketInv, LI.LogInv, LI.GenuineInv, LI.ServedInv, LI.StreamInv, LI.SyncInv, LI.OrderInv,
      LI.ReceivedAs, LT.Paired;
    c, i := LT.AnswerOf(l, k);
  }

  /** A completed task's source is an answer the server did not read as a refusal. */
  lemma CompletedSource(s: State, i: nat)
    requires PI.SourcesInv(s.p.finals) && i < |s.p.finals| && s.p.finals[i].task.state.Completed?
    ensures s.p.finals[i].source.Answered? && !P.IsRefusal(s.p.finals[i].source.value)
    ensures s.p.finals[i].source.value == s.p.finals[i].task.response
  {
    assert PI.SourceMatches(s.p.finals[i]);
  }

  /**
   * End-to-end pairing: over all interleavings of clients, worker, sweeper, robot worker,
   * heartbeats, network failures, reconnects and timeouts, the response a task was completed
   * with came over the connection its own request bytes were sent on, as the answer in the same
   * place. It is that request's own answer exactly if the n messages sent before it on the
   * connection were given n answers in all, and its only one if none of them, nor it, was
   * answered twice; whatever happened later or on other connections.
   */
  lemma CompletedHasItsAnswer(s: State, es: seq<Event>, i: nat)
    requires Reached(s, es) && i < |s.p.finals| && s.p.finals[i].task.state.Completed?
    ensures s.p.finals[i].task.id == i + 1
    ensures exists k: nat, c: nat, n: nat, serial: nat ::
              && GotAnswer(s, s.p.finals[i].task, k, c, n, serial)
              && (L.PoliteUpTo(s.l.served, serial) ==> HasItsAnswer(s, s.p.finals[i].task, k, serial))
  {
    ReachedInv(s, es);
    var k, c, n, serial := AnswerOf(s, i);
  }

  lemma AnswerOf(s: State, i: nat) returns (k: nat, c: nat, n: nat, serial: nat)
    requires Inv(s) && i < |s.p.finals| && s.p.finals[i].task.state.Completed?
    ensures s.p.finals[i].task.id == i + 1 && GotAnswer(s, s.p.finals[i].task, k, c, n, serial)
    ensures TicketOf(s.p.finals[i].source) == Some(k)
    ensures k < |s.l.promises| && s.l.promises[k] == L.FromRobot(serial, s.p.finals[i].task.response)
    ensures L.PoliteUpTo(s.l.served, serial) ==> HasItsAnswer(s, s.p.finals[i].task, k, serial)
  {
    CompletedSource(s, i);
    var f := s.p.finals[i];
    assert SourceInv(s, i + 1, f.source);
    k := f.source.ticket;
    c, n := KeptIsAnswer(s.l, k);
    serial := s.l.promises[k].serial;
    hide PI.IdsInv, PI.MonitorInv, PI.ReportedInv, LI.Inv, LI.ReceivedAs, L.PoliteUpTo, AnswerPairing.AnswerTo,
      L.AnswersBefore, Ownership, TicketOrder;
  }

  /** The server completes no task on an answer it reads as a refusal. */
  lemma FinalIsNoRefusal(s: State, es: seq<Event>, i: nat)
    requires Reached(s, es) && i < |s.p.finals| && s.p.finals[i].task.state.Completed?
    ensures !P.IsRefusal(s.p.finals[i].task.response)
  {
    ReachedInv(s, es);
    CompletedSource(s, i);
  }

  lemma CompletedIsNoRefusal(s: State, es: seq<Event>, id: nat)
    requires Reached(s, es) && id in s.p.tasks && s.p.tasks[id].state.Completed?
    ensures !P.IsRefusal(s.p.tasks[id].response)
  {
    ShownIsFinal(s, es, id);
    hide Reached, P.IsRefusal;
    FinalIsNoRefusal(s, es, id - 1);
  }

  /** A completed task in the table is one of the finals, and still under its number. */
  lemma ShownIsFinal(s: State, es: seq<Event>, id: nat)
    requires Reached(s, es) && id in s.p.tasks && s.p.tasks[id].state.Completed?
    ensures s.p.tasks[id].id == id && 1 <= id <= |s.p.requests| && s.p.tasks[id].request == s.p.requests[id - 1]
    ensures id <= |s.p.finals| && s.p.finals[id - 1].task == s.p.tasks[id]
  {
    ReachedInv(s, es);
    PI.FinishedAreFinal(s.p);
    hide LI.Inv, Coupling, TicketOrder, Ownership;
  }

  /** The same for the task as the clients see it in the table. */
  lemma TableShowsItsAnswer(s: State, es: seq<Event>, id: nat)
    requires Reached(s, es) && id in s.p.tasks && s.p.tasks[id].state.Completed?
    ensures s.p.tasks[id].id == id && 1 <= id <= |s.p.requests| && s.p.tasks[id].request == s.p.requests[id - 1]
    ensures exists k: nat, c: nat, n: nat, serial: nat ::
              && GotAnswer(s, s.p.tasks[id], k, c, n, serial)
              && (L.PoliteUpTo(s.l.served, serial) ==> HasItsAnswer(s, s.p.tasks[id], k, serial))
  {
    ShownIsFinal(s, es, id);
    hide Reached, L.PoliteUpTo, GotAnswer, HasItsAnswer;
    CompletedHasItsAnswer(s, es, id - 1);
  }

  /**
   * A completed task whose answer is its own was carried out after every task completed before
   * it: tasks reach the controller one by one in the order of their ids.
   */
  lemma CompletedInOrder(s: State, es: seq<Event>, i: nat, j: nat)
    requires Reached(s, es) && i < j < |s.p.finals|
    requires s.p.finals[i].task.state.Completed? && s.p.finals[j].task.state.Completed?
    ensures s.p.finals[i].task.id == i + 1 && s.p.finals[j].task.id == j + 1
    ensures exists k: nat, a: nat, later: nat, b: nat ::
              && Answered(s, s.p.finals[i].task, k, a) && Answered(s, s.p.finals[j].task, later, b)
              && k < later
              && (L.PoliteUpTo(s.l.served, a) ==> HasItsAnswer(s, s.p.finals[i].task, k, a))
              && (L.PoliteUpTo(s.l.served, b) ==> HasItsAnswer(s, s.p.finals[j].task, later, b) && a < b)
  {
    ReachedInv(s, es);
    var k, a, later, b := InOrder(s, i, j);
  }

  lemma InOrder(s: State, i: nat, j: nat) returns (k: nat, a: nat, later: nat, b: nat)
    requires Inv(s) && i < j < |s.p.finals|
    requires s.p.finals[i].task.state.Completed? && s.p.finals[j].task.state.Completed?
    ensures s.p.finals[i].task.id == i + 1 && s.p.finals[j].task.id == j + 1
    ensures Answered(s, s.p.finals[i].task, k, a) && Answered(s, s.p.finals[j].task, later, b) && k < later
    ensures L.PoliteUpTo(s.l.served, a) ==> HasItsAnswer(s, s.p.finals[i].task, k, a)
    ensures L.PoliteUpTo(s.l.served, b) ==> HasItsAnswer(s, s.p.finals[j].task, later, b) && a < b
  {
    var c, m, d, n;
    k, c, m, a := AnswerOf(s, i);
    later, d, n, b := AnswerOf(s, j);
    hide PI.Inv, LI.Inv, Coupling, Ownership, HasItsAnswer, GotAnswer, L.PoliteUpTo;
    assert Before(TicketOf(s.p.finals[i].source), TicketOf(s.p.finals[j].source));
    if L.PoliteUpTo(s.l.served, b) {
      AnswersInOrder(s, s.p.finals[j].task, k, later, b);
    }
  }

  lemma AnswersInOrder(s: State, t: TR.Task, k: nat, later: nat, b: nat)
    requires Inv(s) && k < later < |s.l.promises| && HasItsAnswer(s, t, later, b)
    requires s.l.promises[k].FromRobot? && s.l.promises[later] == L.FromRobot(b, t.response)
    ensures s.l.promises[k].serial < b
  {
    hide PI.Inv, LI.Inv, AnswerPairing.IsAnswer;
    LT.AnswersOrdered(s.l, k, later, L.Message(L.Client(later), s.p.requests[t.id - 1]));
  }

  // ----- reaching the link -----

  /**
   * A task is handed to the link, with its own request and a ticket of its own, exactly if the
   * link was connected when the worker looked; otherwise it fails unsent.
   */
  lemma SubmittedExactlyIf(s: State, es: seq<Event>)
    requires Reached(s, es) && Enabled(s, ReadConnected)
    ensures
      var t, id := Apply(s, ReadConnected), s.p.worker.id;
      && t.l == s.l && t.p == s.p.(worker := t.p.worker)
      && (s.l.socket.Some? ==>
            && 1 <= id <= |s.p.requests| && t.p.worker == P.Submitting(id, s.p.requests[id - 1])
            && (s.l.running ==>
                  && Enabled(t, Submit)
                  && Apply(t, Submit).p.worker == P.Waiting(id, |s.l.submitted|)
                  && Apply(t, Submit).l.submitted == s.l.submitted + [s.p.requests[id - 1]]))
      && (s.l.socket.None? ==> t.p.worker == P.Closing(id, false, Ascii("Robot disconnected"), P.Unsent))
  {
    ReachedInv(s, es);
    ProbedRequest(s);
    ProbeStep(s);
    hide *;
    if s.l.socket.Some? && s.l.running {
      SubmitStep(Apply(s, ReadConnected));
    }
  }

  lemma ProbeStep(s: State)
    requires Enabled(s, ReadConnected)
    ensures
      var t, w := Apply(s, ReadConnected), s.p.worker;
      && w.Probing? && t.l == s.l && t.p == s.p.(worker := t.p.worker)
      && t.p.worker == if s.l.connected then P.Submitting(w.id, w.request)
                       else P.Closing(w.id, false, Ascii("Robot disconnected"), P.Unsent)
  {
    hide P.Judge;
  }

  lemma SubmitStep(s: State)
    requires s.p.worker.Submitting? && s.l.running
    ensures Enabled(s, Submit)
    ensures
      var t, w := Apply(s, Submit), s.p.worker;
      t.p.worker == P.Waiting(w.id, |s.l.submitted|) && t.l.submitted == s.l.submitted + [w.request]
  {
    hide P.Judge;
  }

  lemma ProbedRequest(s: State)
    requires Inv(s) && s.p.worker.Probing?
    ensures 1 <= s.p.worker.id <= |s.p.requests| && s.p.worker.request == s.p.requests[s.p.worker.id - 1]
    ensures s.l.connected <==> s.l.socket.Some?
  {
    hide Coupling, TicketOrder, Ownership;
  }

  // ----- tasks that failed -----

  /** A run of the whole server is one of the link, for what the link sees of it. */
  lemma {:induction false} LinkRun(s: State, es: seq<Event>) returns (les: seq<L.Event>)
    requires Run(s, es).Some?
    ensures L.Run(s.l, les) == Some(Run(s, es).value.l)
    decreases |es|
  {
    les := [];
    if es != [] {
      var e := es[0];
      PartsEnabled(s, e);
      var u := Apply(s, e);
      assert u.l == if LinkPart(s, e).Some? then L.Apply(s.l, LinkPart(s, e).value) else s.l;
      hide Apply, Enabled, L.Apply, L.Enabled, P.Enabled;
      les := LinkRun(u, es[1..]);
      if LinkPart(s, e).Some? {
        var rest := les;
        les := [LinkPart(s, e).value] + rest;
        assert les[1..] == rest;
      }
    }
  }

  /** A run of link, network and controller is one of the whole server. */
  lemma {:induction false} ServerRun(s: State, les: seq<L.Event>) returns (es: seq<Event>)
    requires L.Run(s.l, les).Some? && Late.OnlyLink(les)
    ensures Run(s, es) == Some(State(s.p, L.Run(s.l, les).value))
    decreases |les|
  {
    es := [];
    if les != [] {
      var e := les[0];
      assert Enabled(s, Link(e)) && Apply(s, Link(e)) == State(s.p, L.Apply(s.l, e));
      hide Apply, Enabled, L.Apply, L.Enabled;
      var rest := ServerRun(State(s.p, L.Apply(s.l, e)), les[1..]);
      es := [Link(e)] + rest;
      assert es[1..] == rest;
    }
  }

  /** From s, some continuation has the controller read the request of ticket k, whole or in part. */
  ghost predicate CanStillBeRead(s: State, k: nat) {
    exists more :: Run(s, more).Some? && Late.ReadBetween(s.l, Run(s, more).value.l, k)
  }

  /**
   * The request of a task reported as failed can still be read by the controller, in whole or in
   * part, exactly if its ticket waits in the queue of a running link, is about to be sent, or is
   * sent, in whole or in part, and not read. Module FailedTasks says when it can be carried out.
   */
  lemma FailedTaskReadExactlyIf(s: State, es: seq<Event>, i: nat)
    requires Reached(s, es) && i < |s.p.finals| && s.p.finals[i].task.state.Failed?
    ensures
      var ticket := TicketOf(s.p.finals[i].source);
      ticket.Some? ==>
        && ticket.value < |s.l.submitted|
        && (CanStillBeRead(s, ticket.value) <==> Late.MayReach(s.l, ticket.value))
  {
    ReachedInv(s, es);
    var past := LinkRun(INIT, es);
    var source := s.p.finals[i].source;
    assert SourceInv(s, i + 1, source);
    if TicketOf(source).Some? {
      hide Inv, Reached;
      StillReadExactlyIf(s, past, TicketOf(source).value);
    }
  }

  lemma StillReadExactlyIf(s: State, past: seq<L.Event>, k: nat)
    requires LT.Reached(s.l, past) && k < |s.l.submitted|
    ensures CanStillBeRead(s, k) <==> Late.MayReach(s.l, k)
  {
    hide L.Run, Run, LT.Reached, Late.MayReach, Late.ReadBetween;
    Late.ReadExactlyIf(s.l, past, k);
    if Late.MayReach(s.l, k) {
      LT.ReachedInv(s.l, past);
      var les := Late.CanBeRead(s.l, k);
      var more := ServerRun(s, les);
    } else {
      forall more | Run(s, more).Some?
        ensures !Late.ReadBetween(s.l, Run(s, more).value.l, k)
      {
        var les := LinkRun(s, more);
      }
    }
  }

  /** What the controller read in step a is of ticket k: the request of task id, or a part from its beginning. */
  ghost predicate ReadOf(s: State, a: nat, k: nat, id: nat) {
    && a < |s.l.served| && OwnedBy(s.p, k, id) && Carries(s, k, id)
    && LI.HoldsTicket(s.l.conns, s.l.served[a].conn, s.l.served[a].index, k)
    && s.l.conns[s.l.served[a].conn].sent[s.l.served[a].index].request <= s.p.requests[id - 1]
  }

  /** A task's own answer was given in a step that read the task's request. */
  lemma OwnAnswerRead(s: State, t: TR.Task, k: nat, serial: nat)
    requires Answered(s, t, k, serial) && HasItsAnswer(s, t, k, serial)
    ensures ReadOf(s, serial, k, t.id)
  {
    hide LT.Paired;
  }

  /** Every message the controller reads that is no heartbeat is of a task. */
  lemma ReadForATask(s: State, es: seq<Event>, a: nat, k: nat)
    requires Reached(s, es) && a < |s.l.served|
    requires LI.HoldsTicket(s.l.conns, s.l.served[a].conn, s.l.served[a].index, k)
    ensures exists id: nat :: ReadOf(s, a, k, id)
  {
    ReachedInv(s, es);
    hide Inv;
    var id := TicketHasTask(s, k, s.l.served[a].conn, s.l.served[a].index);
    assert ReadOf(s, a, k, id);
  }

  lemma TicketHasTask(s: State, k: nat, c: nat, i: nat) returns (id: nat)
    requires Inv(s) && LI.HoldsTicket(s.l.conns, c, i, k)
    ensures OwnedBy(s.p, k, id) && Carries(s, k, id) && s.l.conns[c].sent[i].request <= s.p.requests[id - 1]
  {
    hide PI.Inv, LI.StreamInv, LI.SyncInv, LI.PromiseInv, LI.OrderInv, LI.LogInv, LI.ServedInv, LI.KeptInv, TicketOrder;
    assert LI.Genuine(s.l.conns[c].sent[i], s.l.submitted);
    assert HasOwner(s.p, k);
    id :| OwnedBy(s.p, k, id);
    if !(WorkersTicket(s.p.worker) == Some(k) && s.p.worker.id == id) {
      assert SourceInv(s, id, s.p.finals[id - 1].source);
    }
  }

  /** A task's request reaches the controller once at most, and no step of the controller reads two tasks' requests. */
  lemma TaskReadOnce(s: State, es: seq<Event>, a: nat, k: nat, id: nat, b: nat, l: nat, other: nat)
    requires Reached(s, es) && ReadOf(s, a, k, id) && ReadOf(s, b, l, other)
    ensures a == b <==> id == other
  {
    ReachedInv(s, es);
    if id == other {
      OneTicket(s, k, l, id);
      var past := LinkRun(INIT, es);
      hide Inv;
      LT.AtMostOneExecution(s.l, past, a, b, k);
    } else if a == b {
      OneOwner(s, k, id, other);
    }
  }

  lemma OneTicket(s: State, k: nat, l: nat, id: nat)
    requires Inv(s) && OwnedBy(s.p, k, id) && OwnedBy(s.p, l, id)
    ensures k == l
  {
    hide LI.Inv, Coupling, TicketOrder, Ownership, PI.TableInv, PI.MonitorInv, PI.ReportedInv, PI.CounterInv,
      PI.QueueInv;
  }

  lemma OneOwner(s: State, k: nat, id: nat, other: nat)
    requires Inv(s) && OwnedBy(s.p, k, id) && OwnedBy(s.p, k, other)
    ensures id == other
  {
    hide LI.Inv, Coupling, Ownership, PI.Inv;
    if 1 <= id < other <= |s.p.finals| {
      LaterTicket(s, id, other);
    } else if 1 <= other < id <= |s.p.finals| {
      LaterTicket(s, other, id);
    }
  }

  lemma LaterTicket(s: State, id: nat, later: nat)
    requires TicketOrder(s.p) && 1 <= id < later <= |s.p.finals| && TicketOf(s.p.finals[id - 1].source).Some?
    ensures TicketOf(s.p.finals[later - 1].source) != TicketOf(s.p.finals[id - 1].source)
  {
    assert Before(TicketOf(s.p.finals[id - 1].source), TicketOf(s.p.finals[later - 1].source));
  }

  /** The worker thread dies of an exception only once the server has been told to stop. */
  lemma AbortsOnlyWhenStopped(s: State, es: seq<Event>)
    requires Reached(s, es) && s.p.worker.Aborted?
    ensures s.p.stopper.Stopped? && !s.p.running
  {
    ReachedInv(s, es);
  }

  // ----- a failed task may still be executed -----

  lemma {:induction false} RunSnoc(s: State, es: seq<Event>, e: Event)
    requires Run(s, es).Some? && Enabled(Run(s, es).value, e)
    ensures Run(s, es + [e]) == Some(Apply(Run(s, es).value, e))
    decreases |es|
  {
    hide Apply;
    if es == [] {
      assert [e][1..] == [];
    } else {
      assert (es + [e])[1..] == es[1..] + [e];
      RunSnoc(Apply(s, es[0]), es[1..], e);
    }
  }

  lemma Extend(es: seq<Event>, s: State, e: Event) returns (es': seq<Event>, s': State)
    requires Reached(s, es) && Enabled(s, e)
    ensures es' == es + [e] && s' == Apply(s, e) && Reached(s', es')
  {
    RunSnoc(INIT, es, e);
    es', s' := es + [e], Apply(s, e);
  }

  lemma ExtendTasks(es: seq<Event>, s: State, e: P.Event) returns (es': seq<Event>, s': State)
    requires Reached(s, es) && OwnTasks(e) && P.Enabled(s.p, e)
    ensures Reached(s', es') && s'.p == P.Apply(s.p, e) && s'.l == s.l
  {
    hide P.Apply, Reached;
    es', s' := Extend(es, s, Tasks(e));
  }

  lemma ExtendLink(es: seq<Event>, s: State, e: L.Event) returns (es': seq<Event>, s': State)
    requires Reached(s, es) && OwnLink(s, e) && L.Enabled(s.l, e)
    ensures Reached(s', es') && s'.l == L.Apply(s.l, e) && s'.p == s.p
  {
    hide L.Apply, Reached;
    es', s' := Extend(es, s, Link(e));
  }

  /** Task 1 is added. */
  lemma AddOne(request: seq<byte>) returns (es: seq<Event>, s: State)
    ensures Reached(s, es) && s.l == L.INIT
    ensures s.p == P.State(2, map[1 := TR.NewTask(1, request, 0)], [1], P.Nobody, false, true, 0,
                           P.Ready, P.AtTop, P.Running, [request], [], [], multiset{}, [])
  {
    es, s := [], INIT;
    assert Reached(s, es);
    hide Run, Reached, Apply;
    es, s := ExtendTasks(es, s, P.Reserve(request));
    es, s := ExtendTasks(es, s, P.InsertTask);
    es, s := ExtendTasks(es, s, P.LockForPush);
    es, s := ExtendTasks(es, s, P.Push);
    es, s := ExtendTasks(es, s, P.UnlockPush);
    es, s := ExtendTasks(es, s, P.NotifyOne);
  }

  /** The worker takes it and starts it. */
  lemma TakeOne(request: seq<byte>) returns (es: seq<Event>, s: State)
    ensures Reached(s, es) && s.l == L.INIT
    ensures s.p.worker == P.Fetching(1) && s.p.tasks.Keys == {1}
    ensures s.p.tasks[1].state.InProgress? && s.p.tasks[1].request == request
  {
    hide Run, Reached, Apply;
    es, s := AddOne(request);
    es, s := ExtendTasks(es, s, P.ReadRunning);
    es, s := ExtendTasks(es, s, P.LockQueue);
    es, s := ExtendTasks(es, s, P.Test);
    es, s := ExtendTasks(es, s, P.Pop);
    es, s := ExtendTasks(es, s, P.UnlockPop);
    es, s := ExtendTasks(es, s, P.StartTask);
  }

  /** The robot link connects and the worker fetches the request. */
  lemma ConnectOne(request: seq<byte>) returns (es: seq<Event>, s: State)
    ensures Reached(s, es) && s.p.worker == P.Probing(1, request) && s.p.tasks.Keys == {1}
    ensures s.p.tasks[1].state.InProgress? && s.p.tasks[1].request == request
    ensures s.l == L.State([], [], [], L.Choosing, true, true, Some(0), [L.Conn([], 0, [])], [])
  {
    hide Run, Reached, Apply;
    es, s := TakeOne(request);
    es, s := ExtendLink(es, s, L.ReadRunning);
    es, s := ExtendLink(es, s, L.Connect(true));
    es, s := ExtendTasks(es, s, P.FetchTask);
  }

  /** The task is queued on the link. */
  lemma SubmitOne(request: seq<byte>) returns (es: seq<Event>, s: State)
    ensures Reached(s, es) && s.p.worker == P.Waiting(1, 0) && s.p.tasks.Keys == {1}
    ensures s.p.tasks[1].state.InProgress? && s.p.tasks[1].request == request
    ensures s.l == L.State([request], [L.Unset], [L.Message(L.Client(0), request)], L.Choosing,
                           true, true, Some(0), [L.Conn([], 0, [])], [])
  {
    hide Run, Reached;
    es, s := ConnectOne(request);
    es, s := Extend(es, s, ReadConnected);
    es, s := Extend(es, s, Submit);
  }

  /** 90 s go by. */
  lemma SubmitAndTimeOut(request: seq<byte>) returns (es: seq<Event>, s: State)
    ensures Reached(s, es)
    ensures s.l == L.State([request], [L.Unset], [L.Message(L.Client(0), request)], L.Choosing,
                           true, true, Some(0), [L.Conn([], 0, [])], [])
    ensures 1 in s.p.tasks && s.p.tasks[1].state.Failed? && s.p.tasks[1].request == request
  {
    hide Run, Reached;
    es, s := SubmitOne(request);
    es, s := Extend(es, s, FutureTimeout);
    es, s := ExtendTasks(es, s, P.Close);
  }

  /** One way: the 90 s timeout fails the task but leaves its request in the link's queue. */
  lemma FailedTaskStillRuns(request: seq<byte>, answer: seq<byte>) returns (es: seq<Event>, s: State)
    ensures Reached(s, es)
    ensures 1 in s.p.tasks && s.p.tasks[1].state.Failed? && s.p.tasks[1].request == request
    ensures s.l.served == [L.Served(0, 0, [answer])]
    ensures |s.l.conns| == 1 && s.l.conns[0].sent == [L.Message(L.Client(0), request)]
  {
    hide Run, Reached, Apply;
    es, s := SubmitAndTimeOut(request);
    es, s := ExtendLink(es, s, L.Take);
    es, s := ExtendLink(es, s, L.Send);
    es, s := ExtendLink(es, s, L.Serve(0, [answer]));
  }

  /** Sending fails after `out` bytes and the promise is kept with the error. */
  lemma SubmitAndBreak(request: seq<byte>, out: nat) returns (es: seq<Event>, s: State)
    requires 0 < out < |request|
    ensures Reached(s, es) && s.p.worker == P.Waiting(1, 0) && s.p.tasks.Keys == {1}
    ensures s.p.tasks[1].state.InProgress? && s.p.tasks[1].request == request
    ensures s.l.promises == [L.FromLink(L.ErrorText(L.SEND_FAILED))] && s.l.served == []
    ensures s.l.conns == [L.Conn([L.Message(L.Part(Some(0)), request[..out])], 0, [])]
  {
    hide Run, Reached, Apply, L.ErrorText;
    es, s := SubmitOne(request);
    es, s := ExtendLink(es, s, L.Take);
    es, s := ExtendLink(es, s, L.SendFails(out));
    assert s.l.conns[0].sent == [L.Message(L.Part(Some(0)), request[..out])];
    es, s := ExtendLink(es, s, L.Drop);
    es, s := ExtendLink(es, s, L.Report);
  }

  /** Another: a send that fails midway has put a part of the request on the wire. */
  lemma FailedSendStillRuns(request: seq<byte>, out: nat, answer: seq<byte>) returns (es: seq<Event>, s: State)
    requires 0 < out < |request|
    ensures Reached(s, es)
    ensures 1 in s.p.tasks && s.p.tasks[1].state.Failed? && s.p.tasks[1].request == request
    ensures s.l.served == [L.Served(0, 0, [answer])]
    ensures |s.l.conns| == 1 && s.l.conns[0].sent == [L.Message(L.Part(Some(0)), request[..out])]
  {
    var error := L.ErrorText(L.SEND_FAILED);
    assert P.IsRefusal(error) by {
      assert error[..4] == Ascii("ERR:");
    }
    hide Run, Reached, L.ErrorText, P.IsRefusal;
    es, s := SubmitAndBreak(request, out);
    es, s := FailOnError(es, s, error);
    hide Apply;
    es, s := ExtendLink(es, s, L.Serve(0, [answer]));
  }

  /** The future becomes ready with an error, and the worker fails the task. */
  lemma FailOnError(es: seq<Event>, s: State, error: seq<byte>) returns (es': seq<Event>, s': State)
    requires Reached(s, es) && s.p.worker == P.Waiting(1, 0) && 1 in s.p.tasks && s.p.tasks[1].state.InProgress?
    requires s.l.promises == [L.FromLink(error)] && P.IsRefusal(error)
    ensures Reached(s', es') && s'.l == s.l
    ensures 1 in s'.p.tasks && s'.p.tasks[1].state.Failed? && s'.p.tasks[1].request == s.p.tasks[1].request
  {
    hide Run, Reached, P.IsRefusal, P.ROBOT_ERROR, L.Apply, L.Enabled;
    es', s' := Extend(es, s, FutureReady);
    assert s'.l == s.l;
    hide Apply;
    es', s' := ExtendTasks(es', s', P.Close);
  }
}
