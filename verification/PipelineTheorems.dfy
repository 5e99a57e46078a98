/** What holds in every state the task pipeline can reach, whatever the interleaving. */
module PipelineTheorems {
  import opened Bytes
  import opened TaskRecord
  import opened Pipeline
  import opened PipelineInvariant

  ghost predicate Reached(s: State, es: seq<Event>) {
    Run(INIT, es) == Some(s)
  }

  lemma {:induction false} RunInv(s: State, es: seq<Event>)
    requires Inv(s) && Run(s, es).Some?
    ensures Inv(Run(s, es).value)
    decreases |es|
  {
    hide Apply, Inv;
    if es != [] {
      StepInv(s, es[0]);
      RunInv(Apply(s, es[0]), es[1..]);
    }
  }

  lemma ReachedInv(s: State, es: seq<Event>)
    requires Reached(s, es)
    ensures Inv(s)
  {
    hide Inv;
    InitInv();
    RunInv(INIT, es);
  }

  lemma {:induction false} RunAppend(s: State, a: seq<Event>, b: seq<Event>)
    requires Run(s, a).Some?
    ensures Run(s, a + b) == Run(Run(s, a).value, b)
    decreases |a|
  {
    hide Apply;
    if a == [] {
      assert a + b == b;
    } else {
      assert (a + b)[1..] == a[1..] + b;
      RunAppend(Apply(s, a[0]), a[1..], b);
    }
  }

  // ----- waking the worker -----

  /**
   * No lost wakeup: a worker asleep in waitForNextTask has nothing to do, or the thread that
   * changed the queue or the shutdown flag still has its notify call ahead of it.
   */
  lemma NoLostWakeup(s: State, es: seq<Event>)
    requires Reached(s, es) && s.worker.Asleep?
    ensures !WaitOver(s) || OwesNotify(s.requester, s.stopper)
  {
    ReachedInv(s, es);
  }

  /** The front of an empty queue is never read, and no id means shutdown. */
  lemma PopIsSafe(s: State, es: seq<Event>)
    requires Reached(s, es)
    ensures s.worker.Popping? && !s.shutdown ==> s.queue != []
    ensures s.worker.Popped? && s.worker.next.None? ==> s.shutdown
  {
    ReachedInv(s, es);
  }

  predicate InWait(w: Worker) {
    w.Entering? || w.Woken? || w.Testing? || w.Popping? || w.Asleep?
  }

  /** Id h is at the front of the queue of a waiting worker, or already in its hands. */
  predicate Coming(s: State, h: nat) {
    || (InWait(s.worker) && s.queue != [] && s.queue[0] == h)
    || s.worker == Popped(Some(h))
    || s.worker == Taken(h)
  }

  /** A step of the worker; or, while it sleeps, one that brings a thread closer to the notify call it owes. */
  predicate Counts(s: State, e: Event) {
    || e.LockQueue? || e.Relock? || e.Test? || e.Pop? || e.UnlockPop? || e.SpuriousWake?
    || (s.worker.Asleep?
        && (e.Push? || e.UnlockPush? || e.NotifyOne? || e.SetShutdown? || e.UnlockStop? || e.NotifyAll?))
  }

  /** How many such steps a run takes. */
  function CountedSteps(s: State, es: seq<Event>): nat
    decreases |es|
  {
    if es == [] || !Enabled(s, es[0]) then 0
    else (if Counts(s, es[0]) then 1 else 0) + CountedSteps(Apply(s, es[0]), es[1..])
  }

  /** At some point of the run the worker has id h in its hands, about to start it. */
  ghost predicate TakenIn(s: State, es: seq<Event>, h: nat)
    decreases |es|
  {
    || s.worker == Taken(h)
    || (es != [] && Enabled(s, es[0]) && TakenIn(Apply(s, es[0]), es[1..], h))
  }

  /** Most counted steps that can come before h is taken. */
  function Distance(s: State): nat {
    (if s.worker.Asleep? then
       (match s.requester case Pushed(_) => 2 case Notifying(_) => 1 case _ => 3)
       + (match s.stopper case ShutdownSet => 2 case StopNotifying => 1 case Stopped => 0 case _ => 3)
     else 0)
    + (match s.worker
       case Asleep => 5 case Entering => 4 case Woken => 4 case Testing => 3 case Popping => 2
       case Popped(_) => 1 case _ => 0)
  }

  lemma TowardsTaken(s: State, e: Event, h: nat)
    requires MonitorInv(s) && Coming(s, h) && !s.worker.Taken? && Enabled(s, e)
    ensures
      var t := Apply(s, e);
      Coming(t, h) && Distance(t) + (if Counts(s, e) then 1 else 0) <= Distance(s)
  {
    if InWaiting(e) {
      TowardsByWorker(s, e, h);
    } else {
      TowardsByOthers(s, e, h);
    }
  }

  lemma TowardsByWorker(s: State, e: Event, h: nat)
    requires MonitorInv(s) && Coming(s, h) && !s.worker.Taken? && Enabled(s, e) && InWaiting(e)
    ensures
      var t := Apply(s, e);
      Coming(t, h) && Distance(t) + (if Counts(s, e) then 1 else 0) <= Distance(s)
  {
    WaitFrame(s, e);
    hide Judge, Insert, Start, Finish, Remove, Sweep, Sweepable;
  }

  lemma TowardsByOthers(s: State, e: Event, h: nat)
    requires MonitorInv(s) && Coming(s, h) && !s.worker.Taken? && Enabled(s, e) && !InWaiting(e)
    ensures
      var t := Apply(s, e);
      Coming(t, h) && Distance(t) + (if Counts(s, e) then 1 else 0) <= Distance(s)
  {
    hide Judge, Insert, Start, Finish, Remove, Sweep, Sweepable;
  }

  lemma {:induction false} TakenInTime(s: State, es: seq<Event>, h: nat)
    requires MonitorInv(s) && Coming(s, h) && Run(s, es).Some? && CountedSteps(s, es) >= Distance(s)
    ensures TakenIn(s, es, h)
    decreases |es|
  {
    if !s.worker.Taken? {
      NotTakenYet(s);
      TowardsTaken(s, es[0], h);
      StepMonitor(s, es[0]);
      hide Apply, Enabled, MonitorInv, Coming, Counts, Distance;
      TakenInTime(Apply(s, es[0]), es[1..], h);
    }
  }

  lemma NotTakenYet(s: State)
    requires InWait(s.worker) || s.worker.Popped?
    ensures Distance(s) >= 1
  {
  }

  /**
   * A queued task is never stuck. From every reachable state with the worker in its wait, every
   * run in which the worker, and while it sleeps the threads that owe it a notify call, take
   * eleven steps brings the front id to the worker, whatever else happens in the run.
   */
  lemma QueuedIsServed(s: State, past: seq<Event>, es: seq<Event>)
    requires Reached(s, past) && InWait(s.worker) && s.queue != []
    requires Run(s, es).Some? && CountedSteps(s, es) >= 11
    ensures TakenIn(s, es, s.queue[0])
  {
    ReachedInv(s, past);
    assert Distance(s) <= 11;
    hide Inv;
    TakenInTime(s, es, s.queue[0]);
  }

  /** The next of these steps: the worker's, or while it sleeps that of a thread that owes it the call. */
  function OwedStep(s: State): Event {
    match s.worker
    case Asleep =>
      if s.requester.Pushed? then UnlockPush else if s.requester.Notifying? then NotifyOne
      else if s.stopper.ShutdownSet? then UnlockStop else NotifyAll
    case Entering => LockQueue
    case Woken => Relock
    case Testing => Test
    case Popping => Pop
    case _ => UnlockPop
  }

  /**
   * Until the front id is taken one of these steps is possible, unless another thread holds the
   * mutex the worker wants.
   */
  lemma QueuedCanProceed(s: State, past: seq<Event>, h: nat)
    requires Reached(s, past) && Coming(s, h) && !s.worker.Taken?
    ensures Counts(s, OwedStep(s)) && !OwedStep(s).SpuriousWake?
    ensures Enabled(s, OwedStep(s)) || s.mutex.ByRequester? || s.mutex.ByStopper?
  {
    ReachedInv(s, past);
    hide IdsInv, TableInv, ReportedInv;
  }

  // ----- conservation of task ids -----

  function Count(b: bool): nat {
    if b then 1 else 0
  }

  /**
   * The places an id can be: drawn but not in the table, in the table but not queued, queued,
   * held by the worker, finished in the table, erased.
   */
  function Places(s: State, id: nat): nat {
    Count(s.requester.Reserved? && s.requester.id == id)
    + Count((s.requester.Inserted? || s.requester.Pushing?) && s.requester.id == id)
    + multiset(s.queue)[id]
    + Count(!HoldOf(s.worker).Nothing? && HeldId(s.worker) == id)
    + Count(id in s.tasks && s.tasks[id].Finished())
    + s.erased[id]
  }

  lemma {:induction false} QueueCount(queue: seq<nat>, lo: int, hi: int, id: nat)
    requires QueueInv(queue, lo, hi)
    ensures multiset(queue)[id] == Count(lo < id <= hi)
  {
    if queue != [] {
      var n := |queue| - 1;
      assert queue == queue[..n] + [queue[n]];
      QueueCount(queue[..n], lo, hi - 1, id);
    }
  }

  /** Every drawn id is in exactly one place, once; no other id is anywhere. */
  lemma Conservation(s: State, es: seq<Event>, id: nat)
    requires Reached(s, es)
    ensures Places(s, id) == Count(1 <= id < s.counter)
  {
    ReachedInv(s, es);
    FinishedAreFinal(s);
    QueueCount(s.queue, PoppedCount(s.finals, HoldOf(s.worker)), LastQueued(s.counter, s.requester), id);
    hide QueueInv, StartedInv, SourcesInv, ReportedInv, MonitorInv, TimeInv, EntryInv, WaitingInv;
  }

  // ----- the worker -----

  /**
   * The results the worker ignores: startTask and getTask always find the task, the state
   * transitions are always accepted, and the request fetched is the one that was added.
   */
  lemma WorkerNeverMisses(s: State, es: seq<Event>)
    requires Reached(s, es)
    ensures s.worker.Taken? ==> s.worker.id in s.tasks && CanStart(s.tasks[s.worker.id])
    ensures s.worker.Fetching? || s.worker.Closing? ==> s.worker.id in s.tasks && CanFinish(s.tasks[s.worker.id])
    ensures s.worker.Probing? || s.worker.Submitting? ==>
              1 <= s.worker.id <= |s.requests| && s.worker.request == s.requests[s.worker.id - 1]
  {
    ReachedInv(s, es);
  }

  /**
   * First in, first out: tasks are started and closed in the order of their ids without a
   * gap, at most one is in progress, every entry below the worker's id is finished and every
   * entry above it is pending.
   */
  lemma Fifo(s: State, es: seq<Event>)
    requires Reached(s, es)
    ensures forall i | 0 <= i < |s.started| :: s.started[i] == i + 1
    ensures forall i | 0 <= i < |s.finals| :: s.finals[i].task.id == i + 1
    ensures |s.finals| <= |s.started| <= |s.finals| + 1
    ensures forall a, b |
              a in s.tasks && b in s.tasks && s.tasks[a].state.InProgress? && s.tasks[b].state.InProgress? :: a == b
    ensures forall id | id in s.tasks && !HoldOf(s.worker).Nothing? ::
              && (id < HeldId(s.worker) ==> s.tasks[id].Finished())
              && (id > HeldId(s.worker) ==> s.tasks[id].state.Pending?)
  {
    ReachedInv(s, es);
    FinishedAreFinal(s);
    hide QueueInv, SourcesInv, ReportedInv, MonitorInv, TimeInv, ErasedInv;
  }

  /** A finished entry is never written again: each later step keeps it as it is or erases it. */
  lemma ResponseWrittenOnce(s: State, es: seq<Event>, e: Event, id: nat)
    requires Reached(s, es) && Enabled(s, e)
    requires id in s.tasks && s.tasks[id].Finished()
    ensures var t := Apply(s, e); id in t.tasks ==> t.tasks[id] == s.tasks[id]
  {
    ReachedInv(s, es);
    FinishedAreFinal(s);
    if e.Close? {
      ClosedIsNext(s);
      TableSteps(s, e);
    } else {
      FinalsUntouched(s, e);
    }
    hide Apply, Inv, Reached;
  }

  // ----- CHECK_TASK -----

  /**
   * CHECK_TASK decides on a copy and erases later. The copy is the task's final record, what
   * the removal erases is still that record, and no result is reported as finished twice.
   */
  lemma CheckTaskSafe(s: State, es: seq<Event>)
    requires Reached(s, es)
    ensures s.requester.Reported? ==>
              var id := s.requester.id;
              && 1 <= id <= |s.finals|
              && s.requester.snapshot == s.finals[id - 1].task
              && (id in s.tasks ==> s.tasks[id] == s.requester.snapshot)
    ensures forall i, j | 0 <= i < j < |s.reported| :: s.reported[i] != s.reported[j]
  {
    ReachedInv(s, es);
  }

  /** No step of any thread erases a task that is not finished. */
  lemma UnfinishedNeverErased(s: State, es: seq<Event>, e: Event, id: nat)
    requires Reached(s, es) && Enabled(s, e)
    requires id in s.tasks && !s.tasks[id].Finished()
    ensures id in Apply(s, e).tasks
  {
    ReachedInv(s, es);
    if e.SweepTasks? || e.RemoveReported? {
      ErasingKeepsPending(s, e);
    } else {
      OthersUntouched(s, e);
    }
    hide Apply, Inv, Reached;
  }

  // ----- time -----

  /** Created <= started <= ended under the steady clock, so the reported times are ordered. */
  lemma ReportedTimes(s: State, es: seq<Event>, id: nat)
    requires Reached(s, es) && id in s.tasks
    ensures Timely(s.tasks[id], s.clock)
    ensures 0 <= ExecutionTime(s.tasks[id]) <= Latency(s.tasks[id])
  {
    ReachedInv(s, es);
    TimesOrdered(s.tasks[id], s.clock);
  }

  /**
   * Every step stamps a task with the clock of that moment and no other time: at insertion,
   * start and close.
   */
  lemma TimesStamped(s: State, es: seq<Event>, e: Event, id: nat)
    requires Reached(s, es) && Enabled(s, e) && id in Apply(s, e).tasks
    ensures
      var t := Apply(s, e).tasks[id];
      if id !in s.tasks then t == Task(id, Pending, t.request, s.clock, 0, 0, [])
      else
        var was := s.tasks[id];
        && t.id == was.id && t.request == was.request && t.created == was.created
        && (t.state == was.state ==> t == was)
        && (t.state != was.state && was.state.Pending? ==> t == was.(state := InProgress, started := s.clock))
        && (t.state != was.state && was.state.InProgress? ==>
              t.Finished() && t.started == was.started && t.ended == s.clock)
  {
    ReachedInv(s, es);
    StampedWhen(s, e, id);
  }

  lemma StampedWhen(s: State, e: Event, id: nat)
    requires Inv(s) && Enabled(s, e) && id in Apply(s, e).tasks
    ensures
      var t := Apply(s, e).tasks[id];
      if id !in s.tasks then t == Task(id, Pending, t.request, s.clock, 0, 0, [])
      else
        var was := s.tasks[id];
        && t.id == was.id && t.request == was.request && t.created == was.created
        && (t.state == was.state ==> t == was)
        && (t.state != was.state && was.state.Pending? ==> t == was.(state := InProgress, started := s.clock))
        && (t.state != was.state && was.state.InProgress? ==>
              t.Finished() && t.started == was.started && t.ended == s.clock)
  {
    if OnTable(e) {
      TableSteps(s, e);
      if e.Close? {
        ClosedIsNext(s);
      }
      hide Apply, Inv;
    } else {
      TableFrame(s, e);
      hide Apply, Inv;
    }
  }

  // ----- what becomes of an answer -----

  /**
   * A task ends as its exchange did: without an answer it failed with "Robot disconnected";
   * an answer that starts with ERR: or NACK fails it with "Robot error: " before the answer; any
   * other completes it with the answer itself.
   */
  lemma OutcomesJudged(s: State, es: seq<Event>, i: nat)
    requires Reached(s, es) && i < |s.finals|
    ensures
      var task, source := s.finals[i].task, s.finals[i].source;
      if !source.Answered? then task.state.Failed? && task.response == Ascii("Robot disconnected")
      else if Ascii("ERR:") <= source.value || Ascii("NACK") <= source.value
      then task.state.Failed? && task.response == Ascii("Robot error: ") + source.value
      else task.state.Completed? && task.response == source.value
  {
    ReachedInv(s, es);
    assert SourceMatches(s.finals[i]);
  }
}
