/** The whole-system invariant of the task pipeline, and that every step of every thread keeps it. */
module PipelineInvariant {
  import opened Bytes
  import opened TaskRecord
  import opened Pipeline

  // ----- what the threads hold, read off their control states -----

  /** The id addTask is working on, if any; always the last one drawn. */
  predicate Adding(r: Requester) {
    !r.Ready? && !r.Reported?
  }

  /** Ids 1..LastInserted are or were in the table, ids 1..LastQueued are or were queued. */
  function LastInserted(counter: nat, r: Requester): int {
    if r.Reserved? then counter - 2 else counter - 1
  }

  function LastQueued(counter: nat, r: Requester): int {
    if r.Reserved? || r.Inserted? || r.Pushing? then counter - 2 else counter - 1
  }

  /** How far the worker is with the task it popped. */
  datatype Hold = Nothing | Unstarted | Executing

  function HoldOf(w: Worker): Hold {
    match w
    case Popped(next) => if next.Some? then Unstarted else Nothing
    case Taken(_) => Unstarted
    case Fetching(_) => Executing
    case Probing(_, _) => Executing
    case Submitting(_, _) => Executing
    case Waiting(_, _) => Executing
    case Closing(_, _, _, _) => Executing
    case Aborted(_) => Executing
    case _ => Nothing
  }

  function HeldId(w: Worker): nat
    requires !HoldOf(w).Nothing?
  {
    if w.Popped? then w.next.value else w.id
  }

  /** Number of ids ever popped. */
  function PoppedCount(finals: seq<Final>, h: Hold): nat {
    |finals| + if h.Nothing? then 0 else 1
  }

  // ----- the invariant, one predicate for each part of the state -----

  predicate CounterInv(counter: nat, r: Requester, requests: seq<seq<byte>>) {
    && counter >= 1
    && |requests| == counter - 1
    && (Adding(r) ==> counter >= 2 && r.id == counter - 1)
    && (r.Reserved? ==> r.request == requests[counter - 2])
  }

  /** The queue is the run of consecutive ids lo + 1 .. hi. */
  ghost predicate QueueInv(queue: seq<nat>, lo: int, hi: int) {
    && |queue| == hi - lo
    && forall i | 0 <= i < |queue| :: queue[i] == lo + 1 + i
  }

  ghost predicate EntryInv(tasks: Table, requests: seq<seq<byte>>, last: int) {
    && last <= |requests|
    && forall id | id in tasks ::
         && 1 <= id <= last
         && tasks[id].id == id
         && tasks[id].request == requests[id - 1]
  }

  ghost predicate TimeInv(tasks: Table, clock: int) {
    forall id | id in tasks :: Timely(tasks[id], clock)
  }

  ghost predicate WaitingInv(tasks: Table, popped: int, last: int) {
    forall id | popped < id <= last :: id in tasks && tasks[id].state.Pending?
  }

  predicate HoldInv(tasks: Table, h: Hold, popped: nat) {
    match h
    case Nothing => true
    case Unstarted => popped in tasks && tasks[popped].state.Pending?
    case Executing => popped in tasks && tasks[popped].state.InProgress?
  }

  ghost predicate FinalsInv(tasks: Table, finals: seq<Final>) {
    forall i | 0 <= i < |finals| ::
      && finals[i].task.id == i + 1
      && finals[i].task.Finished()
      && (i + 1 in tasks ==> tasks[i + 1] == finals[i].task)
  }

  ghost predicate ErasedInv(tasks: Table, erased: multiset<nat>, n: nat) {
    && (forall id: nat | 1 <= id <= n :: erased[id] == if id in tasks then 0 else 1)
    && (forall id: nat | id == 0 || id > n :: erased[id] == 0)
  }

  ghost predicate StartedInv(started: seq<nat>, n: nat) {
    && |started| == n
    && forall i | 0 <= i < |started| :: started[i] == i + 1
  }

  ghost predicate ReportedInv(tasks: Table, finals: seq<Final>, r: Requester, reported: seq<nat>) {
    && (forall i, j | 0 <= i < j < |reported| :: reported[i] != reported[j])
    && (forall id | id in reported ::
          1 <= id <= |finals| && (id in tasks ==> r.Reported? && r.id == id))
    && (r.Reported? ==> 1 <= r.id <= |finals| && r.snapshot == finals[r.id - 1].task && r.id in reported)
  }

  predicate WorkerInv(w: Worker, popped: nat, requests: seq<seq<byte>>) {
    && (!HoldOf(w).Nothing? ==> HeldId(w) == popped)
    && (w.Probing? || w.Submitting? ==> 1 <= w.id <= |requests| && w.request == requests[w.id - 1])
    && (w.Closing? ==> w.source.Answered? ==> w == Judge(w.id, w.source.ticket, w.source.value))
    && (w.Closing? && !w.source.Answered? ==> !w.ok && w.response == DISCONNECTED)
  }

  /** Each final response is the server's reading of the answer it came from. */
  predicate SourceMatches(f: Final) {
    && (f.source.Answered? ==>
          f.task.response == Judge(f.task.id, f.source.ticket, f.source.value).response
          && f.task.state.Completed? == !IsRefusal(f.source.value))
    && (!f.source.Answered? ==> f.task.state.Failed? && f.task.response == DISCONNECTED)
  }

  ghost predicate SourcesInv(finals: seq<Final>) {
    forall i | 0 <= i < |finals| :: SourceMatches(finals[i])
  }

  /** The queue mutex is held by the thread whose control state says so. */
  predicate MutexInv(m: Owner, r: Requester, w: Worker, p: Stopper) {
    && (m.ByRequester? <==> r.Pushing? || r.Pushed?)
    && (m.ByWorker? <==> w.Testing? || w.Popping? || w.Popped?)
    && (m.ByStopper? <==> p.Stopping? || p.ShutdownSet?)
  }

  predicate StopInv(p: Stopper, running: bool, shutdown: bool) {
    && (running <==> p.Running?)
    && (shutdown <==> p.ShutdownSet? || p.StopNotifying? || p.Stopped?)
  }

  /** A thread that changed what the worker waits for and has not called notify yet. */
  predicate OwesNotify(r: Requester, p: Stopper) {
    r.Pushed? || r.Notifying? || p.ShutdownSet? || p.StopNotifying?
  }

  predicate WakeInv(queue: seq<nat>, shutdown: bool, r: Requester, w: Worker, p: Stopper) {
    && (w.Asleep? ==> (queue == [] && !shutdown) || OwesNotify(r, p))
    && (w.Popping? ==> queue != [] || shutdown)
    && (w.Popped? && w.next.None? ==> shutdown)
  }

  ghost predicate IdsInv(s: State) {
    var popped := PoppedCount(s.finals, HoldOf(s.worker));
    && CounterInv(s.counter, s.requester, s.requests)
    && QueueInv(s.queue, popped, LastQueued(s.counter, s.requester))
    && WorkerInv(s.worker, popped, s.requests)
    && StartedInv(s.started, popped - if HoldOf(s.worker).Unstarted? then 1 else 0)
  }

  ghost predicate TableInv(s: State) {
    var popped := PoppedCount(s.finals, HoldOf(s.worker));
    var last := LastInserted(s.counter, s.requester);
    && EntryInv(s.tasks, s.requests, last)
    && TimeInv(s.tasks, s.clock)
    && WaitingInv(s.tasks, popped, last)
    && HoldInv(s.tasks, HoldOf(s.worker), popped)
    && FinalsInv(s.tasks, s.finals)
    && SourcesInv(s.finals)
    && ErasedInv(s.tasks, s.erased, |s.finals|)
  }

  predicate MonitorInv(s: State) {
    && MutexInv(s.mutex, s.requester, s.worker, s.stopper)
    && StopInv(s.stopper, s.running, s.shutdown)
    && WakeInv(s.queue, s.shutdown, s.requester, s.worker, s.stopper)
  }

  ghost predicate Inv(s: State) {
    && IdsInv(s)
    && TableInv(s)
    && MonitorInv(s)
    && ReportedInv(s.tasks, s.finals, s.requester, s.reported)
  }

  // ----- preservation -----

  lemma InitInv()
    ensures Inv(INIT)
  {
    hide IdsInv, TableInv, MonitorInv, ReportedInv;
    InitIds();
    InitTable();
    InitMonitor();
    InitReported();
  }

  lemma InitIds()
    ensures IdsInv(INIT)
  {
  }

  lemma InitTable()
    ensures TableInv(INIT)
  {
  }

  lemma InitMonitor()
    ensures MonitorInv(INIT)
  {
  }

  lemma InitReported()
    ensures ReportedInv(INIT.tasks, INIT.finals, INIT.requester, INIT.reported)
  {
  }

  predicate ByRequester(e: Event) {
    || e.Reserve? || e.InsertTask? || e.LockForPush? || e.Push? || e.UnlockPush? || e.NotifyOne?
    || e.Check? || e.RemoveReported?
  }

  predicate InWaiting(e: Event) {
    e.ReadRunning? || e.LockQueue? || e.Test? || e.SpuriousWake? || e.Relock? || e.Pop? || e.UnlockPop?
  }

  predicate OnTask(e: Event) {
    || e.StartTask? || e.FetchTask? || e.ReadConnected? || e.Submit? || e.SubmitThrows?
    || e.Answer? || e.TimeOut? || e.Close?
  }

  predicate ByStopper(e: Event) {
    e.ClearRunning? || e.LockForStop? || e.SetShutdown? || e.UnlockStop? || e.NotifyAll?
  }

  lemma Agents(e: Event)
    ensures ByRequester(e) || InWaiting(e) || OnTask(e) || ByStopper(e) || e.SweepTasks? || e.Tick?
  {
  }

  /** The steps that write the table. */
  predicate OnTable(e: Event) {
    e.InsertTask? || e.RemoveReported? || e.StartTask? || e.Close? || e.SweepTasks?
  }

  /** The steps between starting a task and closing it. */
  predicate BetweenStartAndClose(e: Event) {
    e.FetchTask? || e.ReadConnected? || e.Submit? || e.SubmitThrows? || e.Answer? || e.TimeOut?
  }

  // What the steps of one thread leave alone.

  lemma RequesterFrame(s: State, e: Event)
    requires Enabled(s, e) && !ByRequester(e)
    ensures
      var t := Apply(s, e);
      t.counter == s.counter && t.requester == s.requester && t.requests == s.requests && t.reported == s.reported
  {
    hide Judge, Insert, Start, Finish, Remove, Sweep, Sweepable;
  }

  lemma WorkerFrame(s: State, e: Event)
    requires Enabled(s, e) && !InWaiting(e) && !OnTask(e)
    ensures
      var t := Apply(s, e);
      && t.finals == s.finals && t.started == s.started
      && (t.worker == s.worker || (s.worker.Asleep? && t.worker.Woken?))
  {
    hide Judge, Insert, Start, Finish, Remove, Sweep, Sweepable;
  }

  lemma WaitFrame(s: State, e: Event)
    requires Enabled(s, e) && InWaiting(e)
    ensures
      var t := Apply(s, e);
      && t.finals == s.finals && t.started == s.started && t.tasks == s.tasks && t.erased == s.erased
      && t.clock == s.clock && t.requester == s.requester
  {
    hide Judge, Insert, Start, Finish, Remove, Sweep, Sweepable;
  }

  lemma TableFrame(s: State, e: Event)
    requires Enabled(s, e) && !OnTable(e)
    ensures
      var t := Apply(s, e);
      t.tasks == s.tasks && t.erased == s.erased && t.finals == s.finals && t.started == s.started
  {
    hide Judge, Insert, Start, Finish, Remove, Sweep, Sweepable;
  }

  lemma ClockFrame(s: State, e: Event)
    requires Enabled(s, e)
    ensures var t := Apply(s, e); t.clock >= s.clock && (t.clock == s.clock || e.Tick?)
  {
    hide Judge, Insert, Start, Finish, Remove, Sweep, Sweepable;
  }

  lemma TableSteps(s: State, e: Event)
    requires Enabled(s, e) && OnTable(e)
    ensures
      var t := Apply(s, e);
      && t.clock == s.clock && t.requests == s.requests && t.counter == s.counter && t.reported == s.reported
      && (e.InsertTask? ==>
            && t.tasks == Insert(s.tasks, s.requester.id, s.requester.request, s.clock)
            && t.requester == Inserted(s.requester.id) && t.erased == s.erased)
      && (e.RemoveReported? ==>
            && t.tasks == Remove(s.tasks, s.requester.id) && t.requester.Ready?
            && t.erased == if s.requester.id in s.tasks then s.erased + multiset{s.requester.id} else s.erased)
      && (e.StartTask? && s.worker.id in s.tasks ==>
            t.tasks == Start(s.tasks, s.worker.id, s.clock) && t.erased == s.erased)
      && (e.StartTask? && s.worker.id !in s.tasks ==> t.tasks == s.tasks && t.erased == s.erased)
      && (e.Close? ==>
            && t.tasks == Finish(s.tasks, s.worker.id, if s.worker.ok then Completed else Failed,
                                 s.worker.response, s.clock)
            && t.erased == s.erased
            && t.finals == if s.worker.id in t.tasks
                           then s.finals + [Final(t.tasks[s.worker.id], s.worker.source)] else s.finals)
      && (e.SweepTasks? ==>
            && t.tasks == Sweep(s.tasks, s.clock)
            && t.erased == s.erased + multiset(Sweepable(s.tasks, s.clock)))
      && (!e.Close? ==> t.finals == s.finals)
      && (!e.InsertTask? && !e.RemoveReported? ==> t.requester == s.requester)
  {
    hide Judge, Insert, Start, Remove, Sweep, Sweepable, Ended;
  }

  // MonitorInv

  lemma StepMonitor(s: State, e: Event)
    requires MonitorInv(s) && Enabled(s, e)
    ensures MonitorInv(Apply(s, e))
  {
    hide *;
    if ByRequester(e) {
      MonitorByRequester(s, e);
    } else if InWaiting(e) {
      MonitorInWaiting(s, e);
    } else if OnTask(e) {
      MonitorOnTask(s, e);
    } else if ByStopper(e) {
      MonitorByStopper(s, e);
    } else {
      Agents(e);
      MonitorByOthers(s, e);
    }
  }

  lemma MonitorByRequester(s: State, e: Event)
    requires MonitorInv(s) && Enabled(s, e) && ByRequester(e)
    ensures MonitorInv(Apply(s, e))
  {
    hide Judge, Insert, Start, Finish, Remove, Sweep, Sweepable;
  }

  lemma MonitorInWaiting(s: State, e: Event)
    requires MonitorInv(s) && Enabled(s, e) && InWaiting(e)
    ensures MonitorInv(Apply(s, e))
  {
    hide Judge, Insert, Start, Finish, Remove, Sweep, Sweepable;
  }

  lemma MonitorOnTask(s: State, e: Event)
    requires MonitorInv(s) && Enabled(s, e) && OnTask(e)
    ensures MonitorInv(Apply(s, e))
  {
    hide IsRefusal, DISCONNECTED, ROBOT_ERROR, Insert, Start, Finish, Remove, Sweep, Sweepable;
  }

  lemma MonitorByStopper(s: State, e: Event)
    requires MonitorInv(s) && Enabled(s, e) && ByStopper(e)
    ensures MonitorInv(Apply(s, e))
  {
    hide Apply, Enabled, MutexInv, StopInv, WakeInv, ByStopper;
    StopperMutex(s, e);
    StopperStop(s, e);
    StopperWake(s, e);
  }

  lemma StopperMutex(s: State, e: Event)
    requires MutexInv(s.mutex, s.requester, s.worker, s.stopper) && Enabled(s, e) && ByStopper(e)
    ensures var t := Apply(s, e); MutexInv(t.mutex, t.requester, t.worker, t.stopper)
  {
  }

  lemma StopperStop(s: State, e: Event)
    requires StopInv(s.stopper, s.running, s.shutdown) && Enabled(s, e) && ByStopper(e)
    ensures var t := Apply(s, e); StopInv(t.stopper, t.running, t.shutdown)
  {
  }

  lemma StopperWake(s: State, e: Event)
    requires StopInv(s.stopper, s.running, s.shutdown) && WakeInv(s.queue, s.shutdown, s.requester, s.worker, s.stopper)
    requires Enabled(s, e) && ByStopper(e)
    ensures var t := Apply(s, e); WakeInv(t.queue, t.shutdown, t.requester, t.worker, t.stopper)
  {
  }

  lemma MonitorByOthers(s: State, e: Event)
    requires MonitorInv(s) && (e.SweepTasks? || e.Tick?)
    ensures MonitorInv(Apply(s, e))
  {
    var t := Apply(s, e);
    assert t.mutex == s.mutex && t.requester == s.requester && t.worker == s.worker && t.stopper == s.stopper;
    assert t.running == s.running && t.shutdown == s.shutdown && t.queue == s.queue;
    hide Apply, MutexInv, StopInv, WakeInv;
  }

  // IdsInv

  lemma StepCounter(s: State, e: Event)
    requires Enabled(s, e) && CounterInv(s.counter, s.requester, s.requests)
    ensures var t := Apply(s, e); CounterInv(t.counter, t.requester, t.requests)
  {
    if ByRequester(e) {
      hide Judge, Insert, Start, Finish, Remove, Sweep, Sweepable;
    } else {
      RequesterFrame(s, e);
    }
  }

  lemma StepWorker(s: State, e: Event)
    requires IdsInv(s) && EntryInv(s.tasks, s.requests, LastInserted(s.counter, s.requester)) && Enabled(s, e)
    requires HoldInv(s.tasks, HoldOf(s.worker), PoppedCount(s.finals, HoldOf(s.worker)))
    ensures var t := Apply(s, e); WorkerInv(t.worker, PoppedCount(t.finals, HoldOf(t.worker)), t.requests)
  {
    if InWaiting(e) {
      WorkerInWaiting(s, e);
    } else if OnTask(e) {
      WorkerOnTask(s, e);
    } else {
      WorkerFrame(s, e);
      RequestsGrow(s, e);
      hide Apply, Enabled, CounterInv, QueueInv, StartedInv, EntryInv, HoldInv, Judge;
    }
  }

  lemma RequestsGrow(s: State, e: Event)
    requires Enabled(s, e)
    ensures s.requests <= Apply(s, e).requests
  {
    if ByRequester(e) {
      hide Judge, Insert, Start, Finish, Remove, Sweep, Sweepable;
    } else {
      RequesterFrame(s, e);
    }
  }

  lemma WorkerInWaiting(s: State, e: Event)
    requires IdsInv(s) && Enabled(s, e) && InWaiting(e)
    ensures var t := Apply(s, e); WorkerInv(t.worker, PoppedCount(t.finals, HoldOf(t.worker)), t.requests)
  {
    hide CounterInv, StartedInv, Judge, Insert, Start, Finish, Remove, Sweep, Sweepable;
  }

  lemma WorkerOnTask(s: State, e: Event)
    requires IdsInv(s) && EntryInv(s.tasks, s.requests, LastInserted(s.counter, s.requester))
    requires Enabled(s, e) && OnTask(e)
    requires HoldInv(s.tasks, HoldOf(s.worker), PoppedCount(s.finals, HoldOf(s.worker)))
    ensures var t := Apply(s, e); WorkerInv(t.worker, PoppedCount(t.finals, HoldOf(t.worker)), t.requests)
  {
    if BetweenStartAndClose(e) {
      MiddleSteps(s, e);
      hide Apply, Enabled, CounterInv, QueueInv, StartedInv, Judge;
    } else {
      EndSteps(s, e);
      hide Apply, Enabled, CounterInv, QueueInv, StartedInv, Judge;
    }
  }

  /** While the worker has a task in progress only its own control state changes. */
  lemma MiddleSteps(s: State, e: Event)
    requires Enabled(s, e) && BetweenStartAndClose(e) && (e.FetchTask? ==> s.worker.id in s.tasks)
    ensures
      var t := Apply(s, e);
      && t == s.(worker := t.worker) && HoldOf(s.worker).Executing? && HoldOf(t.worker).Executing?
      && t.worker.id == s.worker.id
      && (t.worker.Probing? ==> t.worker.request == s.tasks[s.worker.id].request)
      && (t.worker.Submitting? ==> s.worker.Probing? && t.worker.request == s.worker.request)
      && (t.worker.Closing? && t.worker.source.Answered? ==>
            t.worker == Judge(t.worker.id, t.worker.source.ticket, t.worker.source.value))
      && (t.worker.Closing? && !t.worker.source.Answered? ==> !t.worker.ok && t.worker.response == DISCONNECTED)
  {
    hide IsRefusal, DISCONNECTED, ROBOT_ERROR, Insert, Start, Finish, Remove, Sweep, Sweepable;
  }

  /** Starting and closing a task the worker has. */
  lemma EndSteps(s: State, e: Event)
    requires Enabled(s, e) && (e.StartTask? || e.Close?) && s.worker.id in s.tasks
    ensures
      var t := Apply(s, e);
      && t.queue == s.queue && t.counter == s.counter && t.requester == s.requester && t.requests == s.requests
      && (e.StartTask? ==>
            && t.finals == s.finals && s.worker.Taken? && t.worker == Fetching(s.worker.id)
            && t.tasks == Start(s.tasks, s.worker.id, s.clock)
            && t.started == if CanStart(s.tasks[s.worker.id]) then s.started + [s.worker.id] else s.started)
      && (e.Close? ==> |t.finals| == |s.finals| + 1 && s.worker.Closing? && t.worker.AtTop? && t.started == s.started)
  {
    hide IsRefusal, DISCONNECTED, ROBOT_ERROR, Insert, Started, Ended, Remove, Sweep, Sweepable;
  }

  lemma StepQueue(s: State, e: Event)
    requires IdsInv(s) && HoldInv(s.tasks, HoldOf(s.worker), PoppedCount(s.finals, HoldOf(s.worker))) && Enabled(s, e)
    ensures
      var t := Apply(s, e);
      QueueInv(t.queue, PoppedCount(t.finals, HoldOf(t.worker)), LastQueued(t.counter, t.requester))
  {
    if OnTask(e) {
      PopsOnTask(s, e);
      hide Apply, Enabled, CounterInv, WorkerInv, StartedInv, HoldInv, QueueInv;
    } else if InWaiting(e) {
      QueueInWaiting(s, e);
    } else {
      QueueByOthers(s, e);
    }
  }

  /** Working on a task moves neither the queue nor the number of popped ids. */
  lemma PopsOnTask(s: State, e: Event)
    requires IdsInv(s) && HoldInv(s.tasks, HoldOf(s.worker), PoppedCount(s.finals, HoldOf(s.worker)))
    requires Enabled(s, e) && OnTask(e)
    ensures
      var t := Apply(s, e);
      && t.queue == s.queue && t.counter == s.counter && t.requester == s.requester
      && PoppedCount(t.finals, HoldOf(t.worker)) == PoppedCount(s.finals, HoldOf(s.worker))
  {
    if BetweenStartAndClose(e) {
      MiddleSteps(s, e);
      hide Apply, CounterInv, QueueInv, StartedInv, Judge;
    } else {
      EndSteps(s, e);
      hide Apply, CounterInv, QueueInv, StartedInv, Judge;
    }
  }

  lemma QueueInWaiting(s: State, e: Event)
    requires IdsInv(s) && Enabled(s, e) && InWaiting(e)
    ensures
      var t := Apply(s, e);
      QueueInv(t.queue, PoppedCount(t.finals, HoldOf(t.worker)), LastQueued(t.counter, t.requester))
  {
    hide CounterInv, StartedInv, Judge, Insert, Start, Finish, Remove, Sweep, Sweepable;
  }

  lemma QueueByOthers(s: State, e: Event)
    requires IdsInv(s) && Enabled(s, e) && !InWaiting(e) && !OnTask(e)
    ensures
      var t := Apply(s, e);
      QueueInv(t.queue, PoppedCount(t.finals, HoldOf(t.worker)), LastQueued(t.counter, t.requester))
  {
    WorkerFrame(s, e);
    hide StartedInv, Judge, Insert, Start, Finish, Remove, Sweep, Sweepable;
  }

  lemma StepStarted(s: State, e: Event)
    requires IdsInv(s) && HoldInv(s.tasks, HoldOf(s.worker), PoppedCount(s.finals, HoldOf(s.worker))) && Enabled(s, e)
    ensures
      var t := Apply(s, e);
      var h := HoldOf(t.worker);
      StartedInv(t.started, PoppedCount(t.finals, h) - if h.Unstarted? then 1 else 0)
  {
    if OnTask(e) {
      StartedOnTask(s, e);
    } else if InWaiting(e) {
      StartedInWaiting(s, e);
    } else {
      WorkerFrame(s, e);
      hide Apply, Enabled, CounterInv, WorkerInv, QueueInv, HoldInv;
    }
  }

  lemma StartedOnTask(s: State, e: Event)
    requires IdsInv(s) && HoldInv(s.tasks, HoldOf(s.worker), PoppedCount(s.finals, HoldOf(s.worker)))
    requires Enabled(s, e) && OnTask(e)
    ensures
      var t := Apply(s, e);
      var h := HoldOf(t.worker);
      StartedInv(t.started, PoppedCount(t.finals, h) - if h.Unstarted? then 1 else 0)
  {
    if BetweenStartAndClose(e) {
      MiddleSteps(s, e);
      hide Apply, CounterInv, QueueInv, Judge;
    } else {
      EndSteps(s, e);
      hide Apply, CounterInv, QueueInv, Judge;
    }
  }

  lemma StartedInWaiting(s: State, e: Event)
    requires IdsInv(s) && Enabled(s, e) && InWaiting(e)
    ensures
      var t := Apply(s, e);
      var h := HoldOf(t.worker);
      StartedInv(t.started, PoppedCount(t.finals, h) - if h.Unstarted? then 1 else 0)
  {
    hide CounterInv, QueueInv, Judge, Insert, Start, Finish, Remove, Sweep, Sweepable;
  }

  // TableInv

  /** The finished tasks in the table are those the worker has closed. */
  lemma FinishedAreFinal(s: State)
    requires Inv(s)
    ensures forall id | id in s.tasks :: s.tasks[id].Finished() <==> id <= |s.finals|
    ensures forall id | id in s.tasks :: 1 <= id < s.counter
    ensures PoppedCount(s.finals, HoldOf(s.worker)) <= LastQueued(s.counter, s.requester)
  {
    hide StartedInv, SourcesInv, ErasedInv, ReportedInv, MonitorInv, TimeInv;
    forall id | id in s.tasks
      ensures s.tasks[id].Finished() <==> id <= |s.finals|
    {
      if id <= |s.finals| {
        assert s.finals[id - 1].task == s.tasks[id];
      }
    }
  }

  /** The worker's task is in progress when it is closed, and all before it are closed. */
  lemma ClosedIsNext(s: State)
    requires Inv(s) && s.worker.Closing?
    ensures s.worker.id == |s.finals| + 1 && s.worker.id in s.tasks && s.tasks[s.worker.id].state.InProgress?
  {
    hide QueueInv, StartedInv, EntryInv, TimeInv, WaitingInv, FinalsInv, SourcesInv, ErasedInv, ReportedInv, MonitorInv;
  }

  /** Only insertion adds an entry, and no step changes an entry's id or request. */
  lemma StepContents(s: State, e: Event)
    requires Enabled(s, e)
    ensures
      var t := Apply(s, e);
      forall id | id in t.tasks ::
        || (id in s.tasks && t.tasks[id].id == s.tasks[id].id && t.tasks[id].request == s.tasks[id].request)
        || (e.InsertTask? && id == s.requester.id && t.tasks[id] == NewTask(id, s.requester.request, s.clock))
  {
    if OnTable(e) {
      TableSteps(s, e);
      hide Apply, Enabled, Expired;
    } else {
      TableFrame(s, e);
      hide Apply, Enabled;
    }
  }

  lemma StepEntry(s: State, e: Event)
    requires Enabled(s, e) && CounterInv(s.counter, s.requester, s.requests)
    requires EntryInv(s.tasks, s.requests, LastInserted(s.counter, s.requester))
    ensures var t := Apply(s, e); EntryInv(t.tasks, t.requests, LastInserted(t.counter, t.requester))
  {
    StepContents(s, e);
    InsertedGrow(s, e);
    hide Apply, Enabled;
  }

  /** Only the insertion of the reserved id raises the last id inserted. */
  lemma InsertedGrow(s: State, e: Event)
    requires Enabled(s, e) && CounterInv(s.counter, s.requester, s.requests)
    ensures
      var t := Apply(s, e);
      && s.requests <= t.requests && LastInserted(t.counter, t.requester) <= |t.requests|
      && LastInserted(t.counter, t.requester) == LastInserted(s.counter, s.requester) + (if e.InsertTask? then 1 else 0)
      && (e.InsertTask? ==>
            && s.requester.id == LastInserted(t.counter, t.requester)
            && s.requester.request == t.requests[s.requester.id - 1])
  {
    if ByRequester(e) {
      hide Judge, Insert, Start, Finish, Remove, Sweep, Sweepable;
    } else {
      RequesterFrame(s, e);
    }
  }

  lemma StepTime(s: State, e: Event)
    requires Enabled(s, e) && TimeInv(s.tasks, s.clock)
    ensures var t := Apply(s, e); TimeInv(t.tasks, t.clock)
  {
    if OnTable(e) {
      TableSteps(s, e);
      hide Apply, Enabled, Expired;
    } else {
      TableFrame(s, e);
      ClockFrame(s, e);
      hide Apply, Enabled;
    }
  }

  lemma StepWaiting(s: State, e: Event)
    requires Inv(s) && Enabled(s, e)
    ensures
      var t := Apply(s, e);
      WaitingInv(t.tasks, PoppedCount(t.finals, HoldOf(t.worker)), LastInserted(t.counter, t.requester))
  {
    BoundsMove(s, e);
    InsertedGrow(s, e);
    if e.SweepTasks? || e.RemoveReported? {
      ErasingKeepsPending(s, e);
    } else {
      OthersUntouched(s, e);
    }
    hide Apply, Enabled, IdsInv, EntryInv, FinalsInv, SourcesInv, ErasedInv, TimeInv, MonitorInv, ReportedInv, HoldInv;
  }

  /** Apart from erasures, a step touches no entry but the worker's and the one it inserts. */
  lemma OthersUntouched(s: State, e: Event)
    requires Enabled(s, e) && !e.SweepTasks? && !e.RemoveReported?
    ensures
      var t := Apply(s, e);
      && (forall id | id in s.tasks ::
            id in t.tasks && (t.tasks[id] == s.tasks[id] || (!HoldOf(s.worker).Nothing? && id == HeldId(s.worker))))
      && (e.InsertTask? ==>
            s.requester.id in t.tasks && (s.requester.id in s.tasks || t.tasks[s.requester.id].state.Pending?))
  {
    if OnTable(e) {
      TableSteps(s, e);
      hide Apply, Started, Ended;
    } else {
      TableFrame(s, e);
      hide Apply;
    }
  }

  /** The number of popped ids never falls, and the worker's id is the last of them. */
  lemma BoundsMove(s: State, e: Event)
    requires IdsInv(s) && HoldInv(s.tasks, HoldOf(s.worker), PoppedCount(s.finals, HoldOf(s.worker))) && Enabled(s, e)
    ensures
      var t := Apply(s, e);
      && PoppedCount(s.finals, HoldOf(s.worker)) <= PoppedCount(t.finals, HoldOf(t.worker))
      && (!HoldOf(s.worker).Nothing? ==> HeldId(s.worker) == PoppedCount(s.finals, HoldOf(s.worker)))
  {
    if OnTask(e) {
      PopsOnTask(s, e);
      hide Apply, Enabled, CounterInv, QueueInv, StartedInv, HoldInv;
    } else if InWaiting(e) {
      WaitFrame(s, e);
      PopsInWaiting(s, e);
      hide Apply, Enabled, CounterInv, QueueInv, StartedInv, HoldInv;
    } else {
      WorkerFrame(s, e);
      hide Apply, Enabled, CounterInv, QueueInv, StartedInv, HoldInv;
    }
  }

  lemma PopsInWaiting(s: State, e: Event)
    requires Enabled(s, e) && InWaiting(e)
    ensures !HoldOf(s.worker).Nothing? ==> !HoldOf(Apply(s, e).worker).Nothing?
  {
    hide Judge, Insert, Start, Finish, Remove, Sweep, Sweepable;
  }

  /** Pending tasks are not old, and not reported. */
  lemma ErasingKeepsPending(s: State, e: Event)
    requires Inv(s) && Enabled(s, e) && (e.SweepTasks? || e.RemoveReported?)
    ensures
      var t := Apply(s, e);
      forall id | id in s.tasks && !s.tasks[id].Finished() :: id in t.tasks && t.tasks[id] == s.tasks[id]
  {
    TableSteps(s, e);
    FinishedAreFinal(s);
    hide Apply, IdsInv, EntryInv, WaitingInv, HoldInv, FinalsInv, SourcesInv, ErasedInv, TimeInv, MonitorInv, Seconds;
  }

  lemma StepHold(s: State, e: Event)
    requires Inv(s) && Enabled(s, e)
    ensures
      var t := Apply(s, e);
      HoldInv(t.tasks, HoldOf(t.worker), PoppedCount(t.finals, HoldOf(t.worker)))
  {
    if OnTask(e) {
      HoldOnTask(s, e);
    } else if InWaiting(e) {
      HoldInWaiting(s, e);
    } else {
      HoldByOthers(s, e);
    }
  }

  lemma HoldOnTask(s: State, e: Event)
    requires Inv(s) && Enabled(s, e) && OnTask(e)
    ensures
      var t := Apply(s, e);
      HoldInv(t.tasks, HoldOf(t.worker), PoppedCount(t.finals, HoldOf(t.worker)))
  {
    if BetweenStartAndClose(e) {
      MiddleSteps(s, e);
    } else {
      EndSteps(s, e);
    }
    hide Apply, CounterInv, QueueInv, StartedInv, EntryInv, WaitingInv, FinalsInv, SourcesInv, ErasedInv, TimeInv,
      MonitorInv, ReportedInv, Judge;
  }

  lemma HoldInWaiting(s: State, e: Event)
    requires Inv(s) && Enabled(s, e) && InWaiting(e)
    ensures
      var t := Apply(s, e);
      HoldInv(t.tasks, HoldOf(t.worker), PoppedCount(t.finals, HoldOf(t.worker)))
  {
    hide StartedInv, EntryInv, FinalsInv, SourcesInv, ErasedInv, TimeInv, MonitorInv, ReportedInv,
      Judge, Insert, Start, Finish, Remove, Sweep, Sweepable;
  }

  lemma HoldByOthers(s: State, e: Event)
    requires Inv(s) && Enabled(s, e) && !OnTask(e) && !InWaiting(e)
    ensures
      var t := Apply(s, e);
      HoldInv(t.tasks, HoldOf(t.worker), PoppedCount(t.finals, HoldOf(t.worker)))
  {
    WorkerFrame(s, e);
    if e.SweepTasks? || e.RemoveReported? {
      ErasingKeepsPending(s, e);
    } else {
      InsertTouchesNothing(s, e);
    }
    hide Apply, IdsInv, EntryInv, WaitingInv, FinalsInv, SourcesInv, ErasedInv, TimeInv, MonitorInv, ReportedInv;
  }

  lemma InsertTouchesNothing(s: State, e: Event)
    requires Enabled(s, e) && !OnTask(e) && !e.SweepTasks? && !e.RemoveReported?
    ensures var t := Apply(s, e); forall id | id in s.tasks :: id in t.tasks && t.tasks[id] == s.tasks[id]
  {
    if e.InsertTask? {
      TableSteps(s, e);
      hide Apply;
    } else {
      TableFrame(s, e);
    }
  }

  lemma StepFinals(s: State, e: Event)
    requires Inv(s) && Enabled(s, e)
    ensures var t := Apply(s, e); FinalsInv(t.tasks, t.finals)
  {
    if e.Close? {
      ClosedIsNext(s);
      TableSteps(s, e);
      FinalIsRecord(s);
      hide Apply, IdsInv, WaitingInv, SourcesInv, ErasedInv, ReportedInv, MonitorInv, TimeInv, EntryInv, HoldInv, Ended;
    } else {
      FinalsUntouched(s, e);
      hide Apply, IdsInv, WaitingInv, SourcesInv, ErasedInv, ReportedInv, MonitorInv, TimeInv, EntryInv, HoldInv, Ended;
    }
  }

  /** The record the worker closes is that of its id, and finished. */
  lemma FinalIsRecord(s: State)
    requires Inv(s) && s.worker.Closing? && s.worker.id in s.tasks && s.tasks[s.worker.id].state.InProgress?
    ensures
      var r := Ended(s.tasks[s.worker.id], if s.worker.ok then Completed else Failed, s.clock);
      r.id == s.worker.id && r.Finished() && r.state == if s.worker.ok then Completed else Failed
  {
    hide IdsInv, TimeInv, WaitingInv, FinalsInv, SourcesInv, ErasedInv, ReportedInv, MonitorInv;
  }

  /** Steps other than closing a task change no finished entry, nor the list of them, and bring none back. */
  lemma FinalsUntouched(s: State, e: Event)
    requires Inv(s) && Enabled(s, e) && !e.Close?
    ensures
      var t := Apply(s, e);
      && t.finals == s.finals
      && forall id | id in t.tasks && id <= |s.finals| :: id in s.tasks && t.tasks[id] == s.tasks[id]
  {
    FinishedAreFinal(s);
    if OnTable(e) {
      TableSteps(s, e);
      if e.InsertTask? {
        InsertsLater(s);
      }
      hide Apply, QueueInv, StartedInv, WorkerInv, SourcesInv, ErasedInv, ReportedInv, MonitorInv, TimeInv, EntryInv,
        FinalsInv, Expired;
    } else {
      TableFrame(s, e);
      hide *;
    }
  }

  /** A reserved id is above all finished ones. */
  lemma InsertsLater(s: State)
    requires Inv(s) && s.requester.Reserved?
    ensures s.requester.id > |s.finals|
  {
    hide StartedInv, EntryInv, TimeInv, WaitingInv, FinalsInv, SourcesInv, ErasedInv, ReportedInv, MonitorInv, HoldInv;
  }

  lemma StepSources(s: State, e: Event)
    requires Inv(s) && Enabled(s, e)
    ensures var t := Apply(s, e); SourcesInv(t.finals)
  {
    if e.Close? {
      ClosedIsNext(s);
      TableSteps(s, e);
      FinalIsRecord(s);
      hide Apply, CounterInv, QueueInv, StartedInv, WaitingInv, FinalsInv, ErasedInv, ReportedInv, MonitorInv,
        TimeInv, EntryInv, HoldInv, Ended, IsRefusal, ROBOT_ERROR;
    } else {
      FinalsUntouched(s, e);
      hide Apply, IdsInv, WaitingInv, FinalsInv, ErasedInv, ReportedInv, MonitorInv, TimeInv, EntryInv, HoldInv;
    }
  }

  lemma StepErased(s: State, e: Event)
    requires Inv(s) && Enabled(s, e)
    ensures var t := Apply(s, e); ErasedInv(t.tasks, t.erased, |t.finals|)
  {
    if e.SweepTasks? {
      SweepErased(s);
      TableSteps(s, e);
      hide Apply, Inv, ErasedInv, Sweep, Sweepable;
    } else if OnTable(e) {
      TableErased(s, e);
    } else {
      TableFrame(s, e);
      hide Apply, IdsInv, WaitingInv, FinalsInv, ReportedInv, MonitorInv, TimeInv, EntryInv, HoldInv, SourcesInv,
        ErasedInv;
    }
  }

  lemma SweepErased(s: State)
    requires Inv(s)
    ensures ErasedInv(Sweep(s.tasks, s.clock), s.erased + multiset(Sweepable(s.tasks, s.clock)), |s.finals|)
  {
    FinishedAreFinal(s);
    hide IdsInv, EntryInv, TimeInv, WaitingInv, HoldInv, FinalsInv, SourcesInv, ReportedInv, MonitorInv, Seconds;
  }

  lemma TableErased(s: State, e: Event)
    requires Inv(s) && Enabled(s, e) && OnTable(e) && !e.SweepTasks?
    ensures var t := Apply(s, e); ErasedInv(t.tasks, t.erased, |t.finals|)
  {
    if e.RemoveReported? {
      RemovalErased(s, e);
    } else {
      EndpointsKept(s, e);
      hide Apply, IdsInv, WaitingInv, FinalsInv, MonitorInv, TimeInv, EntryInv, HoldInv, SourcesInv, ReportedInv;
    }
  }

  lemma RemovalErased(s: State, e: Event)
    requires ErasedInv(s.tasks, s.erased, |s.finals|) && ReportedInv(s.tasks, s.finals, s.requester, s.reported)
    requires Enabled(s, e) && e.RemoveReported?
    ensures var t := Apply(s, e); ErasedInv(t.tasks, t.erased, |t.finals|)
  {
    TableSteps(s, e);
    hide Apply;
  }

  /** Insertion, start and closing erase nothing; only a closed task joins the finished ones, and it is in the table. */
  lemma EndpointsKept(s: State, e: Event)
    requires Inv(s) && Enabled(s, e) && (e.InsertTask? || e.StartTask? || e.Close?)
    ensures
      var t := Apply(s, e);
      && t.erased == s.erased
      && (forall id: nat | 1 <= id <= |s.finals| :: id in t.tasks <==> id in s.tasks)
      && (t.finals == s.finals || (|t.finals| == |s.finals| + 1 && |t.finals| in t.tasks))
  {
    TableSteps(s, e);
    if e.Close? {
      ClosedIsNext(s);
    }
    if e.InsertTask? {
      InsertsLater(s);
    }
    hide Apply, IdsInv, WaitingInv, FinalsInv, MonitorInv, TimeInv, EntryInv, HoldInv, SourcesInv, ErasedInv,
      ReportedInv, Started, Ended;
  }

  lemma StepReported(s: State, e: Event)
    requires Inv(s) && Enabled(s, e)
    ensures var t := Apply(s, e); ReportedInv(t.tasks, t.finals, t.requester, t.reported)
  {
    if e.Close? {
      ClosedIsNext(s);
      RequesterFrame(s, e);
      TableSteps(s, e);
      hide Apply, IdsInv, WaitingInv, FinalsInv, SourcesInv, ErasedInv, MonitorInv, TimeInv, EntryInv, HoldInv, Ended;
    } else {
      FinalsUntouched(s, e);
      if ByRequester(e) {
        ReportedByRequester(s, e);
      } else {
        RequesterFrame(s, e);
      }
      hide Apply, IdsInv, WaitingInv, FinalsInv, SourcesInv, ErasedInv, MonitorInv, TimeInv, EntryInv, HoldInv;
    }
  }

  lemma ReportedByRequester(s: State, e: Event)
    requires Inv(s) && Enabled(s, e) && ByRequester(e)
    ensures var t := Apply(s, e); ReportedInv(t.tasks, t.finals, t.requester, t.reported)
  {
    FinalsUntouched(s, e);
    ReportSteps(s, e);
    if e.Check? && e.id in s.tasks && s.tasks[e.id].Finished() {
      FinishedAreFinal(s);
      assert s.finals[e.id - 1].task == s.tasks[e.id];
    }
    hide Apply, IdsInv, WaitingInv, FinalsInv, SourcesInv, ErasedInv, MonitorInv, TimeInv, EntryInv, HoldInv;
  }

  /** Only a check of a finished task reports it, and the removal comes next. */
  lemma ReportSteps(s: State, e: Event)
    requires Enabled(s, e) && ByRequester(e)
    ensures
      var t := Apply(s, e);
      if e.Check? && e.id in s.tasks && s.tasks[e.id].Finished() then
        && s.requester.Ready? && t.tasks == s.tasks
        && t.requester == Reported(e.id, s.tasks[e.id]) && t.reported == s.reported + [e.id]
      else
        && t.reported == s.reported && !t.requester.Reported?
        && (e.RemoveReported? ==> s.requester.Reported? && t.tasks == Remove(s.tasks, s.requester.id))
        && (!e.RemoveReported? ==> !s.requester.Reported?)
  {
    hide Judge, Insert, Start, Finish, Remove, Sweep, Sweepable;
  }

  /** Every step of every thread keeps the invariant. */
  lemma StepInv(s: State, e: Event)
    requires Inv(s) && Enabled(s, e)
    ensures Inv(Apply(s, e))
  {
    hide Apply, Enabled, CounterInv, QueueInv, WorkerInv, StartedInv, MonitorInv, ReportedInv,
      EntryInv, TimeInv, WaitingInv, HoldInv, FinalsInv, SourcesInv, ErasedInv;
    StepMonitor(s, e);
    StepCounter(s, e);
    StepWorker(s, e);
    StepQueue(s, e);
    StepStarted(s, e);
    StepEntry(s, e);
    StepTime(s, e);
    StepWaiting(s, e);
    StepHold(s, e);
    StepFinals(s, e);
    StepSources(s, e);
    StepErased(s, e);
    StepReported(s, e);
  }
}
