/**
 * Stopping: how many more steps the worker of the task pipeline and that of the robot link take
 * once they are told to, what they still do in them, and what they leave undone.
 */
module Shutdown {
  import opened Bytes
  import R = TaskRecord
  import P = Pipeline
  import PI = PipelineInvariant
  import PT = PipelineTheorems
  import L = RobotLink
  import LT = RobotLinkTheorems

  // ----- the server's worker -----

  predicate ByWorker(e: P.Event) {
    PI.InWaiting(e) || PI.OnTask(e)
  }

  function WorkerSteps(es: seq<P.Event>): nat {
    if es == [] then 0 else (if ByWorker(es[0]) then 1 else 0) + WorkerSteps(es[1..])
  }

  /** Most steps the worker can still take once shutdown is set. */
  function ToExit(w: P.Worker): nat {
    match w
    case Asleep => 12
    case Entering => 11
    case Woken => 11
    case Testing => 10
    case Popping => 9
    case Popped(next) => if next.Some? then 8 else 1
    case Taken(_) => 7
    case Fetching(_) => 6
    case Probing(_, _) => 5
    case Submitting(_, _) => 4
    case Waiting(_, _) => 3
    case Closing(_, _, _, _) => 2
    case AtTop => 1
    case Exited => 0
    case Aborted(_) => 0
  }

  /** How many tasks the worker can still start once running_ is false. */
  function ToStart(w: P.Worker): nat {
    if PT.InWait(w) || (w.Popped? && w.next.Some?) || w.Taken? then 1 else 0
  }

  lemma FlagsStay(s: P.State, e: P.Event)
    requires P.Enabled(s, e) && !s.running
    ensures var t := P.Apply(s, e); !t.running && (s.shutdown ==> t.shutdown)
  {
    hide R.Insert, R.Start, R.Finish, R.Remove, R.Sweep, R.Sweepable, P.Judge;
  }

  lemma ExitByWaiting(s: P.State, e: P.Event)
    requires PI.MonitorInv(s) && P.Enabled(s, e) && !s.running && PI.InWaiting(e)
    ensures
      var t := P.Apply(s, e);
      && |t.started| + ToStart(t.worker) <= |s.started| + ToStart(s.worker)
      && (s.shutdown ==> ToExit(t.worker) + (if ByWorker(e) then 1 else 0) <= ToExit(s.worker))
  {
    PI.WaitFrame(s, e);
    hide R.Insert, R.Start, R.Finish, R.Remove, R.Sweep, R.Sweepable, P.IsRefusal, P.ROBOT_ERROR, P.DISCONNECTED;
  }

  lemma ExitByTask(s: P.State, e: P.Event)
    requires PI.MonitorInv(s) && P.Enabled(s, e) && !s.running && PI.OnTask(e)
    ensures
      var t := P.Apply(s, e);
      && |t.started| + ToStart(t.worker) <= |s.started| + ToStart(s.worker)
      && (s.shutdown ==> ToExit(t.worker) + (if ByWorker(e) then 1 else 0) <= ToExit(s.worker))
  {
    hide R.Insert, R.Start, R.Finish, R.Remove, R.Sweep, R.Sweepable, P.IsRefusal, P.ROBOT_ERROR,
      P.DISCONNECTED, PI.MonitorInv;
  }

  lemma ExitByOthers(s: P.State, e: P.Event)
    requires PI.MonitorInv(s) && P.Enabled(s, e) && !s.running && !ByWorker(e)
    ensures
      var t := P.Apply(s, e);
      && |t.started| + ToStart(t.worker) <= |s.started| + ToStart(s.worker)
      && (s.shutdown ==> ToExit(t.worker) + (if ByWorker(e) then 1 else 0) <= ToExit(s.worker))
  {
    PI.WorkerFrame(s, e);
    hide P.Apply, P.Enabled, PI.MonitorInv;
  }

  lemma TowardsExit(s: P.State, e: P.Event)
    requires PI.MonitorInv(s) && P.Enabled(s, e) && !s.running
    ensures
      var t := P.Apply(s, e);
      && |t.started| + ToStart(t.worker) <= |s.started| + ToStart(s.worker)
      && (s.shutdown ==> ToExit(t.worker) + (if ByWorker(e) then 1 else 0) <= ToExit(s.worker))
  {
    if PI.InWaiting(e) {
      ExitByWaiting(s, e);
    } else if PI.OnTask(e) {
      ExitByTask(s, e);
    } else {
      ExitByOthers(s, e);
    }
  }

  lemma {:induction false} ExitInTime(s: P.State, es: seq<P.Event>)
    requires PI.MonitorInv(s) && !s.running && P.Run(s, es).Some?
    ensures
      var t := P.Run(s, es).value;
      && |t.started| + ToStart(t.worker) <= |s.started| + ToStart(s.worker)
      && (s.shutdown ==> ToExit(t.worker) + WorkerSteps(es) <= ToExit(s.worker))
    decreases |es|
  {
    if es != [] {
      TowardsExit(s, es[0]);
      FlagsStay(s, es[0]);
      PI.StepMonitor(s, es[0]);
      hide P.Apply, P.Enabled, PI.MonitorInv, ToExit, ToStart, ByWorker;
      ExitInTime(P.Apply(s, es[0]), es[1..]);
    }
  }

  /**
   * From the moment shutdown is set the worker's thread ends with its next twelve steps at the
   * latest, whatever the other threads and the robot do.
   */
  lemma StopEndsWorker(s: P.State, past: seq<P.Event>, es: seq<P.Event>)
    requires PT.Reached(s, past) && s.shutdown
    requires P.Run(s, es).Some? && WorkerSteps(es) >= 12
    ensures var t := P.Run(s, es).value; t.worker.Exited? || t.worker.Aborted?
  {
    PT.ReachedInv(s, past);
    ExitInTime(s, es);
  }

  /** Once running_ is false at most one more task is started, and none by a worker with a task in its hands. */
  lemma StopStartsNothing(s: P.State, past: seq<P.Event>, es: seq<P.Event>)
    requires PT.Reached(s, past) && !s.running && P.Run(s, es).Some?
    ensures
      var t, w := P.Run(s, es).value, s.worker;
      && |t.started| <= |s.started| + 1
      && (w.AtTop? || w.Fetching? || w.Probing? || w.Submitting? || w.Waiting? || w.Closing? ==>
            |t.started| <= |s.started|)
  {
    PT.ReachedInv(s, past);
    ExitInTime(s, es);
  }

  /** A worker asleep although shutdown is set is about to be notified of it. */
  predicate NotifyComing(s: P.State) {
    s.worker.Asleep? && s.shutdown ==> s.stopper.ShutdownSet? || s.stopper.StopNotifying?
  }

  lemma StepNotify(s: P.State, e: P.Event)
    requires PI.MonitorInv(s) && NotifyComing(s) && P.Enabled(s, e)
    ensures NotifyComing(P.Apply(s, e))
  {
    hide R.Insert, R.Start, R.Finish, R.Remove, R.Sweep, R.Sweepable, P.IsRefusal, P.ROBOT_ERROR, P.DISCONNECTED;
  }

  lemma {:induction false} RunNotify(s: P.State, es: seq<P.Event>)
    requires PI.MonitorInv(s) && NotifyComing(s) && P.Run(s, es).Some?
    ensures NotifyComing(P.Run(s, es).value)
    decreases |es|
  {
    if es != [] {
      StepNotify(s, es[0]);
      PI.StepMonitor(s, es[0]);
      hide P.Apply, P.Enabled, PI.MonitorInv, NotifyComing;
      RunNotify(P.Apply(s, es[0]), es[1..]);
    }
  }

  /** The worker's next step; on the robot's answer it need not wait longer than the time limit. */
  function NextStep(w: P.Worker): P.Event
    requires !w.Asleep? && !w.Exited? && !w.Aborted?
  {
    match w
    case AtTop => P.ReadRunning
    case Entering => P.LockQueue
    case Woken => P.Relock
    case Testing => P.Test
    case Popping => P.Pop
    case Popped(_) => P.UnlockPop
    case Taken(_) => P.StartTask
    case Fetching(_) => P.FetchTask
    case Probing(_, _) => P.ReadConnected(false)
    case Submitting(_, _) => P.Submit(0)
    case Waiting(_, _) => P.TimeOut
    case Closing(_, _, _, _) => P.Close
  }

  lemma MayStep(s: P.State)
    requires PI.MonitorInv(s) && NotifyComing(s) && s.stopper.Stopped?
    ensures !s.worker.Asleep?
    ensures !s.worker.Exited? && !s.worker.Aborted? ==>
              P.Enabled(s, NextStep(s.worker)) || (s.mutex.ByRequester? && (s.worker.Entering? || s.worker.Woken?))
  {
  }

  /** Tasker::stop done, the worker is not asleep, and only a push to the queue can hold it up. */
  lemma StopCanProceed(s: P.State, past: seq<P.Event>)
    requires PT.Reached(s, past) && s.stopper.Stopped?
    ensures !s.worker.Asleep?
    ensures !s.worker.Exited? && !s.worker.Aborted? ==>
              P.Enabled(s, NextStep(s.worker)) || (s.mutex.ByRequester? && (s.worker.Entering? || s.worker.Woken?))
  {
    PT.ReachedInv(s, past);
    PI.InitInv();
    hide PI.IdsInv, PI.TableInv, PI.ReportedInv;
    RunNotify(P.INIT, past);
    hide *;
    MayStep(s);
  }

  // ----- the robot worker -----

  /** Most steps the link's worker can still take once running_ is false. */
  function ToEnd(w: L.Worker): nat {
    match w
    case Sending(_) => 5
    case Receiving(_) => 4
    case Failing(_, _) => 3
    case Resolving(_, _) => 2
    case Reporting(_, _) => 2
    case Connecting => 2
    case Choosing => 1
    case AtTop => 1
    case Ended => 0
  }

  lemma TowardsEnd(s: L.State, e: L.Event)
    requires L.Enabled(s, e) && !s.running
    ensures
      var t := L.Apply(s, e);
      && !t.running && t.queue == s.queue && t.submitted == s.submitted
      && ToEnd(t.worker) + (if LT.ByWorker(e) then 1 else 0) <= ToEnd(s.worker)
      && |t.conns| + (if t.worker.Connecting? then 1 else 0) <= |s.conns| + (if s.worker.Connecting? then 1 else 0)
  {
    hide L.ErrorText, L.Tagged, L.SetPromise;
  }

  lemma {:induction false} EndInTime(s: L.State, es: seq<L.Event>)
    requires !s.running && L.Run(s, es).Some?
    ensures
      var t := L.Run(s, es).value;
      && t.queue == s.queue && t.submitted == s.submitted
      && ToEnd(t.worker) + LT.WorkerSteps(es) <= ToEnd(s.worker)
      && |t.conns| + (if t.worker.Connecting? then 1 else 0) <= |s.conns| + (if s.worker.Connecting? then 1 else 0)
    decreases |es|
  {
    if es != [] {
      TowardsEnd(s, es[0]);
      hide L.Apply, L.Enabled, ToEnd, LT.ByWorker;
      EndInTime(L.Apply(s, es[0]), es[1..]);
    }
  }

  /**
   * Told to stop, the link's worker ends with its next five steps at the latest. It takes no
   * further request, and opens no connection unless it is at that already; the promises of the
   * requests still queued are never kept.
   */
  lemma StopEndsLink(s: L.State, past: seq<L.Event>, es: seq<L.Event>)
    requires LT.Reached(s, past) && !s.running && L.Run(s, es).Some?
    ensures
      var t := L.Run(s, es).value;
      && t.queue == s.queue && t.submitted == s.submitted
      && (LT.WorkerSteps(es) >= 5 ==> t.worker.Ended?)
      && |t.conns| <= |s.conns| + (if s.worker.Connecting? then 1 else 0)
      && forall k: nat | |s.submitted| - |s.queue| <= k < |s.submitted| :: k < |t.promises| && t.promises[k].Unset?
  {
    EndInTime(s, es);
    LT.RunAppend(L.INIT, past, es);
    var t := L.Run(s, es).value;
    LT.ReachedInv(t, past + es);
    forall k: nat | |s.submitted| - |s.queue| <= k < |s.submitted|
      ensures k < |t.promises| && t.promises[k].Unset?
    {
      LT.PromiseDiscipline(t, past + es, k);
    }
  }

  lemma ClosedStays(s: L.State, e: L.Event)
    requires s.worker.Ended? && !s.running && s.socket.None? && !s.connected && L.Enabled(s, e)
    ensures
      var t := L.Apply(s, e);
      && t.worker.Ended? && !t.running && t.socket.None? && !t.connected && t.promises == s.promises
      && |t.conns| == |s.conns| && forall c | 0 <= c < |s.conns| :: t.conns[c].sent == s.conns[c].sent
  {
    hide L.Tagged;
  }

  lemma {:induction false} ClosedRun(s: L.State, es: seq<L.Event>)
    requires s.worker.Ended? && !s.running && s.socket.None? && !s.connected && L.Run(s, es).Some?
    ensures
      var t := L.Run(s, es).value;
      && t.worker.Ended? && t.socket.None? && !t.connected && t.promises == s.promises
      && |t.conns| == |s.conns| && forall c | 0 <= c < |s.conns| :: t.conns[c].sent == s.conns[c].sent
    decreases |es|
  {
    if es != [] {
      ClosedStays(s, es[0]);
      hide L.Apply, L.Enabled;
      ClosedRun(L.Apply(s, es[0]), es[1..]);
    }
  }

  /** Once stop_session has closed the socket nothing is sent any more and no promise is kept. */
  lemma ClosedForGood(s: L.State, es: seq<L.Event>)
    requires L.Enabled(s, L.CloseSocket) && L.Run(s, [L.CloseSocket] + es).Some?
    ensures
      var t := L.Run(s, [L.CloseSocket] + es).value;
      && t.worker.Ended? && t.socket.None? && !t.connected && t.promises == s.promises
      && |t.conns| == |s.conns| && forall c | 0 <= c < |s.conns| :: t.conns[c].sent == s.conns[c].sent
  {
    assert ([L.CloseSocket] + es)[1..] == es;
    ClosedRun(L.Apply(s, L.CloseSocket), es);
  }
}
