/**
 * One turn of robot_worker_loop_ (src/server/server.cpp) on the task store's objects. What the
 * robot link does with the request comes from outside. Module Pipeline interleaves the steps of
 * such turns with the other threads.
 */
module ServerWorker {
  import opened Bytes
  import R = TaskRecord
  import P = Pipeline
  import PT = PipelineTheorems
  import PI = PipelineInvariant
  import T = Tasker

  /** is_connected says no, queue_request throws, 90 s pass, or the promise is kept. */
  datatype Exchange = Disconnected | Throws | TimesOut | Answers(value: seq<byte>)

  /** The record of a task after its turn, started at one time and finished at another. */
  function Served(task: R.Task, x: Exchange, start: int, end: int): R.Task {
    var begun := R.Started(task, start);
    match x
    case Throws => begun
    case Disconnected => R.Ended(begun, R.Failed, end).(response := P.DISCONNECTED)
    case TimesOut => R.Ended(begun, R.Failed, end).(response := P.DISCONNECTED)
    case Answers(value) =>
      if P.IsRefusal(value)
      then R.Ended(begun, R.Failed, end).(response := P.ROBOT_ERROR + value)
      else R.Ended(begun, R.Completed, end).(response := value)
  }

  function AfterTurn(m: R.Table, id: nat, x: Exchange, start: int, end: int): R.Table {
    if id in m then m[id := Served(m[id], x, start, end)] else m
  }

  datatype Turned = Again | Ended | Terminated

  class Worker {
    const tasker: T.Tasker

    constructor (tasker: T.Tasker)
      ensures this.tasker == tasker
    {
      this.tasker := tasker;
    }

    /** A turn whose wait is over: one id leaves the queue and only that task's record changes. */
    method Turn(x: Exchange, start: int, end: int) returns (r: Turned)
      requires tasker.Valid() && (tasker.queue != [] || tasker.shutdown)
      modifies tasker`queue, tasker.tasks.Values
      ensures tasker.Valid() && tasker.tasks == old(tasker.tasks)
      ensures if old(tasker.queue) == [] then
                r == Ended && tasker.queue == [] && tasker.View() == old(tasker.View())
              else
                && tasker.queue == old(tasker.queue)[1..]
                && tasker.View() == AfterTurn(old(tasker.View()), old(tasker.queue)[0], x, start, end)
                && r == (if x.Throws? && old(tasker.queue)[0] in tasker.tasks then Terminated else Again)
    {
      hide AfterTurn;
      var next := tasker.WaitForNextTask();
      if next.None? {
        return Ended;
      }
      assert tasker.View() == old(tasker.View());
      r := Serve(next.value, x, start, end);
    }

    method Serve(id: nat, x: Exchange, start: int, end: int) returns (r: Turned)
      requires tasker.Valid()
      modifies tasker.tasks.Values
      ensures tasker.Valid() && tasker.tasks == old(tasker.tasks)
      ensures tasker.View() == AfterTurn(old(tasker.View()), id, x, start, end)
      ensures r == if x.Throws? && id in tasker.tasks then Terminated else Again
    {
      ghost var before := tasker.View();
      StartThenFinish(before, id, x, start, end);
      hide R.Start, R.Finish, AfterTurn, P.DISCONNECTED, P.ROBOT_ERROR;
      var found := tasker.StartTask(id, start);
      if !found {
        return Again;
      }
      var task := tasker.GetTask(id);
      if task == null {
        return Again;
      }
      if x.Throws? {
        return Terminated;
      }
      if x.Answers? && P.IsRefusal(x.value) {
        var failed := tasker.FailTask(id, P.ROBOT_ERROR + x.value, end);
      } else if x.Answers? {
        var completed := tasker.CompleteTask(id, x.value, end);
      } else {
        var failed := tasker.FailTask(id, P.DISCONNECTED, end);
      }
      return Again;
    }
  }

  /** A turn's effect on the table is startTask followed by completeTask or failTask. */
  lemma StartThenFinish(m: R.Table, id: nat, x: Exchange, start: int, end: int)
    ensures AfterTurn(m, id, x, start, end) ==
            if id !in m || x.Throws? then R.Start(m, id, start)
            else if x.Answers? && P.IsRefusal(x.value) then
              R.Finish(R.Start(m, id, start), id, R.Failed, P.ROBOT_ERROR + x.value, end)
            else if x.Answers? then R.Finish(R.Start(m, id, start), id, R.Completed, x.value, end)
            else R.Finish(R.Start(m, id, start), id, R.Failed, P.DISCONNECTED, end)
  {
    hide R.Started, R.Ended, P.IsRefusal, P.DISCONNECTED, P.ROBOT_ERROR;
  }

  lemma Then(s: P.State, es: seq<P.Event>, u: P.State, e: P.Event) returns (es': seq<P.Event>, u': P.State)
    requires P.Run(s, es) == Some(u) && P.Enabled(u, e)
    ensures es' == es + [e] && u' == P.Apply(u, e) && P.Run(s, es') == Some(u')
  {
    hide P.Apply, P.Enabled;
    PT.RunAppend(s, es, [e]);
    assert [e][1..] == [];
    es', u' := es + [e], P.Apply(u, e);
  }

  lemma PopSteps(s: P.State)
    ensures s.worker.AtTop? && s.running ==>
              P.Enabled(s, P.ReadRunning) && P.Apply(s, P.ReadRunning) == s.(worker := P.Entering)
    ensures s.worker.Entering? && s.mutex.Nobody? ==>
              P.Enabled(s, P.LockQueue) && P.Apply(s, P.LockQueue) == s.(mutex := P.ByWorker, worker := P.Testing)
    ensures s.worker.Testing? && s.queue != [] ==>
              P.Enabled(s, P.Test) && P.Apply(s, P.Test) == s.(worker := P.Popping)
    ensures s.worker.Popping? && s.queue != [] ==>
              && P.Enabled(s, P.Pop)
              && P.Apply(s, P.Pop) == s.(worker := P.Popped(Some(s.queue[0])), queue := s.queue[1..])
    ensures s.worker.Popped? && s.worker.next.Some? ==>
              && P.Enabled(s, P.UnlockPop)
              && P.Apply(s, P.UnlockPop) == s.(mutex := P.Nobody, worker := P.Taken(s.worker.next.value))
  {
  }

  /** From the top of the loop to the id in hand. */
  lemma PopIsARun(s: P.State) returns (es: seq<P.Event>, t: P.State)
    requires s.worker.AtTop? && s.running && s.mutex.Nobody? && s.queue != []
    ensures P.Run(s, es) == Some(t)
    ensures t == s.(worker := P.Taken(s.queue[0]), queue := s.queue[1..])
  {
    assert P.Run(s, []) == Some(s);
    hide P.Run, P.Apply, P.Enabled;
    PopSteps(s);
    es, t := Then(s, [], s, P.ReadRunning);
    PopSteps(t);
    es, t := Then(s, es, t, P.LockQueue);
    PopSteps(t);
    es, t := Then(s, es, t, P.Test);
    PopSteps(t);
    es, t := Then(s, es, t, P.Pop);
    PopSteps(t);
    es, t := Then(s, es, t, P.UnlockPop);
  }

  lemma FetchSteps(s: P.State)
    requires s.worker.Taken? && s.worker.id in s.tasks
    ensures P.Run(s, [P.StartTask, P.FetchTask]).Some?
    ensures
      var t, id := P.Run(s, [P.StartTask, P.FetchTask]).value, s.worker.id;
      && t.queue == s.queue && t.clock == s.clock
      && t.tasks == s.tasks[id := R.Started(s.tasks[id], s.clock)]
      && t.worker == P.Probing(id, t.tasks[id].request)
  {
    hide R.Started, P.Judge;
    assert [P.StartTask, P.FetchTask][1..] == [P.FetchTask] && [P.FetchTask][1..] == [];
  }

  lemma CloseSteps(s: P.State, elapsed: nat)
    ensures var t := P.Apply(s, P.Tick(elapsed)); P.Enabled(s, P.Tick(elapsed)) && t == s.(clock := s.clock + elapsed)
    ensures s.worker.Closing? && s.worker.id in s.tasks ==>
              var w, t := s.worker, P.Apply(s, P.Close);
              && P.Enabled(s, P.Close) && t.queue == s.queue && t.worker.AtTop?
              && t.tasks == s.tasks[w.id := R.Ended(s.tasks[w.id], if w.ok then R.Completed else R.Failed, s.clock)
                                             .(response := w.response)]
  {
    hide R.Ended, P.Judge;
  }

  lemma AskSteps(s: P.State, x: Exchange, ticket: nat) returns (es: seq<P.Event>, t: P.State)
    requires s.worker.Probing?
    ensures P.Run(s, es) == Some(t) && t == s.(worker := t.worker)
    ensures t.worker == match x
      case Throws => P.Aborted(s.worker.id)
      case Disconnected => P.Closing(s.worker.id, false, P.DISCONNECTED, P.Unsent)
      case TimesOut => P.Closing(s.worker.id, false, P.DISCONNECTED, P.Unanswered(ticket))
      case Answers(value) => P.Judge(s.worker.id, ticket, value)
  {
    assert P.Run(s, []) == Some(s);
    hide P.Run, P.Judge, P.DISCONNECTED, R.Insert, R.Start, R.Finish, R.Remove, R.Sweep, R.Sweepable;
    es, t := Then(s, [], s, P.ReadConnected(!x.Disconnected?));
    if x.Throws? {
      es, t := Then(s, es, t, P.SubmitThrows);
    } else if !x.Disconnected? {
      es, t := Then(s, es, t, P.Submit(ticket));
      es, t := Then(s, es, t, if x.TimesOut? then P.TimeOut else P.Answer(x.value));
    }
  }

  /** From the id in hand back to the top of the loop. */
  lemma ServeIsARun(s: P.State, x: Exchange, ticket: nat, elapsed: nat) returns (es: seq<P.Event>, t: P.State)
    requires s.worker.Taken? && s.worker.id in s.tasks
    ensures P.Run(s, es) == Some(t) && t.queue == s.queue
    ensures t.tasks == AfterTurn(s.tasks, s.worker.id, x, s.clock, s.clock + elapsed)
    ensures t.worker == if x.Throws? then P.Aborted(s.worker.id) else P.AtTop
  {
    hide P.Run, P.Apply, P.Enabled, R.Started, R.Ended, P.IsRefusal, P.DISCONNECTED, P.ROBOT_ERROR;
    FetchSteps(s);
    es := [P.StartTask, P.FetchTask];
    t := P.Run(s, es).value;
    var more, u := AskSteps(t, x, ticket);
    PT.RunAppend(s, es, more);
    es, t := es + more, u;
    CloseSteps(t, elapsed);
    es, t := Then(s, es, t, P.Tick(elapsed));
    if !x.Throws? {
      CloseSteps(t, 0);
      es, t := Then(s, es, t, P.Close);
    }
  }

  /**
   * A turn of the object, whatever its exchange comes to, is a run of the transition system
   * with the same table and queue afterwards, from every reachable state with work queued.
   */
  lemma TurnIsARun(s: P.State, past: seq<P.Event>, x: Exchange, ticket: nat, elapsed: nat)
      returns (es: seq<P.Event>, t: P.State)
    requires PT.Reached(s, past) && s.worker.AtTop? && s.running && s.mutex.Nobody? && s.queue != []
    ensures P.Run(s, es) == Some(t) && t.queue == s.queue[1..]
    ensures t.tasks == AfterTurn(s.tasks, s.queue[0], x, s.clock, s.clock + elapsed)
    ensures t.worker == if x.Throws? then P.Aborted(s.queue[0]) else P.AtTop
  {
    hide *;
    PT.ReachedInv(s, past);
    QueuedHasTask(s);
    var u: P.State;
    es, u := PopIsARun(s);
    var more, v := ServeIsARun(u, x, ticket, elapsed);
    PT.RunAppend(s, es, more);
    es, t := es + more, v;
  }

  lemma QueuedHasTask(s: P.State)
    requires PI.Inv(s) && s.queue != []
    ensures s.queue[0] in s.tasks
  {
  }
}
