/**
 * The task store of src/server/tasker.cpp as objects: tasks change in place, the table maps ids
 * to them, the queue holds ids. Every method is one thread's view of one call; its effect on
 * the table is the matching function of module TaskRecord.
 */
module Tasker {
  import opened Bytes
  import R = TaskRecord

  class Task {
    const id: nat
    const request: seq<byte>
    var state: R.TaskState
    var created: int
    var started: int
    var ended: int
    var response: seq<byte>

    function Record(): R.Task
      reads this
    {
      R.Task(id, state, request, created, started, ended, response)
    }

    constructor (id: nat, request: seq<byte>, now: int)
      ensures Record() == R.NewTask(id, request, now)
    {
      this.id := id;
      this.request := request;
      state := R.Pending;
      created, started, ended := now, 0, 0;
      response := [];
    }

    constructor Copy(other: Task)
      ensures Record() == other.Record()
    {
      id := other.id;
      request := other.request;
      state := other.state;
      created, started, ended := other.created, other.started, other.ended;
      response := other.response;
    }

    method MarkStarted(now: int) returns (ok: bool)
      modifies this
      ensures ok == R.CanStart(old(Record()))
      ensures Record() == R.Started(old(Record()), now)
    {
      if state != R.Pending {
        return false;
      }
      state := R.InProgress;
      started := now;
      return true;
    }

    method MarkCompleted(now: int) returns (ok: bool)
      modifies this
      ensures ok == R.CanFinish(old(Record()))
      ensures Record() == R.Ended(old(Record()), R.Completed, now)
    {
      if state != R.InProgress {
        return false;
      }
      state := R.Completed;
      ended := now;
      return true;
    }

    method MarkFailed(now: int) returns (ok: bool)
      modifies this
      ensures ok == R.CanFinish(old(Record()))
      ensures Record() == R.Ended(old(Record()), R.Failed, now)
    {
      if state != R.InProgress {
        return false;
      }
      state := R.Failed;
      ended := now;
      return true;
    }

    method SetResponse(response: seq<byte>) returns (ok: bool)
      modifies this
      ensures ok && Record() == old(Record()).(response := response)
    {
      this.response := response;
      return true;
    }

    /** The caller's timeout counts here: 300 s is only its default. */
    method IsExpired(timeout: int, now: int) returns (r: bool)
      ensures r == R.Expired(Record(), timeout, now)
    {
      if state == R.Pending || state == R.InProgress {
        return false;
      }
      return R.Seconds(now - ended) >= timeout;
    }
  }

  predicate Old(task: Task, now: int)
    reads task
  {
    R.Expired(task.Record(), R.EXPIRATION, now)
  }

  class Tasker {
    var counter: nat
    var tasks: map<nat, Task>
    var queue: seq<nat>
    var shutdown: bool

    /** No two ids share a task object, and ids are drawn from the counter. */
    ghost predicate Valid()
      reads this
    {
      && (forall a, b | a in tasks && b in tasks && tasks[a] == tasks[b] :: a == b)
      && (forall id | id in tasks :: id < counter)
    }

    ghost function View(): R.Table
      reads this, tasks.Values
    {
      map id | id in tasks :: tasks[id].Record()
    }

    constructor ()
      ensures Valid() && View() == map[] && queue == [] && counter == 1 && !shutdown
    {
      counter := 1;
      tasks := map[];
      queue := [];
      shutdown := false;
    }

    /** A new id, its pending task in the table, and the id at the end of the queue. */
    method AddTask(request: seq<byte>, now: int) returns (id: nat)
      requires Valid()
      modifies this
      ensures Valid() && fresh(tasks.Values - old(tasks.Values))
      ensures id == old(counter) && counter == id + 1
      ensures View() == R.Insert(old(View()), id, request, now) && id !in old(View())
      ensures queue == old(queue) + [id] && shutdown == old(shutdown)
    {
      id := counter;
      counter := counter + 1;
      var task := new Task(id, request, now);
      tasks := tasks[id := task];
      queue := queue + [id];
    }

    /** A copy, so that later changes of the stored task do not show in it. */
    method GetTask(id: nat) returns (task: Task?)
      requires Valid()
      ensures task == null <==> id !in tasks
      ensures task != null ==> fresh(task) && task.Record() == View()[id]
    {
      if id !in tasks {
        return null;
      }
      task := new Task.Copy(tasks[id]);
    }

    method StartTask(id: nat, now: int) returns (found: bool)
      requires Valid()
      modifies tasks.Values
      ensures found == (id in old(View())) && tasks == old(tasks) && Valid()
      ensures View() == R.Start(old(View()), id, now)
    {
      if id !in tasks {
        return false;
      }
      var marked := tasks[id].MarkStarted(now);
      return true;
    }

    method CompleteTask(id: nat, response: seq<byte>, now: int) returns (found: bool)
      requires Valid()
      modifies tasks.Values
      ensures found == (id in old(View())) && tasks == old(tasks) && Valid()
      ensures View() == R.Finish(old(View()), id, R.Completed, response, now)
    {
      if id !in tasks {
        return false;
      }
      var marked := tasks[id].MarkCompleted(now);
      var stored := tasks[id].SetResponse(response);
      return true;
    }

    method FailTask(id: nat, response: seq<byte>, now: int) returns (found: bool)
      requires Valid()
      modifies tasks.Values
      ensures found == (id in old(View())) && tasks == old(tasks) && Valid()
      ensures View() == R.Finish(old(View()), id, R.Failed, response, now)
    {
      if id !in tasks {
        return false;
      }
      var marked := tasks[id].MarkFailed(now);
      var stored := tasks[id].SetResponse(response);
      return true;
    }

    method RemoveTask(id: nat) returns (found: bool)
      requires Valid()
      modifies this`tasks
      ensures found == (id in old(View())) && Valid() && tasks == old(tasks) - {id}
      ensures View() == R.Remove(old(View()), id)
    {
      if id !in tasks {
        return false;
      }
      tasks := tasks - {id};
      return true;
    }

    /** The argument is not used: tasks expire by the default of isExpired. */
    method SweepExpiredTasks(expiration: int, now: int)
      requires Valid()
      modifies this`tasks
      ensures Valid() && tasks.Keys <= old(tasks.Keys)
      ensures View() == R.Sweep(old(View()), now)
    {
      EraseExpired(now);
      hide R.Expired;
    }

    /** Erases while iterating, in whatever order the table yields its ids. */
    method EraseExpired(now: int)
      modifies this`tasks
      ensures forall id | id in tasks :: id in old(tasks) && tasks[id] == old(tasks[id])
      ensures forall id | id in old(tasks) :: id in tasks <==> !Old(old(tasks)[id], now)
    {
      hide R.Expired;
      ghost var all := tasks;
      var todo := tasks.Keys;
      while todo != {}
        invariant todo <= all.Keys
        invariant forall id | id in tasks :: id in all && tasks[id] == all[id]
        invariant forall id | id in all :: id in tasks <==> (id in todo || !Old(all[id], now))
        decreases |todo|
      {
        var id :| id in todo;
        todo := todo - {id};
        var expired := tasks[id].IsExpired(R.EXPIRATION, now);
        if expired {
          tasks := tasks - {id};
        }
      }
    }

    /** Called once the wait is over; no id means shutdown with nothing left to do. */
    method WaitForNextTask() returns (next: Option<nat>)
      requires Valid() && (queue != [] || shutdown)
      modifies this`queue
      ensures Valid()
      ensures old(queue) == [] ==> next.None? && queue == []
      ensures old(queue) != [] ==> next == Some(old(queue)[0]) && queue == old(queue)[1..]
    {
      if shutdown && queue == [] {
        return None;
      }
      next := Some(queue[0]);
      queue := queue[1..];
    }

    method Stop()
      requires Valid()
      modifies this`shutdown
      ensures Valid() && shutdown
    {
      shutdown := true;
    }
  }

  /** What the caller of sweepExpiredTasks asks to have erased. */
  function Asked(m: R.Table, expiration: int, now: int): set<nat> {
    set id | id in m && R.Expired(m[id], expiration, now)
  }

  function Min(a: int, b: int): int {
    if a <= b then a else b
  }

  function Max(a: int, b: int): int {
    if a <= b then b else a
  }

  /**
   * On a given table the sweep does what its ignored argument asks exactly if no finished task
   * has reached the smaller of the two limits and not the larger.
   */
  lemma ArgumentHonouredExactlyIf(m: R.Table, expiration: int, now: int)
    ensures
      R.Sweepable(m, now) == Asked(m, expiration, now) <==>
      forall id | id in m && m[id].Finished() ::
        !(Min(expiration, R.EXPIRATION) <= R.Seconds(now - m[id].ended) < Max(expiration, R.EXPIRATION))
  {
    forall id | id in m && m[id].Finished()
      ensures id in R.Sweepable(m, now) <==> R.Seconds(now - m[id].ended) >= R.EXPIRATION
      ensures id in Asked(m, expiration, now) <==> R.Seconds(now - m[id].ended) >= expiration
    {
    }
  }

  /** It does so for every table at every time exactly if the argument is 300. */
  lemma ArgumentMatters(expiration: int)
    ensures (forall m: R.Table, now: int :: R.Sweepable(m, now) == Asked(m, expiration, now)) <==>
              expiration == R.EXPIRATION
  {
    var age := Min(expiration, R.EXPIRATION);
    var t := R.Task(1, R.Completed, [], 0, 0, 0, []);
    var m: R.Table := map[1 := t];
    WholeSeconds(age);
    assert R.Seconds(age * R.SECOND - m[1].ended) == age;
    ArgumentHonouredExactlyIf(m, expiration, age * R.SECOND);
  }

  lemma WholeSeconds(age: int)
    ensures R.Seconds(age * R.SECOND) == age
  {
  }
}
