/**
 * The life of one task as a value: what src/server/tasker.cpp stores for a task id and what
 * getTask copies out. The critical sections of the tasker on its id -> task table are given
 * here as functions of the table; module Tasker proves that the class implements them, module
 * Pipeline interleaves them.
 */
module TaskRecord {
  import opened Bytes

  datatype TaskState = Pending | InProgress | Completed | Failed

  /** Times are nanoseconds of one steady clock; an unset time point is 0. */
  datatype Task = Task(
    id: nat,
    state: TaskState,
    request: seq<byte>,
    created: int,
    started: int,
    ended: int,
    response: seq<byte>)
  {
    predicate Finished() {
      state.Completed? || state.Failed?
    }
  }

  type Table = map<nat, Task>

  const SECOND: int := 1_000_000_000
  const MILLISECOND: int := 1_000_000
  const EXPIRATION: int := 300

  function NewTask(id: nat, request: seq<byte>, now: int): Task {
    Task(id, Pending, request, now, 0, 0, [])
  }

  predicate CanStart(t: Task) {
    t.state.Pending?
  }

  predicate CanFinish(t: Task) {
    t.state.InProgress?
  }

  /** Started and Ended leave the task alone when the state does not allow the step. */
  function Started(t: Task, now: int): Task {
    if CanStart(t) then t.(state := InProgress, started := now) else t
  }

  function Ended(t: Task, outcome: TaskState, now: int): Task
    requires outcome.Completed? || outcome.Failed?
  {
    if CanFinish(t) then t.(state := outcome, ended := now) else t
  }

  /** duration_cast truncates toward zero. */
  function Milliseconds(duration: int): int {
    if duration >= 0 then duration / MILLISECOND else -(-duration / MILLISECOND)
  }

  function Seconds(duration: int): int {
    if duration >= 0 then duration / SECOND else -(-duration / SECOND)
  }

  function Latency(t: Task): int {
    if t.Finished() then Milliseconds(t.ended - t.created) else 0
  }

  function ExecutionTime(t: Task): int {
    if t.Finished() then Milliseconds(t.ended - t.started) else 0
  }

  predicate Expired(t: Task, timeout: int, now: int) {
    t.Finished() && Seconds(now - t.ended) >= timeout
  }

  // ----- critical sections on the table -----

  function Insert(m: Table, id: nat, request: seq<byte>, now: int): Table {
    if id in m then m else m[id := NewTask(id, request, now)]
  }

  function Start(m: Table, id: nat, now: int): Table {
    if id in m then m[id := Started(m[id], now)] else m
  }

  function Finish(m: Table, id: nat, outcome: TaskState, response: seq<byte>, now: int): Table
    requires outcome.Completed? || outcome.Failed?
  {
    if id in m then m[id := Ended(m[id], outcome, now).(response := response)] else m
  }

  function Remove(m: Table, id: nat): Table {
    m - {id}
  }

  function Sweepable(m: Table, now: int): set<nat> {
    set id | id in m && Expired(m[id], EXPIRATION, now)
  }

  function Sweep(m: Table, now: int): Table {
    m - Sweepable(m, now)
  }

  /**
   * What each section leaves in the table, for every table: an id that is there is not inserted
   * again; only a pending task starts and only one in progress ends, with the time of the call;
   * the response is stored in any case; no section touches another task.
   */
  lemma SectionsExact(m: Table, id: nat, request: seq<byte>, response: seq<byte>, ok: bool, now: int)
    ensures
      var inserted, begun := Insert(m, id, request, now), Start(m, id, now);
      var done := Finish(m, id, if ok then Completed else Failed, response, now);
      && (forall k | k != id :: (k in inserted <==> k in m) && (k in begun <==> k in m) && (k in done <==> k in m))
      && (forall k | k != id && k in m :: inserted[k] == m[k] && begun[k] == m[k] && done[k] == m[k])
      && (id in m ==> inserted == m)
      && (id !in m ==>
            id in inserted && inserted[id] == Task(id, Pending, request, now, 0, 0, []) && begun == m && done == m)
      && (id in m && m[id].state == Pending ==> begun[id] == m[id].(state := InProgress, started := now))
      && (id in m && m[id].state != Pending ==> begun == m)
      && (id in m && m[id].state == InProgress ==>
            done[id] == m[id].(state := if ok then Completed else Failed, ended := now, response := response))
      && (id in m && m[id].state != InProgress ==> done[id] == m[id].(response := response))
  {
  }

  // ----- time -----

  predicate Timely(t: Task, now: int) {
    match t.state
    case Pending => t.created <= now
    case InProgress => t.created <= t.started <= now
    case _ => t.created <= t.started <= t.ended <= now
  }

  /** The reported times of a task that moved through its states under a steady clock. */
  lemma TimesOrdered(t: Task, now: int)
    requires Timely(t, now)
    ensures 0 <= ExecutionTime(t) <= Latency(t)
  {
  }

  /** A duration in milliseconds or seconds is the whole part of it, toward zero. */
  lemma DurationsTruncate(d: int)
    ensures d >= 0 ==> 1_000_000 * Milliseconds(d) <= d < 1_000_000 * (Milliseconds(d) + 1)
    ensures d >= 0 ==> 1_000_000_000 * Seconds(d) <= d < 1_000_000_000 * (Seconds(d) + 1)
    ensures Milliseconds(-d) == -Milliseconds(d) && Seconds(-d) == -Seconds(d)
  {
  }

  /**
   * What is reported of a finished task: the whole milliseconds from its creation to its end,
   * and from its start to its end; nothing of an unfinished one.
   */
  lemma ReportedDurations(t: Task)
    requires t.created <= t.started <= t.ended
    ensures t.Finished() ==>
              && 1_000_000 * Latency(t) <= t.ended - t.created < 1_000_000 * (Latency(t) + 1)
              && 1_000_000 * ExecutionTime(t) <= t.ended - t.started < 1_000_000 * (ExecutionTime(t) + 1)
    ensures !t.Finished() ==> Latency(t) == 0 && ExecutionTime(t) == 0
  {
    DurationsTruncate(t.ended - t.created);
    DurationsTruncate(t.ended - t.started);
  }

  /** Once a finished task is old enough to be swept, it stays so. */
  lemma ExpiryPermanent(t: Task, timeout: int, now: int, later: int)
    requires now <= later && Expired(t, timeout, now)
    ensures Expired(t, timeout, later)
  {
  }

  /**
   * The sweep erases exactly the finished tasks whose whole seconds since the end reach 300,
   * that is those that ended at least 300 s ago, in nanoseconds.
   */
  lemma SweepExact(m: Table, now: int, id: nat)
    ensures id in Sweep(m, now) <==>
              id in m && !(m[id].Finished() && now - m[id].ended >= 300_000_000_000)
    ensures id in Sweep(m, now) ==> Sweep(m, now)[id] == m[id]
  {
  }
}
