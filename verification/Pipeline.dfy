/**
 * The task pipeline as one concurrent transition system: the request thread (addTask and
 * CHECK_TASK), the server's robot worker loop, the sweeper and the stopping thread, around the
 * id -> task table, the id queue, the queue mutex and its condition variable. Each critical
 * section on the table, and each lock, unlock, wait and notify on the queue, is one step. What
 * the robot does with a submitted request is left open here (Submit, Answer, TimeOut); module
 * Middleware couples these steps to the robot link.
 */
module Pipeline {
  import opened Bytes
  import opened TaskRecord

  // ----- the threads -----

  datatype Owner = Nobody | ByRequester | ByWorker | ByStopper

  /** The request thread; it runs one handler at a time. */
  datatype Requester =
    | Ready
    | Reserved(id: nat, request: seq<byte>)   // id drawn from the counter
    | Inserted(id: nat)                       // task in the table
    | Pushing(id: nat)                        // holds the queue mutex, id not yet queued
    | Pushed(id: nat)                         // holds the queue mutex, id queued
    | Notifying(id: nat)                      // released the mutex, notify_one still to come
    | Reported(id: nat, snapshot: Task)       // CHECK_TASK saw a finished copy, removal to come

  datatype Worker =
    | AtTop                                   // about to read running_
    | Entering                                // about to lock the queue mutex
    | Testing                                 // holds the mutex, about to test the wait predicate
    | Asleep                                  // in the wait, mutex released
    | Woken                                   // left the wait, needs the mutex again
    | Popping                                 // holds the mutex, predicate was true
    | Popped(next: Option<nat>)               // holds the mutex, result of waitForNextTask known
    | Taken(id: nat)                          // before startTask
    | Fetching(id: nat)                       // before getTask
    | Probing(id: nat, request: seq<byte>)    // before is_connected
    | Submitting(id: nat, request: seq<byte>) // connected, before queue_request
    | Waiting(id: nat, ticket: nat)           // on the future
    | Closing(id: nat, ok: bool, response: seq<byte>, source: Source) // before complete/failTask
    | Exited
    | Aborted(id: nat)                        // queue_request threw out of the thread

  datatype Stopper = Running | Flagged | Stopping | ShutdownSet | StopNotifying | Stopped

  /** Where the response stored for a task came from. */
  datatype Source = Unsent | Unanswered(ticket: nat) | Answered(ticket: nat, value: seq<byte>)

  datatype Final = Final(task: Task, source: Source)

  datatype State = State(
    counter: nat,
    tasks: Table,
    queue: seq<nat>,
    mutex: Owner,
    shutdown: bool,
    running: bool,
    clock: int,
    requester: Requester,
    worker: Worker,
    stopper: Stopper,
    // history
    requests: seq<seq<byte>>,   // request of task i + 1
    started: seq<nat>,          // ids in the order startTask moved them on
    finals: seq<Final>,         // tasks as finished, in that order
    erased: multiset<nat>,      // ids erased from the table
    reported: seq<nat>)         // ids whose finished result CHECK_TASK returned

  datatype Event =
    // addTask
    | Reserve(request: seq<byte>) | InsertTask | LockForPush | Push | UnlockPush | NotifyOne
    // handle_check_task
    | Check(id: nat) | RemoveReported
    // robot_worker_loop_ and waitForNextTask
    | ReadRunning | LockQueue | Test | SpuriousWake | Relock | Pop | UnlockPop
    | StartTask | FetchTask | ReadConnected(connected: bool) | Submit(ticket: nat) | SubmitThrows
    | Answer(value: seq<byte>) | TimeOut | Close
    // sweeper_loop_
    | SweepTasks
    // stop
    | ClearRunning | LockForStop | SetShutdown | UnlockStop | NotifyAll
    | Tick(elapsed: nat)

  const INIT := State(1, map[], [], Nobody, false, true, 0, Ready, AtTop, Running,
                      [], [], [], multiset{}, [])

  predicate WaitOver(s: State) {
    s.queue != [] || s.shutdown
  }

  /** The server's reading of an answer: a leading ERR: or NACK makes the task a failed one. */
  predicate IsRefusal(value: seq<byte>) {
    StartsWith(value, Ascii("ERR:")) || StartsWith(value, Ascii("NACK"))
  }

  const DISCONNECTED := Ascii("Robot disconnected")
  const ROBOT_ERROR := Ascii("Robot error: ")

  function Judge(id: nat, ticket: nat, value: seq<byte>): Worker {
    if IsRefusal(value)
    then Closing(id, false, ROBOT_ERROR + value, Answered(ticket, value))
    else Closing(id, true, value, Answered(ticket, value))
  }

  predicate Enabled(s: State, e: Event) {
    match e
    case Reserve(_) => s.requester.Ready?
    case InsertTask => s.requester.Reserved?
    case LockForPush => s.requester.Inserted? && s.mutex.Nobody?
    case Push => s.requester.Pushing?
    case UnlockPush => s.requester.Pushed?
    case NotifyOne => s.requester.Notifying?
    case Check(_) => s.requester.Ready?
    case RemoveReported => s.requester.Reported?
    case ReadRunning => s.worker.AtTop?
    case LockQueue => s.worker.Entering? && s.mutex.Nobody?
    case Test => s.worker.Testing?
    case SpuriousWake => s.worker.Asleep?
    case Relock => s.worker.Woken? && s.mutex.Nobody?
    case Pop => s.worker.Popping?
    case UnlockPop => s.worker.Popped?
    case StartTask => s.worker.Taken?
    case FetchTask => s.worker.Fetching?
    case ReadConnected(_) => s.worker.Probing?
    case Submit(_) => s.worker.Submitting?
    case SubmitThrows => s.worker.Submitting?
    case Answer(_) => s.worker.Waiting?
    case TimeOut => s.worker.Waiting?
    case Close => s.worker.Closing?
    case SweepTasks => true
    case ClearRunning => s.stopper.Running?
    case LockForStop => s.stopper.Flagged? && s.mutex.Nobody?
    case SetShutdown => s.stopper.Stopping?
    case UnlockStop => s.stopper.ShutdownSet?
    case NotifyAll => s.stopper.StopNotifying?
    case Tick(_) => true
  }

  function Awaken(w: Worker): Worker {
    if w.Asleep? then Woken else w
  }

  function Apply(s: State, e: Event): State
    requires Enabled(s, e)
  {
    match e
    case Reserve(request) =>
      s.(counter := s.counter + 1, requester := Reserved(s.counter, request),
         requests := s.requests + [request])
    case InsertTask =>
      s.(tasks := Insert(s.tasks, s.requester.id, s.requester.request, s.clock),
         requester := Inserted(s.requester.id))
    case LockForPush => s.(mutex := ByRequester, requester := Pushing(s.requester.id))
    case Push => s.(queue := s.queue + [s.requester.id], requester := Pushed(s.requester.id))
    case UnlockPush => s.(mutex := Nobody, requester := Notifying(s.requester.id))
    case NotifyOne => s.(worker := Awaken(s.worker), requester := Ready)
    case Check(id) =>
      if id in s.tasks && s.tasks[id].Finished()
      then s.(requester := Reported(id, s.tasks[id]), reported := s.reported + [id])
      else s
    case RemoveReported =>
      var id := s.requester.id;
      s.(tasks := Remove(s.tasks, id), requester := Ready,
         erased := if id in s.tasks then s.erased + multiset{id} else s.erased)
    case ReadRunning => s.(worker := if s.running then Entering else Exited)
    case LockQueue => s.(mutex := ByWorker, worker := Testing)
    case Test =>
      if WaitOver(s) then s.(worker := Popping) else s.(mutex := Nobody, worker := Asleep)
    case SpuriousWake => s.(worker := Woken)
    case Relock => s.(mutex := ByWorker, worker := Testing)
    case Pop =>
      if s.queue == [] then s.(worker := Popped(None))
      else s.(worker := Popped(Some(s.queue[0])), queue := s.queue[1..])
    case UnlockPop =>
      s.(mutex := Nobody,
         worker := if s.worker.next.Some? then Taken(s.worker.next.value) else Exited)
    case StartTask =>
      var id := s.worker.id;
      if id in s.tasks
      then s.(tasks := Start(s.tasks, id, s.clock), worker := Fetching(id),
              started := if CanStart(s.tasks[id]) then s.started + [id] else s.started)
      else s.(worker := AtTop)
    case FetchTask =>
      var id := s.worker.id;
      if id in s.tasks then s.(worker := Probing(id, s.tasks[id].request)) else s.(worker := AtTop)
    case ReadConnected(connected) =>
      s.(worker := if connected then Submitting(s.worker.id, s.worker.request)
                   else Closing(s.worker.id, false, DISCONNECTED, Unsent))
    case Submit(ticket) => s.(worker := Waiting(s.worker.id, ticket))
    case SubmitThrows => s.(worker := Aborted(s.worker.id))
    case Answer(value) => s.(worker := Judge(s.worker.id, s.worker.ticket, value))
    case TimeOut =>
      s.(worker := Closing(s.worker.id, false, DISCONNECTED, Unanswered(s.worker.ticket)))
    case Close =>
      var id := s.worker.id;
      var tasks := Finish(s.tasks, id, if s.worker.ok then Completed else Failed, s.worker.response, s.clock);
      s.(tasks := tasks, worker := AtTop,
         finals := if id in tasks then s.finals + [Final(tasks[id], s.worker.source)] else s.finals)
    case SweepTasks =>
      s.(tasks := Sweep(s.tasks, s.clock),
         erased := s.erased + multiset(Sweepable(s.tasks, s.clock)))
    case ClearRunning => s.(running := false, stopper := Flagged)
    case LockForStop => s.(mutex := ByStopper, stopper := Stopping)
    case SetShutdown => s.(shutdown := true, stopper := ShutdownSet)
    case UnlockStop => s.(mutex := Nobody, stopper := StopNotifying)
    case NotifyAll => s.(worker := Awaken(s.worker), stopper := Stopped)
    case Tick(elapsed) => s.(clock := s.clock + elapsed)
  }

  /** The state after a sequence of events, if each is possible where it occurs. */
  function Run(s: State, es: seq<Event>): Option<State>
    decreases |es|
  {
    if es == [] then Some(s)
    else if Enabled(s, es[0]) then Run(Apply(s, es[0]), es[1..])
    else None
  }
}
