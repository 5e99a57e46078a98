# Verification of robert-middleware

A model, in Dafny 4.11, of the middleware between network clients and an ABB robot controller,
and proofs about it. The middleware takes client requests one at a time, keeps sessions and one
exclusive hardware lock, turns robot commands into numbered tasks, and feeds them to the robot
over a TCP link with a binary protocol; the controller's side of that protocol is written in
RAPID. Verify everything with `dafny verify dfyconfig.toml`.

## How the model is laid out

| part | files | form |
|---|---|---|
| tasks | `TaskRecord`, `Tasker` | table functions; `Task` and `Tasker` objects proved against them |
| task pipeline | `Pipeline`, `PipelineInvariant`, `PipelineTheorems` | transition system: request thread, worker, sweeper, stopper; one mutex section, wait or notify a step |
| stopping | `Shutdown` | how both workers end once they are told to, and what is left undone |
| server worker | `ServerWorker` | a turn of the server's worker loop over the task store, proved to be a run of the pipeline |
| robot link | `RobotLink`, `RobotLinkInvariant`, `AnswerPairing`, `RobotLinkTheorems`, `LateExecution` | transition system: promises, robot worker loop, connections, controller; which answer belongs to which request; which requests can still be carried out |
| robot object | `RobotSession` | the `Robot` and its promises as objects, one turn of its worker loop, proved to be a run of the link |
| whole server | `Middleware`, `Gateway` | pipeline and link side by side, meeting in `is_connected`, `queue_request` and the future; with the lock protocol beside them |
| server and controller | `ControlledLink`, `EndToEnd`, `FailedTasks`, `Misattribution` | the runs with the controller at the far end: completed tasks, failed tasks that still run, answers given to the wrong task |
| sessions and lock | `SessionTable`, `Sessions`, `LockProtocol`, `LockTheorems` | table functions, the `SessionManager` object, and a transition system of handlers and sweeper |
| handlers | `RequestHandler` | an object over `SessionManager` and `Tasker`, proved against the uninterrupted run of `LockProtocol` |
| wire format | `Bytes`, `RobotData`, `Commands`, `RapidParsing`, `RequestCodec`, `Telemetry` | little-endian bytes; packer and parser on both sides |
| controller | `Operation` | `ExecuteAction` and the workspace check |

A transition system has a function `Enabled` saying which events a state allows, `Apply` giving
the next state, and `Run` folding a list of events; theorems speak of every state some list of
events reaches from the start, so of every interleaving. State components named as history
(started, finals, erased, reported, log, served) only record what happened.

## Where the code departs from its intent

- The session sweep calls `release_lock`, which locks the non-recursive mutex the sweep already
  holds (src/server/session.cpp:56, 62, 79). `SweepAsWritten` shows this happens exactly if some
  session is old; the other proofs use a sweep that releases the lock under the mutex it holds.
- An ACQUIRE can give the lock to a token whose session the sweeper erases after it was validated
  (src/server/request_handler.cpp:77-79, 142). `DeadLockReachable` is such a run,
  `DeadExactlyIfAcquiredDead` says it is the only way, and `DeadLockIsForever` that nothing short
  of a restart frees that lock.
- A new session has never been seen, so it is old from the start once the steady clock is past the
  timeout (src/server/session.cpp:30): `UntouchedSessionIsOld`.
- A task reported as failed may still be executed. The 90 s timeout leaves its request in the robot
  queue (src/server/server.cpp:184-195); a receive that fails leaves it unread on the connection, or,
  when the receive times out while the robot is already moving, leaves the motion to go on
  (src/robot/robot.cpp:104-120, 197-206); a send that fails midway leaves a part of it on the
  connection (src/robot/robot.cpp:82-92). `FailedTaskRunsExactlyIf` is the exact condition over all
  runs for what the controller has not read, `PartRunsExactlyIf` says which parts are carried out
  like the whole, and `FailedTaskStillRuns` and `FailedSendCarriedOut` are runs.
- A stopped robot session leaves the requests it has not taken without an answer for good
  (src/robot/robot.cpp:29-34, 176-177), so a server that stops waits out the 90 s of the task it has
  handed over if the link has not taken it (src/server/server.cpp:79-87, 184): `StopEndsLink`.
- A request stays queued when its client loses the lock: it may be carried out under another's
  (src/server/request_handler.cpp:151-165, src/server/server.cpp:150-196).
  `ReadUnderAddersLockExactlyIf` is the exact condition, `ReadUnderAnothersLock` a run.
- The controller's error handler answers twice at a kinematic limit
  (robert-rapid/OperationModule.mod:199-213), and nothing on the wire says which request an answer
  is for. `PoliteExactlyIf` says when that happens, `PairedExactlyIf` when an answer is still its
  own request's, and in `CompletedWithAnothersAnswer` a task is completed with the answer to another
  task's action.
- `unpack_robot_status` accepts 162 bytes and reads 171 (src/commands/decoder.cpp:159, 216):
  `InBoundsExactlyIf`.
- The two ends number zones differently (src/commands/commands.hpp:35-43,
  robert-rapid/ValueModule.mod:2-21): `ZoneMeaningOnlyForFine`.
- `sweepExpiredTasks` ignores its argument (src/server/tasker.cpp:183-187): `ArgumentMatters`,
  `ArgumentHonouredExactlyIf`.
- Comments give the request 185 bytes and a target 65 (src/commands/commands.hpp:57,
  src/core/data.hpp:71); they are 188 and 68, and the model follows the structs.

## Assumptions

- A drawn token was never drawn before (`LockProtocol.Enabled`); users are loaded once, before.
- One receive returns one whole answer, and the controller's `SocketReceive` one whole message: a
  request, or what went out of it before send failed; it is read, executed and answered in one
  step, so a motion still under way shows only as a message not yet read. TCP may cut or join them otherwise, above all
  when send writes in parts; the model then says nothing. Messages may be lost, unanswered,
  answered twice, or sent on a connection that later breaks.
- Response pairing is unconditional as far as it goes (the answer in the same place on the same
  connection); that the answer is the request's own asks only of earlier steps on that connection.
- `ControlledLink.Controlled`: where a theorem speaks of what the controller did, the link's far end parses,
  executes and answers as modules `RapidParsing` and `Operation` say.
- The steady clock does not run backwards.
- A linear motion follows the straight segment to its target, also up to the point of an error.

## Model

| member | source | states |
|---|---|---|
| PipelineInvariant.StepInv | src/server/tasker.cpp:97-221 | every step of request thread, worker, sweeper and stopper keeps the whole-system invariant |
| PipelineTheorems.NoLostWakeup | src/server/tasker.cpp:97-221 | a worker asleep in the wait has an empty queue and no shutdown, or a notify call is still owed |
| PipelineTheorems.QueuedIsServed | src/server/tasker.cpp:199-213 | in every run from a reachable state, eleven steps of the worker, or while it sleeps of the threads that owe it a notify call, bring the head of the queue to it |
| PipelineTheorems.QueuedCanProceed | src/server/tasker.cpp:97-112 | until then such a step is possible, unless another thread holds the mutex |
| PipelineTheorems.PopIsSafe | src/server/tasker.cpp:202-212 | the front of an empty queue is never read; no id means shutdown |
| PipelineTheorems.Conservation | src/server/tasker.cpp:97-213 | in every interleaving each drawn task id is in exactly one of six places, once, and no other id anywhere |
| PipelineTheorems.WorkerNeverMisses | src/server/server.cpp:154-195 | in the worker startTask and getTask always find the task, each state change is accepted, and the fetched request is the added one |
| PipelineTheorems.Fifo | src/server/server.cpp:150-196 | tasks start and finish in id order without gaps, at most one is in progress, all below the worker's are finished, all above pending |
| PipelineTheorems.ResponseWrittenOnce | src/server/tasker.cpp:140-168 | no later step changes a finished task's record; it stays or is erased |
| PipelineTheorems.CheckTaskSafe | src/server/request_handler.cpp:179-221 | CHECK_TASK's copy is the final record, what it erases is that record, and no result is reported finished twice |
| PipelineTheorems.UnfinishedNeverErased | src/server/tasker.cpp:171-193 | neither sweep nor CHECK_TASK ever erases an unfinished task |
| PipelineTheorems.ReportedTimes | src/server/tasker.cpp:64-78 | created <= started <= ended in every reachable state, and 0 <= execution time <= latency |
| PipelineTheorems.TimesStamped | src/server/tasker.cpp:8-45 | in every interleaving a task is stamped with the clock of its insertion, start and close, and nothing else of it changes with its state |
| PipelineTheorems.OutcomesJudged | src/server/server.cpp:169-194 | without an answer a task failed as disconnected; an answer starting with ERR: or NACK fails it as a robot error with that answer; any other completes it with the answer itself |
| TaskRecord.ExpiryPermanent | src/server/tasker.cpp:85-93 | an expired task stays expired |
| TaskRecord.SweepExact | src/server/tasker.cpp:183-193 | the sweep erases exactly the finished tasks that ended at least 300 s ago and keeps the rest unchanged |
| TaskRecord.SectionsExact | src/server/tasker.cpp:97-168 | what insertion, start and closing leave of every table: who may move on, at what time, with what response, and all other tasks as they were |
| TaskRecord.ReportedDurations | src/server/tasker.cpp:64-78 | latency and execution time are the whole milliseconds from creation, or start, to end, and 0 for an unfinished task |
| Tasker.ArgumentMatters | src/server/tasker.cpp:183-193 | the sweep does what its ignored argument asks for every table and time exactly if the argument is 300 |
| Tasker.ArgumentHonouredExactlyIf | src/server/tasker.cpp:183-193 | on a given table it does so exactly if no finished task's age falls between the two limits |
| Tasker.Task.MarkStarted | src/server/tasker.cpp:14-23 | only a pending task is moved on, in place |
| Tasker.Task.MarkCompleted | src/server/tasker.cpp:25-34 | only a task in progress is completed, in place |
| Tasker.Task.MarkFailed | src/server/tasker.cpp:36-45 | only a task in progress is failed, in place |
| Tasker.Task.IsExpired | src/server/tasker.cpp:85-93 | finished, and at least the timeout old in whole seconds |
| Tasker.Tasker.AddTask | src/server/tasker.cpp:97-112 | a new id, its pending task in the table, the id at the end of the queue |
| Tasker.Tasker.GetTask | src/server/tasker.cpp:114-124 | a fresh copy of the stored task, or none |
| Tasker.Tasker.StartTask | src/server/tasker.cpp:126-138 | the table after the start of one task, all others unchanged |
| Tasker.Tasker.CompleteTask | src/server/tasker.cpp:140-153 | the table after completion with a response, all others unchanged |
| Tasker.Tasker.FailTask | src/server/tasker.cpp:155-168 | the table after failure with a response, all others unchanged |
| Tasker.Tasker.RemoveTask | src/server/tasker.cpp:171-181 | exactly this id leaves the table |
| Tasker.Tasker.SweepExpiredTasks | src/server/tasker.cpp:183-193 | the erase-while-iterating loop, in any order of the table, removes exactly the expired tasks |
| Tasker.Tasker.WaitForNextTask | src/server/tasker.cpp:199-213 | the front id leaves the queue, or none after shutdown |
| ServerWorker.Worker.Turn | src/server/server.cpp:150-196 | a turn takes the front id off the queue and changes that one task's record as its exchange came out, or ends at shutdown |
| ServerWorker.TurnIsARun | src/server/server.cpp:150-196 | from every reachable state with work queued, such a turn is a run of the pipeline with the same table and queue |
| RobotLinkInvariant.StepInv | src/robot/robot.cpp:141-229 | every step of client, robot worker, network and controller keeps the link invariant |
| AnswerPairing.PairedExactlyIf | src/robot/robot.cpp:66-76 | the answer received in place i of a connection is message i's own exactly if the i messages before it were given i answers in all |
| AnswerPairing.PolitePaired | src/robot/robot.cpp:66-76 | it is, and is the only one, if up to it no message of the connection was answered twice |
| RobotLinkTheorems.ResponsePairing | src/robot/robot.cpp:66-76 | a kept promise holds the answer in the place of its own request on the connection that was sent on, its own under those conditions, whatever came later |
| RobotLinkTheorems.AtMostOneExecution | src/robot/robot.cpp:165-206 | no request reaches the controller twice, in whole or in part, over all connections |
| RobotLinkTheorems.PromiseDiscipline | src/robot/robot.cpp:165-228 | exactly the popped tickets' promises are kept, except that of the last popped while it is in the worker's hands |
| RobotLinkTheorems.PromiseKeptOnce | src/robot/robot.cpp:189-228 | a kept promise never changes; only the ticket in hand is ever kept, so no heartbeat touches one |
| RobotLinkTheorems.ResolvedWithinFour | src/robot/robot.cpp:189-228 | a popped request's promise is kept by the worker's next four steps, whatever everybody else does in between |
| RobotLinkTheorems.AnsweredInOrder | src/robot/robot.cpp:165-206 | a request given its own answer was carried out after all earlier ones that were answered |
| LateExecution.ReadExactlyIf | src/robot/robot.cpp:141-229 | the controller can still come to read a request exactly if it is queued on a running link, about to be sent, or sent in whole or in part and unread |
| RobotLinkTheorems.LinkErrorsAreRefusals | src/robot/robot.cpp:197-227 | what the link itself puts into a promise is one of four error texts, each starting with ERR: |
| RobotLinkTheorems.WorkComesFirst | src/robot/robot.cpp:164-187 | after its wait the worker stops if told to, else takes the oldest request, and pings only with none queued |
| RobotLinkTheorems.AlwaysActive | src/robot/robot.cpp:66-70 | send_and_receive never finds the socket closed, and the connected flag equals having a socket |
| RobotSession.Robot.StartSession | src/robot/robot.cpp:18-27 | the session runs afterwards, and its queue is as it was left |
| RobotSession.Robot.QueueRequest | src/robot/robot.cpp:50-64 | a new promise at the end of the queue, or none when the session is not running |
| RobotSession.Robot.AttemptConnection | src/robot/robot.cpp:122-139 | an open socket is kept, otherwise a new one is opened if the network allows |
| RobotSession.Robot.SendAndReceive | src/robot/robot.cpp:66-76 | the outcome of one exchange, for every sequence of results of send |
| RobotSession.Robot.WorkerTurn | src/robot/robot.cpp:141-229 | what goes out is the first work item's request, or a heartbeat, or the beginning of it where send fails; only that item leaves the queue and only its promise is kept; any error drops the socket; a stop in the wait pops nothing |
| RobotSession.KeptWith | src/robot/robot.cpp:66-120 | the bytes a promise is kept with: the answer, or the error of what failed first |
| RobotSession.Robot.StopSession | src/robot/robot.cpp:29-44 | no session, no socket, and no promise touched |
| RobotSession.TurnIsARun | src/robot/robot.cpp:141-229 | from every reachable state such a turn, with or without a stop in it, is a run of the link that keeps the same promise with the same bytes |
| Shutdown.StopEndsWorker | src/server/server.cpp:150-159 | in every run the server's worker ends with its next twelve steps after shutdown is set |
| Shutdown.StopCanProceed | src/server/tasker.cpp:215-221 | after stop the worker is never asleep, and until it ends its next step is possible unless a push holds the queue mutex |
| Shutdown.StopStartsNothing | src/server/server.cpp:150-166 | once running_ is false at most one more task is started, and none by a worker that has one in hand |
| Shutdown.StopEndsLink | src/robot/robot.cpp:145-179 | told to stop, the link's worker ends within five steps, takes no further request and opens no further connection; the promises of what is still queued are never kept |
| Shutdown.ClosedForGood | src/robot/robot.cpp:36-43 | once the session is closed nothing is sent any more |
| Middleware.StepInv | src/server/server.cpp:150-196 | every step of the whole server keeps both invariants and the coupling of tasks with tickets |
| Middleware.CompletedHasItsAnswer | src/server/server.cpp:175-195 | over all runs a completed task's response is the answer in the place of its own ticket's request, its own exactly if the messages before were given as many answers as they are, its only one if none up to it was answered twice |
| Middleware.TableShowsItsAnswer | src/server/request_handler.cpp:179-206 | the same for the record a client sees |
| Middleware.CompletedInOrder | src/server/server.cpp:150-196 | of two completed tasks the one with the lower id was carried out first, if the other's answer is its own |
| Middleware.ReadForATask | src/server/server.cpp:163-175 | every message the controller reads that is no heartbeat is the request of one task, or a part from its beginning |
| Middleware.TaskReadOnce | src/server/server.cpp:163-175 | two reads are the same step of the controller exactly if they are of the same task |
| Middleware.FailedTaskReadExactlyIf | src/server/server.cpp:184-195 | a failed task's request can still be read exactly if its ticket is queued on a running link, about to be sent, or sent in whole or in part and unread |
| ControlledLink.PoliteExactlyIf | robert-rapid/OperationModule.mod:199-213 | on a connection no message was answered twice exactly if no motion it started ended at a kinematic limit |
| ControlledLink.HeartbeatsOnlyPing | src/robot/robot.cpp:180-195 | over all runs, whatever an idle worker sends is a PINGR to the controller, or too short for anything: no state changed, nothing moved, one answer at most |
| ControlledLink.StatusShowsSettings | robert-rapid/TelemetryModule.mod:2-72 | a status request shows the speed or zone set by the last command that set one, and the position |
| EndToEnd.CompletedAsAsked | src/server/server.cpp:163-189 | short of an earlier kinematic limit, a completed task's own request was read and had the effect its client asked for (the robot is at the target, the speed is the whole part of the one asked for, the zone the next smaller one), and its response is the only answer |
| EndToEnd.CompletedInTurn | src/server/server.cpp:150-196 | of two such tasks the one added first was executed before the other was read |
| EndToEnd.CompletedInOwnSteps | src/server/server.cpp:150-196 | two such tasks were executed in two different steps of the controller |
| Misattribution.TwoAnswersShift | robert-rapid/OperationModule.mod:199-213 | for any two packed requests, the first a motion that meets a kinematic limit: a run of the link in which the second client is given the second answer to the first request |
| Misattribution.CompletedWithAnothersAnswer | robert-rapid/OperationModule.mod:199-213 | for any third request after them: a run of the server in which its task is completed with the answer to the second task's action, its own request unread |
| FailedTasks.FailedTaskRunsExactlyIf | src/server/server.cpp:184-195 | a failed task can still be carried out as asked exactly if it has a ticket and that is queued on a running link, about to be sent, or sent and unread with the bytes its command needs |
| FailedTasks.FailedSendCarriedOut | src/robot/robot.cpp:78-102 | for any request whose needed bytes went out before send failed: a run in which the task is failed and the very action executed |
| Gateway.StepInv | src/server/request_handler.cpp:224-256 | every step of handlers, session sweep and server keeps both invariants and the count of added tasks |
| Gateway.ReadWasAddedByLockOwner | src/server/request_handler.cpp:232-250 | in every interleaving, each request that reaches the controller is of a task added by the last token to have acquired the lock |
| Gateway.ReadUnderAddersLockExactlyIf | src/server/request_handler.cpp:151-165 | when a request is read, the lock is its adder's exactly if the adder acquired it, then or later, and nothing ended that since |
| Gateway.ReadUnderAnothersLock | src/server/request_handler.cpp:151-165 | a run in which a request is read after its adder released the lock and another acquired it |
| Middleware.SubmittedExactlyIf | src/server/server.cpp:175-182 | the request handed to the link is the started task's own, exactly if a controller socket is open; otherwise the task fails unsent |
| Middleware.AbortsOnlyWhenStopped | src/robot/robot.cpp:50-52 | queue_request throws out of the worker thread only after the server was told to stop |
| Middleware.FailedTaskStillRuns | src/server/server.cpp:184-195 | a run in which a task failed by the timeout is read and answered afterwards |
| Middleware.FailedSendStillRuns | src/robot/robot.cpp:78-102 | a run in which a part of a request is read and answered after its task has failed |
| SessionTable.ReloginReturnsSameToken | src/server/session.cpp:17-34 | logging in again changes nothing and finds the one token the user has |
| SessionTable.LoginExactlyIf | src/server/session.cpp:17-34 | a session is added exactly for a known user without one and with that user's password; otherwise nothing changes |
| SessionTable.LogoutErases | src/server/session.cpp:36-39 | exactly this session ends |
| SessionTable.NoMoreSessionsThanUsers | src/server/session.cpp:17-34 | one session a known user means no more sessions than users |
| SessionTable.SweepExact | src/server/session.cpp:55-68 | the intended sweep removes exactly the old sessions and frees the lock exactly when its holder goes |
| SessionTable.UntouchedSessionIsOld | src/server/session.cpp:28-32 | a session not yet used is swept exactly when the clock is past the timeout |
| SessionTable.TouchedSessionSurvives | src/server/session.cpp:46-68 | a touched session outlives a later sweep exactly within the timeout, and nobody else is affected |
| SessionTable.LockExcludes | src/server/session.cpp:70-84 | while one token holds the lock another can neither take nor free it, and its release gives the free lock back |
| Sessions.UuidShape | src/server/session.cpp:111-133 | 36 characters in the text form of RFC 4122, section 4.4, version 4 |
| Sessions.UuidInjective | src/server/session.cpp:111-133 | different draws make different tokens |
| Sessions.LastEntryWins | src/server/session.cpp:8-15 | the users are exactly the names loaded, each with the password of its last entry |
| Sessions.SessionManager.LoadUsers | src/server/session.cpp:8-15 | the user table is replaced, later entries winning |
| Sessions.SessionManager.GenerateUuid | src/server/session.cpp:111-133 | the append loops build the token of the draws |
| Sessions.SessionManager.Login | src/server/session.cpp:17-34 | the live user's token, else a new session for right credentials, else none |
| Sessions.SessionManager.TouchSession | src/server/session.cpp:46-53 | only this session's time changes, if there is one |
| Sessions.SessionManager.AcquireLock | src/server/session.cpp:70-76 | the lock is taken exactly if free |
| Sessions.SessionManager.ReleaseLock | src/server/session.cpp:78-84 | the lock is freed exactly if this token holds it |
| Sessions.SessionManager.SweepExpiredSessions | src/server/session.cpp:55-68 | the intended loop, in any order of the table, is the sweep |
| Sessions.SessionManager.SweepAsWritten | src/server/session.cpp:55-84 | the literal loop locks its own mutex again exactly if some session is old |
| LockProtocol.StepInv | src/server/request_handler.cpp:74-165 | every section of the handlers and the sweeper keeps the lock invariant |
| LockTheorems.OwnershipMeansLive | src/server/request_handler.cpp:232-250 | when has_lock says yes to a validated request its token has a live session, in any interleaving |
| LockTheorems.NoOtherHolderAtAddTask | src/server/request_handler.cpp:232-250 | at addTask no other token holds the lock |
| LockTheorems.NoDirectHandover | src/server/session.cpp:70-84 | the lock never passes between tokens without being free |
| LockTheorems.LogDiscipline | src/server/request_handler.cpp:101-165 | acquisitions only of a free lock, releases only of the holder's, every task from the last holder |
| LockTheorems.SessionsStayWithinUsers | src/server/session.cpp:17-39 | in every reachable state one session a user, each of a loaded user, no more than users |
| LockTheorems.SessionsFromPasswords | src/server/session.cpp:17-34 | in every reachable state each session goes back to a login of its user with that user's loaded password |
| LockTheorems.DeadExactlyIfAcquiredDead | src/server/request_handler.cpp:125-150 | the holder has no session exactly if it had none when it acquired |
| LockTheorems.DeadLockIsForever | src/server/session.cpp:55-84 | a lock held without a session is never freed and no task is ever added again |
| LockTheorems.DeadLockReachable | src/server/request_handler.cpp:74-83 | a run that ends so |
| LockTheorems.WholeRequestsKeepLockLive | src/server/request_handler.cpp:101-165 | without a sweep inside a request the holder is always live and every task is added by the holder |
| RequestHandler.HandledIsARun | src/server/request_handler.cpp:101-177 | a handler run without interruption is the lock protocol's run of its sections |
| RequestHandler.ReportTells | src/server/request_handler.cpp:188-221 | CHECK_TASK's answer for every task: its state always, why it failed, its response or the unpacked status |
| RequestHandler.ReportedUnless | src/server/request_handler.cpp:195-200 | it has no defined answer exactly for a completed status task with 162 to 170 bytes |
| RequestHandler.TextExactlyIf | src/server/request_handler.cpp:195-206 | a completed task shows its response as text exactly if its client's request was not GETSTATUS |
| RequestHandler.ReportFinds | src/server/request_handler.cpp:179-186 | an unknown id is named as such, and exactly a finished task is forgotten when reported |
| RequestHandler.AuthorisedExactlyIf | src/server/request_handler.cpp:74-87 | only the live holder is let through, and who is not is told what is missing |
| RequestHandler.TokenSent | src/commands/decoder.cpp:130-133 | the token a handler works with is the one the client sent, the empty one if it sent none |
| RequestHandler.StatusReachesClient | src/server/request_handler.cpp:191-206 | a status payload is judged complete and shows the client the controller's state |
| RequestHandler.RequestHandler.HandleLogin | src/server/request_handler.cpp:90-99 | the session's token for a live user, a new one for the right password, else a refusal |
| RequestHandler.RequestHandler.HandleLogout | src/server/request_handler.cpp:101-122 | lock released if held, session erased, and the answer in every case |
| RequestHandler.RequestHandler.HandleAcquire | src/server/request_handler.cpp:124-149 | tables and answer in every case: success for a live token and a free lock, warning for the holder, else what is wrong |
| RequestHandler.RequestHandler.HandleRelease | src/server/request_handler.cpp:151-165 | success exactly for the live holder |
| RequestHandler.RequestHandler.HandleCheckTask | src/server/request_handler.cpp:167-222 | only the live holder learns of a task, a finished one is then forgotten, and a request without an id ends in an exception |
| RequestHandler.RequestHandler.HandleRobotCommand | src/server/request_handler.cpp:224-256 | a task is added exactly for the live holder with the robot connected and the message packable |
| RobotData.BridgeRoundTrip | src/core/data.cpp:60-77 | targets and joints keep every bit through the bridge classes, cfx included |
| Bytes.TwosComplement | src/core/data.cpp:60-77 | signed and unsigned readings differ by a multiple of 2^32 |
| Bytes.ByteOrder | src/robot/robot.cpp:78-92 | words go over the wire with the least significant byte first |
| Commands.DecodeKeeps | src/commands/decoder.cpp:94-148 | every field of a client message is kept, empty texts as absent, the task id for CHECK_TASK alone |
| Commands.WireIds | src/commands/commands.hpp:12-43 | the command and zone ids on the wire |
| Commands.MissingFieldNamed | src/commands/commands.cpp:24-50 | a message that cannot be packed names the first field that is missing |
| Commands.SpeedDropsFraction | src/commands/commands.cpp:52-54 | the packed speed is the whole part of the one asked for, for every speed that fits |
| Commands.CreateRapidRequest | src/commands/commands.cpp:14-61 | step-by-step filling of the zeroed struct yields the command's own fields and nothing else |
| RapidParsing.ZoneTablesInverse | robert-rapid/ValueModule.mod:2-42 | the controller's two zone tables undo each other |
| RapidParsing.Parser.ParseMessage | robert-rapid/ParsingModule.mod:17-135 | the action parsed does not depend on what earlier messages left in the module variables |
| RequestCodec.RoundTrip | src/commands/commands.cpp:14-61 | the controller parses from the 188 bytes exactly what the client asked for, the speed as its whole part |
| RequestCodec.PackableExactlyIf | src/commands/commands.cpp:24-58 | packing succeeds exactly with the required fields and a speed that fits 16 bits |
| RequestCodec.ZoneMeaningOnlyForFine | robert-rapid/ValueModule.mod:2-42 | zone ids survive; the fine zone is meant alike, any other comes out as the next smaller |
| RequestCodec.SendRequest | src/robot/robot.cpp:78-102 | whatever partial writes do, the loop ends with exactly the message sent, or a proper prefix and a failed call |
| RequestCodec.ParseUsesOnly | robert-rapid/ParsingModule.mod:24-133 | the action depends only on the bytes its command uses |
| RequestCodec.PartRunsExactlyIf | robert-rapid/ParsingModule.mod:17-135 | the first n bytes of a packed request are carried out like the whole exactly if they hold all its command's parsing needs |
| RequestCodec.HeartbeatIsPing | src/robot/robot.cpp:182-186 | a heartbeat parses as PINGR whatever its other bytes are |
| RequestCodec.UnusedBytesZero | src/commands/commands.cpp:16-60 | all bytes the command does not use are zero |
| RequestCodec.PackUsesOwnFields | src/commands/commands.cpp:16-60 | requests agreeing on the command's own fields pack alike |
| Telemetry.HandleGetState | robert-rapid/TelemetryModule.mod:2-72 | in-place packing at fixed offsets yields the payload |
| Telemetry.SmallFloats | robert-rapid/TelemetryModule.mod:2-72 | the patterns zone numbers travel as are those numbers in the binary32 format of IEEE 754, and no other pattern is read as one |
| Telemetry.RoundTrip | src/commands/decoder.cpp:157-219 | the middleware unpacks the controller's state field by field |
| Telemetry.TextsBackExactlyIf | src/commands/decoder.cpp:214-216 | time and date come back exactly when 8 and 10 characters long |
| Telemetry.UnpackRobotStatus | src/commands/decoder.cpp:157-219 | the 35 reads in their order yield the status, or leave the buffer, whatever the payload |
| Telemetry.InBoundsExactlyIf | src/commands/decoder.cpp:157-219 | of the reads of an accepted payload exactly the last, ten bytes at 161, overruns it, and exactly below 171 bytes |
| Telemetry.StatusIsNoRefusal | src/server/server.cpp:185-192 | the leading zero byte keeps a status from being read as ERR or NACK |
| Operation.AnsweredOnceExactlyIf | robert-rapid/OperationModule.mod:59-215 | one answer an action, two exactly when a started motion ends at a kinematic limit |
| Operation.RequestAnsweredOnceExactlyIf | robert-rapid/OperationModule.mod:59-215 | the same for every packable client request, through packer and parser |
| Operation.MotionlessCommands | robert-rapid/OperationModule.mod:63-158 | state and answer of every command that moves nothing; a speed is set exactly from 5 up to the maximum |
| Operation.UnknownCommands | robert-rapid/OperationModule.mod:192-196 | any other name is refused and changes nothing |
| Operation.MotionStartsExactlyIf | robert-rapid/OperationModule.mod:68-191 | a motion starts exactly with its coordinates given and its targets inside the box and in reach; else the reason is answered and nothing changes |
| Operation.MotionCarriedOut | robert-rapid/OperationModule.mod:68-215 | where a started motion leaves the robot and what it is answered, for every way it ends |
| Operation.RefusalChangesNothing | robert-rapid/OperationModule.mod:59-215 | an action refused without a motion changes nothing, and a motion is refused exactly when it failed |
| Operation.SpeedStaysInRange | robert-rapid/OperationModule.mod:128-142 | no run of commands brings the speed out of the allowed range |
| Operation.StraightLine | robert-rapid/OperationModule.mod:68-81 | the place a part of the way along a line, coordinate by coordinate, with both ends |
| Operation.LineTakenExactlyIf | robert-rapid/OperationModule.mod:68-81 | the robot takes a straight line exactly for a linear move to a reachable point of the shrunk box |
| Operation.Controller.Execute | robert-rapid/OperationModule.mod:59-197 | speed, zone, position, answers and path after an action |
| Operation.SegmentStaysInWorkspace | robert-rapid/OperationModule.mod:5-22 | the margin-shrunk box is convex |
| Operation.RunStaysInWorkspace | robert-rapid/OperationModule.mod:68-81 | any run of linear, offset and motionless commands from inside keeps every path point inside |

## Left out

- Pipeline: interleaving is proved on values, with the objects' turns tied to it by TurnIsARun; reading running_ between requests and in the sweeper is not modelled, which only allows more runs.
- RobotLink: likewise; promise objects are entries of a sequence, and the condition variable is not modelled because every wait on it is timed.
- RobotLink: one receive returns one whole answer; answers longer than the 255-byte buffer or split in two are not modelled.
- Tasker.Tasker.AddTask: the 64-bit counter does not wrap around.
- RapidParsing.Parse: what the controller does when a move is shorter than its fields, or a zone id is unknown, is an outcome of its own without an action.
- Telemetry: only the float patterns of 0 to 7 convert to zone numbers; other float arithmetic is not modelled.
- Operation.AnsweredOnceExactlyIf: runtime errors outside a motion are not modelled, and how a motion ends is an argument.
- Operation: a motion ends, or fails, before the next action; fly-by zones, MoveJ, MoveC and MoveAbsJ paths and joint kinematics are foreign controller behaviour.
- Dispatch in the request handler, the check for a missing robot object, PING, EXIT and the unknown command: constant answers.
- Protobuf parsing, the enum tables between protobuf and the commands, YAML configuration, logging, string conversions, sockets, DNS and ZeroMQ.
- The random generator: draws are arguments.
- Setters and default values of the data classes.
