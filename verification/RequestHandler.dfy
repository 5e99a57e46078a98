/**
 * The request handlers of src/server/request_handler.cpp, run from start to end without
 * interruption. Their effect on sessions and lock is the uninterrupted run of module
 * LockProtocol; their effect on the tasks is that of module TaskRecord.
 */
module RequestHandler {
  import opened Bytes
  import opened SessionTable
  import LP = LockProtocol
  import R = TaskRecord
  import S = Sessions
  import T = Tasker
  import C = Commands
  import P = Pipeline
  import Telemetry
  import opened RapidParsing

  // ----- what a whole request does to sessions and lock -----

  function Handled(t: Tables, kind: LP.Kind, token: Token, now: int): Tables {
    if token !in t.sessions || (kind.LogoutRequest? && token == "") then t
    else
      var touched := Touch(t, token, now);
      match kind
      case LogoutRequest => SessionTable.Logout(Release(touched, token), token)
      case AcquireRequest => if token == "" then touched else Acquire(touched, token)
      case ReleaseRequest => Release(touched, token)
      case _ => touched
  }

  /** The sections a handler goes through, given what it finds. */
  function Sections(s: LP.State, kind: LP.Kind, token: Token): seq<LP.Event> {
    var owns := s.tables.lock == Some(token);
    var rest :=
      match kind
      case LogoutRequest => if owns then [LP.ReleaseStep, LP.EraseStep] else [LP.EraseStep]
      case AcquireRequest => if owns || token == "" then [] else [LP.AcquireStep]
      case ReleaseRequest => if owns then [LP.ReleaseStep] else []
      case CheckRequest => []
      case CommandRequest => if owns then [LP.AddTask] else [];
    if kind.LogoutRequest? && token == "" then []
    else if token !in s.tables.sessions then [LP.Begin(kind, token)]
    else [LP.Begin(kind, token), LP.TouchStep, LP.Ask] + rest
  }

  lemma RunFront(s: LP.State, e: LP.Event, es: seq<LP.Event>)
    requires LP.Enabled(s, e)
    ensures LP.Run(s, [e] + es) == LP.Run(LP.Apply(s, e), es)
  {
    hide LP.Apply;
    assert ([e] + es)[1..] == es;
  }

  /** Handled is the lock protocol's run of the handler's sections with nothing in between. */
  lemma HandledIsARun(s: LP.State, kind: LP.Kind, token: Token)
    requires s.handler.Idle?
    ensures
      var r := LP.Run(s, Sections(s, kind, token));
      && r.Some? && r.value.handler.Idle?
      && r.value.tables == Handled(s.tables, kind, token, s.clock)
  {
    var es := Sections(s, kind, token);
    if es == [] {
      return;
    }
    var a := LP.Apply(s, LP.Begin(kind, token));
    RunFront(s, LP.Begin(kind, token), es[1..]);
    assert es == [LP.Begin(kind, token)] + es[1..];
    if token in s.tables.sessions {
      var b := LP.Apply(a, LP.TouchStep);
      var c := LP.Apply(b, LP.Ask);
      assert es[1..] == [LP.TouchStep] + es[2..] && es[2..] == [LP.Ask] + es[3..];
      RunFront(a, LP.TouchStep, es[2..]);
      RunFront(b, LP.Ask, es[3..]);
      RunRest(c, s, kind, token);
    }
  }

  lemma RunRest(c: LP.State, s: LP.State, kind: LP.Kind, token: Token)
    requires c.tables == Touch(s.tables, token, s.clock) && token in s.tables.sessions
    requires kind.LogoutRequest? ==> token != ""
    requires c.handler == LP.AfterAsk(s.(handler := LP.Touched(kind, token)))
    ensures
      var r := LP.Run(c, Sections(s, kind, token)[3..]);
      && r.Some? && r.value.handler.Idle?
      && r.value.tables == Handled(s.tables, kind, token, s.clock)
  {
    var rest := Sections(s, kind, token)[3..];
    if rest != [] {
      assert rest == [rest[0]] + rest[1..];
      RunFront(c, rest[0], rest[1..]);
      if |rest| == 2 {
        assert rest[1..] == [rest[1]];
        RunFront(LP.Apply(c, rest[0]), rest[1], []);
        assert [rest[1]] + [] == [rest[1]];
      }
    }
  }

  // ----- responses -----

  datatype ResponseStatus = SUCCESS | ERROR | WARNING

  datatype Response =
    | Response(
        status: ResponseStatus,
        text: Option<seq<byte>>,
        error: Option<seq<byte>>,
        taskStatus: Option<R.TaskState>,
        taskId: Option<nat>,
        robotStatus: Option<Telemetry.RobotStatus>)
    | Undefined   // the program has left the defined behaviour of its language

  function Success(text: string): Response {
    Response(SUCCESS, Some(Ascii(text)), None, None, None, None)
  }

  function Failure(text: string): Response {
    Response(ERROR, None, Some(Ascii(text)), None, None, None)
  }

  function Exception(text: string): Response {
    Failure("ERR_SERVER_EXCEPTION: " + text)
  }

  function TaskAdded(id: nat): Response {
    Response(SUCCESS, Some(Ascii("TaskAdded.uwunyanichan")), None, Some(R.Pending), Some(id), None)
  }

  /** What the short forms of a response are. */
  lemma ResponsesWritten(text: string, id: nat)
    ensures Success(text) == Response(SUCCESS, Some(Ascii(text)), None, None, None, None)
    ensures Failure(text) == Response(ERROR, None, Some(Ascii(text)), None, None, None)
    ensures TaskAdded(id) ==
            Response(SUCCESS, Some(Ascii("TaskAdded.uwunyanichan")), None, Some(R.Pending), Some(id), None)
  {
    hide Ascii;
  }

  function Progress(state: R.TaskState, error: Option<seq<byte>>): Response {
    Response(SUCCESS, None, error, Some(state), None, None)
  }

  function Completed(text: Option<seq<byte>>, status: Option<Telemetry.RobotStatus>): Response {
    Response(SUCCESS, text, None, Some(R.Completed), None, status)
  }

  const UNREADABLE :=
    Response(ERROR, None, Some(Ascii("Failed to unpack telemetry payload")), Some(R.Completed), None, None)

  predicate AsksStatus(request: seq<byte>) {
    request != [] && request[0] == C.CommandType.GETSTATUS.Id()
  }

  /** What a client learns of a task. */
  function ReportTask(t: R.Task): Response {
    match t.state
    case Pending => Progress(t.state, None)
    case InProgress => Progress(t.state, None)
    case Failed =>
      var text := if t.response == [] then Ascii("Task execution failed at robot controller") else t.response;
      Progress(t.state, Some(text))
    case Completed =>
      if !AsksStatus(t.request) then Completed(Some(t.response), None)
      else
        match Telemetry.Unpack(t.response)
        case TooSmall => UNREADABLE
        case OutOfBounds => Undefined
        case Status(status) => Completed(None, Some(status))
  }

  /**
   * What CHECK_TASK tells of a task: always its state; of a failed one why; of a completed one
   * its response, except that a status request shows the unpacked state instead.
   */
  lemma ReportTells(t: R.Task)
    requires ReportTask(t).Response?
    ensures
      var r := ReportTask(t);
      && r.taskStatus == Some(t.state) && r.taskId == None
      && (t.state.Pending? || t.state.InProgress? ==>
            r.status.SUCCESS? && r.text == None && r.error == None && r.robotStatus == None)
      && (t.state.Failed? && t.response != [] ==>
            r.status.SUCCESS? && r.text == None && r.error == Some(t.response) && r.robotStatus == None)
      && (t.state.Failed? && t.response == [] ==>
            && r.status.SUCCESS? && r.text == None && r.robotStatus == None
            && r.error == Some(Ascii("Task execution failed at robot controller")))
      && (t.state.Completed? && !(|t.request| > 0 && t.request[0] == 0x0A) ==>
            r.status.SUCCESS? && r.text == Some(t.response) && r.error == None && r.robotStatus == None)
      && (t.state.Completed? && |t.request| > 0 && t.request[0] == 0x0A ==>
            && r.text == None
            && (|t.response| < 162 ==>
                  && r.status.ERROR? && r.robotStatus == None
                  && r.error == Some(Ascii("Failed to unpack telemetry payload")))
            && (|t.response| >= 162 ==>
                  r.status.SUCCESS? && r.error == None && Telemetry.Unpack(t.response).Status?
                  && r.robotStatus == Some(Telemetry.Unpack(t.response).status)))
  {
    hide Telemetry.ReadsFit, Ascii;
  }

  /** Only a completed status task with a payload that is too short to be read ends in no response at all. */
  lemma ReportedUnless(t: R.Task)
    ensures ReportTask(t).Undefined? <==>
              t.state.Completed? && |t.request| > 0 && t.request[0] == 0x0A && 162 <= |t.response| < 171
  {
    if |t.response| >= 162 {
      Telemetry.InBoundsExactlyIf(t.response, 0);
    }
    hide Ascii, Telemetry.ReadsFit;
  }

  /**
   * A completed task shows its response as text exactly if it is not of a status request, for
   * every request that was packed from a client's.
   */
  lemma TextExactlyIf(t: R.Task, c: C.ClientRequest)
    requires C.Request(C.Decode(c)).Message? && t.request == C.Serialize(C.Request(C.Decode(c)).msg)
    requires t.state.Completed? && ReportTask(t).Response?
    ensures ReportTask(t).text == (if c.command == C.GETSTATUS then None else Some(t.response))
  {
    CodecHead(c);
    ReportTells(t);
    hide ReportTask, C.Serialize, C.Request, C.Decode;
  }

  lemma CodecHead(c: C.ClientRequest)
    requires C.Request(C.Decode(c)).Message?
    ensures
      var raw := C.Serialize(C.Request(C.Decode(c)).msg);
      |raw| == 188 && (raw[0] == 0x0A <==> c.command == C.GETSTATUS)
  {
    C.MissingFieldNamed(C.Decode(c));
    C.WireIds();
    C.DecodeKeeps(c);
    hide C.Request, Flatten;
  }

  function Report(m: R.Table, id: nat): Response {
    if id in m then ReportTask(m[id]) else Failure("Task ID not found in registry")
  }

  lemma ReportFinds(m: R.Table, id: nat)
    ensures id !in m ==>
              Report(m, id) == Response(ERROR, None, Some(Ascii("Task ID not found in registry")), None, None, None)
    ensures id in m ==> Report(m, id) == ReportTask(m[id])
    ensures forall k :: k in AfterReport(m, id) <==>
              k in m && !(k == id && (m[k].state == R.Completed || m[k].state == R.Failed))
    ensures forall k | k in AfterReport(m, id) :: AfterReport(m, id)[k] == m[k]
  {
    hide Ascii, ReportTask;
  }

  /** A finished task is forgotten once it has been reported. */
  function AfterReport(m: R.Table, id: nat): R.Table {
    if id in m && m[id].Finished() then R.Remove(m, id) else m
  }

  predicate Authorised(t: Tables, token: Token) {
    token in t.sessions && t.lock == Some(token)
  }

  function Refused(t: Tables, token: Token): Response {
    if token !in t.sessions then Failure("Invalid token") else Failure("Hardware lock not acquired")
  }

  /** Who is not the live holder of the lock is told what is missing. */
  lemma AuthorisedExactlyIf(t: Tables, token: Token)
    ensures Authorised(t, token) <==> token in t.sessions && t.lock == Some(token)
    ensures !Authorised(t, token) ==>
              Refused(t, token) ==
              Response(ERROR, None,
                       Some(Ascii(if token !in t.sessions then "Invalid token" else "Hardware lock not acquired")),
                       None, None, None)
  {
    hide Ascii;
  }

  /** A token that is empty counts as none. */
  function TokenOrRefusal(token: Token): Response {
    if token == "" then Response(ERROR, None, Some(Ascii("Invalid credentials")), None, None, None)
    else Response(SUCCESS, Some(Ascii(token)), None, None, None, None)
  }

  /** A request without a token counts as one with the empty token. */
  lemma TokenSent(c: C.ClientRequest)
    ensures TokenOf(C.Decode(c)) == c.sessionToken
  {
    C.DecodeKeeps(c);
  }

  function TokenOf(req: C.DecodedRequest): Token {
    if req.sessionToken.Some? then req.sessionToken.value else ""
  }

  /**
   * A status request that completed with the controller's state payload is judged complete by
   * the worker and shows that state, field by field, to the client.
   */
  lemma StatusReachesClient(t: R.Task, state: Telemetry.RobotState, ticket: nat)
    requires Telemetry.Reportable(state) && |state.time| == 8 && |state.date| == 10
    requires t.state.Completed? && AsksStatus(t.request) && t.response == Telemetry.Payload(state)
    ensures P.Judge(t.id, ticket, t.response) == P.Closing(t.id, true, t.response, P.Answered(ticket, t.response))
    ensures ReportTask(t) ==
            Completed(None, Some(Telemetry.RobotStatus(0, state.speedOverride, state.speed,
                                                       Some(ZoneToValue(state.zone)), state.target, state.joints,
                                                       state.time, state.date)))
  {
    Telemetry.RoundTrip(state);
    Telemetry.StatusIsNoRefusal(state);
    hide Telemetry.Unpack, Telemetry.Payload, P.IsRefusal;
  }

  // ----- the handlers -----

  class RequestHandler {
    const manager: S.SessionManager
    const tasker: T.Tasker

    constructor (manager: S.SessionManager, tasker: T.Tasker)
      ensures this.manager == manager && this.tasker == tasker
    {
      this.manager, this.tasker := manager, tasker;
    }

    method ValidateToken(req: C.DecodedRequest, now: int) returns (ok: bool)
      modifies manager`sessions
      ensures ok == (TokenOf(req) in old(manager.sessions))
      ensures manager.Model() == if ok then Touch(old(manager.Model()), TokenOf(req), now) else old(manager.Model())
    {
      ok := manager.IsValidToken(TokenOf(req));
      if ok {
        manager.TouchSession(TokenOf(req), now);
      }
    }

    method ValidateHardwareLock(req: C.DecodedRequest) returns (ok: bool)
      ensures ok == (manager.currentLock == Some(TokenOf(req)))
    {
      ok := manager.HasLock(TokenOf(req));
    }

    /** A live user is told the session's token; otherwise the right password opens a session. */
    method HandleLogin(req: C.DecodedRequest, ds: seq<S.Digit>, v: S.Variant) returns (res: Response)
      requires |ds| == S.DRAWS
      modifies manager`sessions
      ensures
        var username := if req.username.Some? then req.username.value else "";
        var password := if req.password.Some? then req.password.value else "";
        && manager.Model() == SessionTable.Login(old(manager.Model()), username, password, S.Uuid(ds, v))
        && (if LoggedIn(old(manager.sessions), username) then
              exists k | k in old(manager.sessions) ::
                old(manager.sessions)[k].username == username && res == TokenOrRefusal(k)
            else if username in manager.users && manager.users[username] == password
            then res == Response(SUCCESS, Some(Ascii(S.Uuid(ds, v))), None, None, None, None)
            else res == Response(ERROR, None, Some(Ascii("Invalid credentials")), None, None, None))
    {
      var username := if req.username.Some? then req.username.value else "";
      var password := if req.password.Some? then req.password.value else "";
      hide Ascii;
      S.UuidShape(ds, v);
      var token := manager.Login(username, password, ds, v);
      if token.None? || token.value == "" {
        return Failure("Invalid credentials");
      }
      return Success(token.value);
    }

    method HandleLogout(req: C.DecodedRequest, now: int) returns (res: Response)
      modifies manager
      ensures manager.Model() == Handled(old(manager.Model()), LP.LogoutRequest, TokenOf(req), now)
      ensures res ==
              if TokenOf(req) == "" then Response(ERROR, None, Some(Ascii("No token provided")), None, None, None)
              else if TokenOf(req) !in old(manager.sessions)
              then Response(ERROR, None, Some(Ascii("Invalid token")), None, None, None)
              else Response(SUCCESS, Some(Ascii("Logged out successfully")), None, None, None, None)
    {
      var token := TokenOf(req);
      if token == "" {
        return Failure("No token provided");
      }
      var valid := ValidateToken(req, now);
      if !valid {
        return Failure("Invalid token");
      }
      var owns := ValidateHardwareLock(req);
      if owns {
        var released := manager.ReleaseLock(token);
      }
      manager.Logout(token);
      return Success("Logged out successfully");
    }

    method HandleAcquire(req: C.DecodedRequest, now: int) returns (res: Response)
      modifies manager
      ensures manager.Model() == Handled(old(manager.Model()), LP.AcquireRequest, TokenOf(req), now)
      ensures res ==
              if TokenOf(req) !in old(manager.sessions)
              then Response(ERROR, None, Some(Ascii("Invalid token")), None, None, None)
              else if old(manager.currentLock) == Some(TokenOf(req))
              then Response(WARNING, None, Some(Ascii("You already have a hardware lock")), None, None, None)
              else if TokenOf(req) == "" then Response(ERROR, None, Some(Ascii("No token provided")), None, None, None)
              else if old(manager.currentLock).Some?
              then Response(ERROR, None, Some(Ascii("Failed to acquire lock. Someone else may have it locked.")),
                            None, None, None)
              else Response(SUCCESS, Some(Ascii("Lock acquired successfully")), None, None, None, None)
    {
      var valid := ValidateToken(req, now);
      if !valid {
        return Failure("Invalid token");
      }
      var owns := ValidateHardwareLock(req);
      if owns {
        return Response(WARNING, None, Some(Ascii("You already have a hardware lock")), None, None, None);
      }
      var token := TokenOf(req);
      if token == "" {
        return Failure("No token provided");
      }
      var acquired := manager.AcquireLock(token);
      if !acquired {
        return Failure("Failed to acquire lock. Someone else may have it locked.");
      }
      return Success("Lock acquired successfully");
    }

    method HandleRelease(req: C.DecodedRequest, now: int) returns (res: Response)
      modifies manager
      ensures manager.Model() == Handled(old(manager.Model()), LP.ReleaseRequest, TokenOf(req), now)
      ensures res ==
              if Authorised(old(manager.Model()), TokenOf(req))
              then Response(SUCCESS, Some(Ascii("Lock released successfully")), None, None, None, None)
              else Refused(old(manager.Model()), TokenOf(req))
    {
      var valid := ValidateToken(req, now);
      if !valid {
        return Failure("Invalid token");
      }
      var owns := ValidateHardwareLock(req);
      if !owns {
        return Failure("Hardware lock not acquired");
      }
      var released := manager.ReleaseLock(TokenOf(req));
      return Success("Lock released successfully");
    }

    /** Only the lock holder learns of a task, and a finished one only once. */
    method HandleCheckTask(req: C.DecodedRequest, now: int) returns (res: Response)
      requires tasker.Valid()
      modifies manager`sessions, tasker`tasks
      ensures tasker.Valid()
      ensures manager.Model() == Handled(old(manager.Model()), LP.CheckRequest, TokenOf(req), now)
      ensures !Authorised(old(manager.Model()), TokenOf(req)) ==>
                res == Refused(old(manager.Model()), TokenOf(req)) && tasker.View() == old(tasker.View())
      ensures Authorised(old(manager.Model()), TokenOf(req)) && req.taskId.Some? ==>
                && res == Report(old(tasker.View()), req.taskId.value)
                && (res.Response? ==> tasker.View() == AfterReport(old(tasker.View()), req.taskId.value))
      ensures Authorised(old(manager.Model()), TokenOf(req)) && req.taskId.None? ==>
                res == Exception("bad optional access") && tasker.View() == old(tasker.View())
    {
      hide Report, AfterReport, Ascii, Touch;
      var valid := ValidateToken(req, now);
      if !valid {
        return Failure("Invalid token");
      }
      var owns := ValidateHardwareLock(req);
      if !owns {
        return Failure("Hardware lock not acquired");
      }
      if req.taskId.None? {
        return Exception("bad optional access");
      }
      res := TakeReport(req.taskId.value);
    }

    /** Decides on a copy of the task, then erases the stored one if the copy was finished. */
    method TakeReport(id: nat) returns (res: Response)
      requires tasker.Valid()
      modifies tasker`tasks
      ensures tasker.Valid()
      ensures res == Report(old(tasker.View()), id)
      ensures res.Response? ==> tasker.View() == AfterReport(old(tasker.View()), id)
    {
      hide ReportTask;
      var task := tasker.GetTask(id);
      if task == null {
        return Failure("Task ID not found in registry");
      }
      res := ReportOn(task);
      if res.Response? && (task.state == R.Completed || task.state == R.Failed) {
        var removed := tasker.RemoveTask(id);
      }
    }

    method ReportOn(task: T.Task) returns (res: Response)
      ensures res == ReportTask(task.Record())
    {
      if task.state == R.Completed {
        if AsksStatus(task.request) {
          var unpacked := Telemetry.UnpackRobotStatus(task.response);
          match unpacked {
            case TooSmall => return UNREADABLE;
            case OutOfBounds => return Undefined;
            case Status(status) => return Completed(None, Some(status));
          }
        }
        return Completed(Some(task.response), None);
      }
      if task.state == R.Pending || task.state == R.InProgress {
        return Progress(task.state, None);
      }
      var text := if task.response == [] then Ascii("Task execution failed at robot controller") else task.response;
      return Progress(task.state, Some(text));
    }

    /** A command becomes a task exactly for the lock holder, with the robot connected and the message packable. */
    method HandleRobotCommand(req: C.DecodedRequest, now: int, connected: bool) returns (res: Response)
      requires tasker.Valid() && req.Valid()
      modifies manager`sessions, tasker
      ensures tasker.Valid()
      ensures manager.Model() == Handled(old(manager.Model()), LP.CommandRequest, TokenOf(req), now)
      ensures !Authorised(old(manager.Model()), TokenOf(req)) ==> res == Refused(old(manager.Model()), TokenOf(req))
      ensures
        var packed := C.Request(req);
        if Authorised(old(manager.Model()), TokenOf(req)) && connected && packed.Message? then
          && tasker.View() == R.Insert(old(tasker.View()), old(tasker.counter), C.Serialize(packed.msg), now)
          && tasker.queue == old(tasker.queue) + [old(tasker.counter)]
          && res == TaskAdded(old(tasker.counter))
        else
          && tasker.View() == old(tasker.View()) && tasker.queue == old(tasker.queue)
          && (res.Response? ==> res.status.ERROR?)
      ensures Authorised(old(manager.Model()), TokenOf(req)) && !connected ==> res == Failure("Robot not connected")
      ensures Authorised(old(manager.Model()), TokenOf(req)) && connected && !C.Request(req).Message? ==>
                res == if C.Request(req).Undefined? then Undefined
                       else Failure("ERR_SERVER_EXCEPTION: " + C.Request(req).text)
    {
      hide Ascii, Touch, C.Serialize, C.Request;
      var valid := ValidateToken(req, now);
      if !valid {
        return Failure("Invalid token");
      }
      var owns := ValidateHardwareLock(req);
      if !owns {
        return Failure("Hardware lock not acquired");
      }
      if !connected {
        return Failure("Robot not connected");
      }
      res := AddCommand(req, now);
    }

    /** Packs the message and adds the task; packing can throw. */
    method AddCommand(req: C.DecodedRequest, now: int) returns (res: Response)
      requires tasker.Valid() && req.Valid()
      modifies tasker
      ensures tasker.Valid()
      ensures
        var packed := C.Request(req);
        if packed.Message? then
          && tasker.View() == R.Insert(old(tasker.View()), old(tasker.counter), C.Serialize(packed.msg), now)
          && tasker.queue == old(tasker.queue) + [old(tasker.counter)]
          && res == TaskAdded(old(tasker.counter))
        else
          && tasker.View() == old(tasker.View()) && tasker.queue == old(tasker.queue)
          && res == if packed.Undefined? then Undefined else Failure("ERR_SERVER_EXCEPTION: " + packed.text)
    {
      hide C.Request, C.Serialize, Ascii;
      var packed := C.CreateRapidRequest(req);
      match packed {
        case InvalidArgument(text) => return Exception(text);
        case Undefined => return Undefined;
        case Message(msg) =>
          var id := tasker.AddTask(C.Serialize(msg), now);
          return TaskAdded(id);
      }
    }
  }
}
