/**
 * The lock protocol and the whole server side by side: the request thread's command handler
 * ends in addTask, which both see. Sessions and lock say who may add a task; the server says
 * what becomes of it.
 */
module Gateway {
  import opened Bytes
  import opened SessionTable
  import LP = LockProtocol
  import LI = RobotLinkInvariant
  import M = Middleware
  import P = Pipeline
  import PI = PipelineInvariant
  import L = RobotLink
  import R = TaskRecord

  datatype State = State(lock: LP.State, server: M.State)

  datatype Event =
    | Lock(le: LP.Event)          // a section of a handler, or the session sweep
    | Server(me: M.Event)         // any other step of the server
    | AddTask(request: seq<byte>) // the handler's addTask draws an id

  function Init(users: map<string, string>): State {
    State(LP.Init(users), M.INIT)
  }

  predicate IsReserve(e: M.Event) {
    e.Tasks? && e.pe.Reserve?
  }

  predicate IsCheck(e: M.Event) {
    e.Tasks? && e.pe.Check?
  }

  /** There is one request thread: it runs no handler section while it is in addTask or erasing a reported task. */
  predicate Enabled(s: State, e: Event) {
    match e
    case Lock(le) =>
      && !le.AddTask? && LP.Enabled(s.lock, le)
      && (le.SweepStep? || le.Tick? || s.server.p.requester.Ready?)
    case Server(me) =>
      && !IsReserve(me) && M.Enabled(s.server, me)
      && (IsCheck(me) ==> s.lock.handler.Idle?)
    case AddTask(request) =>
      && LP.Enabled(s.lock, LP.AddTask)
      && M.Enabled(s.server, M.Tasks(P.Reserve(request)))
  }

  function Apply(s: State, e: Event): State
    requires Enabled(s, e)
  {
    match e
    case Lock(le) => s.(lock := LP.Apply(s.lock, le))
    case Server(me) => s.(server := M.Apply(s.server, me))
    case AddTask(request) =>
      State(LP.Apply(s.lock, LP.AddTask), M.Apply(s.server, M.Tasks(P.Reserve(request))))
  }

  function Run(s: State, es: seq<Event>): Option<State>
    decreases |es|
  {
    if es == [] then Some(s)
    else if Enabled(s, es[0]) then Run(Apply(s, es[0]), es[1..])
    else None
  }

  ghost predicate Reached(s: State, users: map<string, string>, es: seq<Event>) {
    Run(Init(users), es) == Some(s)
  }

  /** The tokens that added tasks, in the order of the tasks' ids. */
  function Adders(log: seq<LP.Entry>): seq<Token> {
    if log == [] then []
    else
      var n := |log| - 1;
      Adders(log[..n]) + if log[n].Added? then [log[n].token] else []
  }

  ghost predicate Inv(s: State) {
    && LP.Inv(s.lock)
    && M.Inv(s.server)
    && |Adders(s.lock.log)| == |s.server.p.requests|
  }

  lemma InitInv(users: map<string, string>)
    ensures Inv(Init(users))
  {
    PI.InitInv();
    LI.InitInv();
    hide PI.Inv, LI.Inv;
  }

  /** A section of a handler adds a task exactly if it is the addTask. */
  lemma LockSteps(s: LP.State, e: LP.Event)
    requires LP.Enabled(s, e)
    ensures |Adders(LP.Apply(s, e).log)| == |Adders(s.log)| + if e.AddTask? then 1 else 0
  {
    LP.OneEntry(s, e);
    EntryIsAdded(s, e);
    hide LP.Apply, LP.Enabled;
  }

  lemma EntryIsAdded(s: LP.State, e: LP.Event)
    requires LP.Enabled(s, e)
    ensures
      var t := LP.Apply(s, e);
      if e.AddTask? then t.log != s.log && t.log != [] && t.log[|t.log| - 1].Added?
      else t.log == s.log || (t.log != [] && !t.log[|t.log| - 1].Added?)
  {
  }

  lemma ServerSteps(s: M.State, e: M.Event)
    requires M.Enabled(s, e)
    ensures |M.Apply(s, e).p.requests| == |s.p.requests| + if IsReserve(e) then 1 else 0
  {
    M.PartsEnabled(s, e);
    if M.TasksPart(s, e).Some? {
      RequestsAdded(s.p, M.TasksPart(s, e).value);
    }
    hide P.Apply, L.Apply, P.Enabled, L.Enabled;
  }

  lemma RequestsAdded(p: P.State, e: P.Event)
    requires P.Enabled(p, e)
    ensures |P.Apply(p, e).requests| == |p.requests| + if e.Reserve? then 1 else 0
  {
    if PI.ByRequester(e) {
      hide P.Judge, R.Insert, R.Start, R.Finish, R.Remove, R.Sweep, R.Sweepable;
    } else {
      PI.RequesterFrame(p, e);
    }
  }

  lemma StepInv(s: State, e: Event)
    requires Inv(s) && Enabled(s, e)
    ensures Inv(Apply(s, e))
  {
    hide LP.Inv, M.Inv, LP.Apply, M.Apply, LP.Enabled, M.Enabled, Adders;
    match e {
      case Lock(le) =>
        LP.StepInv(s.lock, le);
        LockSteps(s.lock, le);
      case Server(me) =>
        M.StepInv(s.server, me);
        ServerSteps(s.server, me);
      case AddTask(request) =>
        LP.StepInv(s.lock, LP.AddTask);
        LockSteps(s.lock, LP.AddTask);
        M.StepInv(s.server, M.Tasks(P.Reserve(request)));
        ServerSteps(s.server, M.Tasks(P.Reserve(request)));
    }
  }

  lemma {:induction false} RunInv(s: State, es: seq<Event>)
    requires Inv(s) && Run(s, es).Some?
    ensures Inv(Run(s, es).value)
    decreases |es|
  {
    hide Apply, Inv;
    if es != [] {
      StepInv(s, es[0]);
      RunInv(Apply(s, es[0]), es[1..]);
    }
  }

  /** Log position p is the addition of task id, by the last token to have acquired the lock. */
  predicate AddedByOwner(log: seq<LP.Entry>, p: nat, id: nat) {
    && p < |log| && log[p].Added?
    && |Adders(log[..p])| + 1 == id
    && LP.AcquiredBy(log[..p], log[p].token)
  }

  lemma {:induction false} AdditionLogged(log: seq<LP.Entry>, id: nat) returns (p: nat)
    requires LP.Disciplined(log) && 1 <= id <= |Adders(log)|
    ensures AddedByOwner(log, p, id)
    decreases |log|
  {
    var n := |log| - 1;
    if id <= |Adders(log[..n])| {
      p := AdditionLogged(log[..n], id);
      assert log[..n][..p] == log[..p];
    } else {
      p := n;
    }
  }

  /**
   * Every request that reaches the controller, in whole or in part, belongs to a task that was
   * added by the token that acquired the lock last before; in every interleaving of handlers,
   * session sweep, workers, network and controller.
   */
  lemma ReadWasAddedByLockOwner(s: State, users: map<string, string>, es: seq<Event>, a: nat, k: nat)
    requires Reached(s, users, es) && a < |s.server.l.served|
    requires LI.HoldsTicket(s.server.l.conns, s.server.l.served[a].conn, s.server.l.served[a].index, k)
    ensures exists id: nat, p: nat :: M.ReadOf(s.server, a, k, id) && AddedByOwner(s.lock.log, p, id)
  {
    hide M.Inv, LP.TokenInv, LP.HandlerInv, TableInv;
    InitInv(users);
    RunInv(Init(users), es);
    var id := M.TicketHasTask(s.server, k, s.server.l.served[a].conn, s.server.l.served[a].index);
    assert M.ReadOf(s.server, a, k, id);
    var p := AdditionLogged(s.lock.log, id);
  }

  // ----- whose lock a request is carried out under -----

  /** The token acquired the lock at log position q and has not lost it since. */
  ghost predicate HoldsSince(log: seq<LP.Entry>, q: nat, token: Token) {
    && q < |log| && log[q].Acquired? && log[q].token == token
    && forall r | q < r < |log| :: !log[r].Freed?
  }

  ghost predicate StillHolds(log: seq<LP.Entry>, token: Token) {
    exists q: nat :: HoldsSince(log, q, token)
  }

  /** The holder is the token that acquired the lock last, if nothing was freed since. */
  lemma {:induction false} HolderExactlyIf(log: seq<LP.Entry>, token: Token)
    requires LP.Disciplined(log)
    ensures LP.Holder(log) == Some(token) <==> StillHolds(log, token)
    decreases |log|
  {
    if log != [] {
      var n := |log| - 1;
      var before, last := log[..n], log[n];
      HolderExactlyIf(before, token);
      match last {
        case Acquired(t, _) =>
          if t == token {
            assert HoldsSince(log, n, token);
          } else if StillHolds(log, token) {
            HoldsBefore(log, token);
          }
        case Freed(_) =>
        case Added(_) =>
          if StillHolds(log, token) {
            HoldsBefore(log, token);
          } else if StillHolds(before, token) {
            var q: nat :| HoldsSince(before, q, token);
            assert HoldsSince(log, q, token);
          }
      }
    }
  }

  lemma HoldsBefore(log: seq<LP.Entry>, token: Token)
    requires log != [] && StillHolds(log, token)
    requires var last := log[|log| - 1]; last.Acquired? ==> last.token != token
    ensures StillHolds(log[..|log| - 1], token)
  {
    var q: nat :| HoldsSince(log, q, token);
    assert HoldsSince(log[..|log| - 1], q, token);
  }

  /**
   * When the controller comes to read a request, the lock is held by the token that added its
   * task exactly if that token's acquisition of then, or a later one of its own, was not ended
   * by a release, a logout or an expiry. Nothing recalls the requests of a token that lost it.
   */
  lemma ReadUnderAddersLockExactlyIf(s: State, users: map<string, string>, es: seq<Event>,
                                     c: nat, answers: seq<seq<byte>>, k: nat)
    requires Reached(s, users, es) && Enabled(s, Server(M.Link(L.Serve(c, answers))))
    requires LI.HoldsTicket(s.server.l.conns, c, s.server.l.conns[c].consumed, k)
    ensures exists id: nat, p: nat ::
              && M.OwnedBy(s.server.p, k, id) && AddedByOwner(s.lock.log, p, id)
              && (s.lock.tables.lock == Some(s.lock.log[p].token) <==> StillHolds(s.lock.log, s.lock.log[p].token))
  {
    hide M.Inv, LP.TokenInv, LP.HandlerInv, TableInv;
    InitInv(users);
    RunInv(Init(users), es);
    var id := M.TicketHasTask(s.server, k, c, s.server.l.conns[c].consumed);
    var p := AdditionLogged(s.lock.log, id);
    HolderExactlyIf(s.lock.log, s.lock.log[p].token);
  }

  lemma {:induction false} RunSnoc(s: State, es: seq<Event>, e: Event)
    requires Run(s, es).Some? && Enabled(Run(s, es).value, e)
    ensures Run(s, es + [e]) == Some(Apply(Run(s, es).value, e))
    decreases |es|
  {
    hide Apply;
    if es == [] {
      assert [e][1..] == [];
    } else {
      assert (es + [e])[1..] == es[1..] + [e];
      RunSnoc(Apply(s, es[0]), es[1..], e);
    }
  }

  lemma Extend(users: map<string, string>, es: seq<Event>, s: State, e: Event) returns (es': seq<Event>, s': State)
    requires Reached(s, users, es) && Enabled(s, e)
    ensures s' == Apply(s, e) && Reached(s', users, es')
  {
    RunSnoc(Init(users), es, e);
    es', s' := es + [e], Apply(s, e);
  }

  /** A section of the lock protocol, with the request thread free. */
  lemma Section(users: map<string, string>, es: seq<Event>, s: State, e: LP.Event) returns (es': seq<Event>, s': State)
    requires Reached(s, users, es) && !e.AddTask? && LP.Enabled(s.lock, e) && s.server.p.requester.Ready?
    ensures Reached(s', users, es') && s'.lock == LP.Apply(s.lock, e) && s'.server == s.server
  {
    hide LP.Apply, Reached;
    es', s' := Extend(users, es, s, Lock(e));
  }

  /** A step of the pipeline alone. */
  lemma Task(users: map<string, string>, es: seq<Event>, s: State, e: P.Event) returns (es': seq<Event>, s': State)
    requires Reached(s, users, es) && !e.Reserve? && !e.Check? && M.OwnTasks(e) && P.Enabled(s.server.p, e)
    ensures Reached(s', users, es') && s'.lock == s.lock
    ensures s'.server.p == P.Apply(s.server.p, e) && s'.server.l == s.server.l
  {
    hide P.Apply, Reached;
    es', s' := Extend(users, es, s, Server(M.Tasks(e)));
  }

  /** A step of the link alone. */
  lemma Link(users: map<string, string>, es: seq<Event>, s: State, e: L.Event) returns (es': seq<Event>, s': State)
    requires Reached(s, users, es) && M.OwnLink(s.server, e) && L.Enabled(s.server.l, e)
    ensures Reached(s', users, es') && s'.lock == s.lock
    ensures s'.server.l == L.Apply(s.server.l, e) && s'.server.p == s.server.p
  {
    hide L.Apply, Reached;
    es', s' := Extend(users, es, s, Server(M.Link(e)));
  }

  /** A user logs in and acquires the free lock. */
  lemma LogInAndAcquire(users: map<string, string>, es: seq<Event>, s: State, name: string, token: Token)
      returns (es': seq<Event>, s': State)
    requires Reached(s, users, es) && s.server.p.requester.Ready? && s.lock.handler.Idle?
    requires token != "" && token !in s.lock.issued && s.lock.tables.lock.None? && token !in s.lock.tables.sessions
    requires name in s.lock.tables.users && !LoggedIn(s.lock.tables.sessions, name)
    ensures Reached(s', users, es') && s'.server == s.server && s'.lock.handler.Idle?
    ensures s'.lock.tables.users == s.lock.tables.users && s'.lock.tables.lock == Some(token)
    ensures s'.lock.tables.sessions == s.lock.tables.sessions[token := Session(name, s.lock.clock)]
    ensures s'.lock.log == s.lock.log + [LP.Acquired(token, true)]
    ensures s'.lock.issued == s.lock.issued + {token} && s'.lock.clock == s.lock.clock
  {
    hide Run, Reached;
    es', s' := Section(users, es, s, LP.LoginStep(name, s.lock.tables.users[name], token));
    es', s' := Section(users, es', s', LP.Begin(LP.AcquireRequest, token));
    es', s' := Section(users, es', s', LP.TouchStep);
    es', s' := Section(users, es', s', LP.Ask);
    es', s' := Section(users, es', s', LP.AcquireStep);
  }

  /** The holder's command adds a task. */
  lemma Command(users: map<string, string>, es: seq<Event>, s: State, token: Token, request: seq<byte>)
      returns (es': seq<Event>, s': State)
    requires Reached(s, users, es) && s.server == M.INIT && s.lock.handler.Idle?
    requires token in s.lock.tables.sessions && s.lock.tables.lock == Some(token)
    ensures Reached(s', users, es') && s'.server.l == L.INIT && s'.lock.handler.Idle?
    ensures s'.lock.tables.users == s.lock.tables.users && s'.lock.tables.lock == Some(token)
    ensures s'.lock.tables.sessions ==
            s.lock.tables.sessions[token := s.lock.tables.sessions[token].(lastSeen := s.lock.clock)]
    ensures s'.lock.log == s.lock.log + [LP.Added(token)]
    ensures s'.lock.issued == s.lock.issued && s'.lock.clock == s.lock.clock
    ensures s'.server.p == P.State(2, map[1 := R.NewTask(1, request, 0)], [1], P.Nobody, false, true, 0,
                                   P.Ready, P.AtTop, P.Running, [request], [], [], multiset{}, [])
  {
    hide Run, Reached;
    es', s' := Section(users, es, s, LP.Begin(LP.CommandRequest, token));
    es', s' := Section(users, es', s', LP.TouchStep);
    es', s' := Section(users, es', s', LP.Ask);
    es', s' := Extend(users, es', s', AddTask(request));
    hide Apply;
    es', s' := Task(users, es', s', P.InsertTask);
    es', s' := Task(users, es', s', P.LockForPush);
    es', s' := Task(users, es', s', P.Push);
    es', s' := Task(users, es', s', P.UnlockPush);
    es', s' := Task(users, es', s', P.NotifyOne);
  }

  /** The holder releases the lock. */
  lemma LetGo(users: map<string, string>, es: seq<Event>, s: State, token: Token) returns (es': seq<Event>, s': State)
    requires Reached(s, users, es) && s.server.p.requester.Ready? && s.lock.handler.Idle?
    requires token in s.lock.tables.sessions && s.lock.tables.lock == Some(token)
    ensures Reached(s', users, es') && s'.server == s.server && s'.lock.handler.Idle?
    ensures s'.lock.tables.users == s.lock.tables.users && s'.lock.tables.lock.None?
    ensures s'.lock.tables.sessions ==
            s.lock.tables.sessions[token := s.lock.tables.sessions[token].(lastSeen := s.lock.clock)]
    ensures s'.lock.log == s.lock.log + [LP.Freed(token)]
    ensures s'.lock.issued == s.lock.issued && s'.lock.clock == s.lock.clock
  {
    hide Run, Reached;
    es', s' := Section(users, es, s, LP.Begin(LP.ReleaseRequest, token));
    es', s' := Section(users, es', s', LP.TouchStep);
    es', s' := Section(users, es', s', LP.Ask);
    es', s' := Section(users, es', s', LP.ReleaseStep);
  }

  /** The worker takes the one task, starts it and fetches its request. */
  lemma Fetch(users: map<string, string>, es: seq<Event>, s: State, request: seq<byte>)
      returns (es': seq<Event>, s': State)
    requires Reached(s, users, es)
    requires s.server.p == P.State(2, map[1 := R.NewTask(1, request, 0)], [1], P.Nobody, false, true, 0,
                                   P.Ready, P.AtTop, P.Running, [request], [], [], multiset{}, [])
    ensures Reached(s', users, es') && s'.lock == s.lock && s'.server.l == s.server.l
    ensures s'.server.p.worker == P.Probing(1, request)
  {
    hide Run, Reached, Apply;
    es', s' := Task(users, es, s, P.ReadRunning);
    es', s' := Task(users, es', s', P.LockQueue);
    es', s' := Task(users, es', s', P.Test);
    es', s' := Task(users, es', s', P.Pop);
    es', s' := Task(users, es', s', P.UnlockPop);
    es', s' := Task(users, es', s', P.StartTask);
    es', s' := Task(users, es', s', P.FetchTask);
  }

  /** The worker takes the one task and the link sends its request. */
  lemma WorkOff(users: map<string, string>, es: seq<Event>, s: State, request: seq<byte>)
      returns (es': seq<Event>, s': State)
    requires Reached(s, users, es) && s.server.l == L.INIT
    requires s.server.p == P.State(2, map[1 := R.NewTask(1, request, 0)], [1], P.Nobody, false, true, 0,
                                   P.Ready, P.AtTop, P.Running, [request], [], [], multiset{}, [])
    ensures Reached(s', users, es') && s'.lock == s.lock && M.OwnedBy(s'.server.p, 0, 1)
    ensures s'.server.l.conns == [L.Conn([L.Message(L.Client(0), request)], 0, [])] && s'.server.l.served == []
  {
    hide Run, Reached, Apply;
    es', s' := Fetch(users, es, s, request);
    es', s' := Link(users, es', s', L.ReadRunning);
    es', s' := Link(users, es', s', L.Connect(true));
    es', s' := SubmitOne(users, es', s', request);
    es', s' := Link(users, es', s', L.Take);
    es', s' := Link(users, es', s', L.Send);
    assert s'.server.l.conns[0].sent == [L.Message(L.Client(0), request)];
  }

  lemma SubmitOne(users: map<string, string>, es: seq<Event>, s: State, request: seq<byte>)
      returns (es': seq<Event>, s': State)
    requires Reached(s, users, es) && s.server.p.worker == P.Probing(1, request)
    requires s.server.l == L.State([], [], [], L.Choosing, true, true, Some(0), [L.Conn([], 0, [])], [])
    ensures Reached(s', users, es') && s'.lock == s.lock && s'.server.p.worker == P.Waiting(1, 0)
    ensures s'.server.l == L.State([request], [L.Unset], [L.Message(L.Client(0), request)], L.Choosing,
                                   true, true, Some(0), [L.Conn([], 0, [])], [])
  {
    hide Run, Reached, P.Judge, R.Insert, R.Start, R.Finish, R.Remove, R.Sweep, R.Sweepable, L.SetPromise, L.Tagged;
    es', s' := Extend(users, es, s, Server(M.ReadConnected));
    es', s' := Extend(users, es', s', Server(M.Submit));
  }

  /** One client adds a task and releases the lock, and another acquires it. */
  lemma PassOn(users: map<string, string>, request: seq<byte>) returns (es: seq<Event>, s: State)
    requires "u" in users && "v" in users
    ensures Reached(s, users, es) && s.server.l == L.INIT
    ensures s.lock.tables.lock == Some("b") && "b" in s.lock.tables.sessions
    ensures s.lock.log == [LP.Acquired("a", true), LP.Added("a"), LP.Freed("a"), LP.Acquired("b", true)]
    ensures s.server.p == P.State(2, map[1 := R.NewTask(1, request, 0)], [1], P.Nobody, false, true, 0,
                                  P.Ready, P.AtTop, P.Running, [request], [], [], multiset{}, [])
  {
    es, s := [], Init(users);
    assert Reached(s, users, es);
    hide Run, Reached, Apply, LP.Apply, P.Apply, R.NewTask;
    es, s := LogInAndAcquire(users, es, s, "u", "a");
    es, s := Command(users, es, s, "a", request);
    es, s := LetGo(users, es, s, "a");
    es, s := LogInAndAcquire(users, es, s, "v", "b");
  }

  lemma PassedOn(log: seq<LP.Entry>)
    requires log == [LP.Acquired("a", true), LP.Added("a"), LP.Freed("a"), LP.Acquired("b", true)]
    ensures AddedByOwner(log, 1, 1)
  {
    assert log[..1] == [LP.Acquired("a", true)];
  }

  /**
   * It does happen: a client adds a task and releases the lock, another acquires it, and then
   * the controller reads the first one's request.
   */
  lemma ReadUnderAnothersLock(request: seq<byte>, answer: seq<byte>)
      returns (users: map<string, string>, es: seq<Event>, s: State)
    ensures Reached(s, users, es) && s.lock.tables.lock == Some("b") && "b" in s.lock.tables.sessions
    ensures |s.lock.log| == 4 && s.lock.log[1] == LP.Added("a") && AddedByOwner(s.lock.log, 1, 1)
    ensures s.server.l.served == [L.Served(0, 0, [answer])] && M.OwnedBy(s.server.p, 0, 1)
    ensures |s.server.l.conns| == 1 && s.server.l.conns[0].sent == [L.Message(L.Client(0), request)]
  {
    users := map["u" := "p", "v" := "q"];
    hide Run, Reached, Apply, LP.Apply, P.Apply, R.NewTask, AddedByOwner, M.OwnedBy;
    es, s := PassOn(users, request);
    PassedOn(s.lock.log);
    es, s := WorkOff(users, es, s, request);
    es, s := Link(users, es, s, L.Serve(0, [answer]));
  }
}
