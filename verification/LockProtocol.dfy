/**
 * Sessions and the hardware lock under interleaving: the single request thread runs its
 * handlers one mutex section at a time while the sweeper runs its own sections in between.
 */
module LockProtocol {
  import opened Bytes
  import opened SessionTable

  datatype Kind = LogoutRequest | AcquireRequest | ReleaseRequest | CheckRequest | CommandRequest

  /** Where the request thread is in a handler. */
  datatype Handler =
    | Idle
    | Validated(kind: Kind, token: Token)   // is_valid_token said yes, touch_session next
    | Touched(kind: Kind, token: Token)     // has_lock next
    | Owning(kind: Kind, token: Token)      // has_lock said yes
    | Wanting(token: Token)                 // ACQUIRE, has_lock said no
    | LeavingSession(token: Token)          // LOGOUT, session still to be erased

  /** What happened to the lock and to the task queue, in order. */
  datatype Entry = Acquired(token: Token, live: bool) | Freed(token: Token) | Added(token: Token)

  datatype State = State(
    tables: Tables,
    clock: int,
    handler: Handler,
    // history
    issued: set<Token>,
    log: seq<Entry>)

  datatype Event =
    | LoginStep(username: string, password: string, drawn: Token)
    | Begin(kind: Kind, token: Token)   // is_valid_token
    | TouchStep                         // touch_session
    | Ask                               // has_lock
    | AcquireStep | ReleaseStep | EraseStep
    | AddTask | Refuse                  // robot connected, or not
    | SweepStep(timeout: int)
    | Tick(elapsed: nat)

  function Init(users: map<string, string>): State {
    State(Tables(users, map[], None), 0, Idle, {}, [])
  }

  /** The one assumption: a drawn token was never drawn before. */
  predicate Enabled(s: State, e: Event) {
    match e
    case LoginStep(_, _, drawn) => s.handler.Idle? && drawn !in s.issued
    case Begin(_, _) => s.handler.Idle?
    case TouchStep => s.handler.Validated?
    case Ask => s.handler.Touched?
    case AcquireStep => s.handler.Wanting?
    case ReleaseStep => s.handler.Owning? && (s.handler.kind.LogoutRequest? || s.handler.kind.ReleaseRequest?)
    case EraseStep => s.handler.LeavingSession?
    case AddTask => s.handler.Owning? && s.handler.kind.CommandRequest?
    case Refuse => s.handler.Owning? && s.handler.kind.CommandRequest?
    case SweepStep(_) => true
    case Tick(_) => true
  }

  function AfterAsk(s: State): Handler
    requires s.handler.Touched?
  {
    var kind, token := s.handler.kind, s.handler.token;
    var owns := s.tables.lock == Some(token);
    match kind
    case LogoutRequest => if owns then Owning(kind, token) else LeavingSession(token)
    case AcquireRequest => if owns || token == "" then Idle else Wanting(token)
    case ReleaseRequest => if owns then Owning(kind, token) else Idle
    case CheckRequest => Idle
    case CommandRequest => if owns then Owning(kind, token) else Idle
  }

  /** The log entry for a lock that a section has freed, if it has. */
  function Freeing(before: Tables, after: Tables): seq<Entry> {
    if before.lock.Some? && after.lock.None? then [Freed(before.lock.value)] else []
  }

  function Apply(s: State, e: Event): State
    requires Enabled(s, e)
  {
    match e
    case LoginStep(username, password, drawn) =>
      var tables := SessionTable.Login(s.tables, username, password, drawn);
      s.(tables := tables, issued := if tables == s.tables then s.issued else s.issued + {drawn})
    case Begin(kind, token) =>
      if token in s.tables.sessions then s.(handler := Validated(kind, token)) else s
    case TouchStep =>
      s.(tables := Touch(s.tables, s.handler.token, s.clock), handler := Touched(s.handler.kind, s.handler.token))
    case Ask => s.(handler := AfterAsk(s))
    case AcquireStep =>
      var token := s.handler.token;
      if s.tables.lock.None?
      then s.(tables := Acquire(s.tables, token), handler := Idle,
              log := s.log + [Acquired(token, token in s.tables.sessions)])
      else s.(handler := Idle)
    case ReleaseStep =>
      var tables := Release(s.tables, s.handler.token);
      s.(tables := tables, log := s.log + Freeing(s.tables, tables),
         handler := if s.handler.kind.LogoutRequest? then LeavingSession(s.handler.token) else Idle)
    case EraseStep => s.(tables := SessionTable.Logout(s.tables, s.handler.token), handler := Idle)
    case AddTask => s.(log := s.log + [Added(s.handler.token)], handler := Idle)
    case Refuse => s.(handler := Idle)
    case SweepStep(timeout) =>
      var tables := Sweep(s.tables, timeout, s.clock);
      s.(tables := tables, log := s.log + Freeing(s.tables, tables))
    case Tick(elapsed) => s.(clock := s.clock + elapsed)
  }

  function Run(s: State, es: seq<Event>): Option<State>
    decreases |es|
  {
    if es == [] then Some(s)
    else if Enabled(s, es[0]) then Run(Apply(s, es[0]), es[1..])
    else None
  }

  ghost predicate Reached(s: State, users: map<string, string>, es: seq<Event>) {
    Run(Init(users), es) == Some(s)
  }

  // ----- reading the log -----

  /** Who holds the lock after the logged events. */
  function Holder(log: seq<Entry>): Option<Token> {
    if log == [] then None
    else
      var last := log[|log| - 1];
      match last
      case Acquired(token, _) => Some(token)
      case Freed(_) => None
      case Added(_) => Holder(log[..|log| - 1])
  }

  /** The last acquisition logged. */
  function LastAcquired(log: seq<Entry>): (r: Option<Entry>)
    ensures r.Some? ==> r.value.Acquired?
  {
    if log == [] then None
    else if log[|log| - 1].Acquired? then Some(log[|log| - 1])
    else LastAcquired(log[..|log| - 1])
  }

  predicate AcquiredBy(log: seq<Entry>, token: Token) {
    LastAcquired(log).Some? && LastAcquired(log).value.token == token
  }

  /**
   * The discipline of the log: the lock is acquired only when free and freed only by or for its
   * holder, and every added task comes from the last token to have acquired the lock, with the
   * lock still that token's or (by expiry) free.
   */
  predicate Disciplined(log: seq<Entry>) {
    log == [] ||
    var before, last := log[..|log| - 1], log[|log| - 1];
    && Disciplined(before)
    && match last
       case Acquired(_, _) => Holder(before).None?
       case Freed(token) => Holder(before) == Some(token)
       case Added(token) => AcquiredBy(before, token) && (Holder(before) == Some(token) || Holder(before).None?)
  }

  // ----- invariant -----

  predicate TokenInv(s: State) {
    && s.tables.sessions.Keys <= s.issued
    && (s.tables.lock.Some? ==> s.tables.lock.value in s.issued)
    && (!s.handler.Idle? ==> s.handler.token in s.issued)
  }

  /** What the request thread knows of the token it validated. */
  predicate HandlerInv(s: State) {
    var mine := !s.handler.Idle? && s.tables.lock == Some(s.handler.token);
    && (mine ==> s.handler.token in s.tables.sessions)
    && (s.handler.Owning? ==> s.tables.lock.None? || mine)
    && (s.handler.Owning? ==> AcquiredBy(s.log, s.handler.token))
    && (s.handler.Wanting? || s.handler.LeavingSession? ==> !mine)
  }

  /** The log tells the lock, and a held lock is a live session's exactly if it was so when acquired. */
  predicate LogInv(s: State) {
    && Disciplined(s.log)
    && Holder(s.log) == s.tables.lock
    && (s.tables.lock.Some? ==>
          && AcquiredBy(s.log, s.tables.lock.value)
          && (LastAcquired(s.log).value.live <==> s.tables.lock.value in s.tables.sessions))
  }

  ghost predicate Inv(s: State) {
    && TokenInv(s)
    && HandlerInv(s)
    && LogInv(s)
    && TableInv(s.tables)
  }

  /** Each step logs at most one entry. */
  lemma OneEntry(s: State, e: Event)
    requires Enabled(s, e)
    ensures
      var t := Apply(s, e);
      t.log == s.log || (t.log != [] && t.log[..|t.log| - 1] == s.log)
  {
  }

  lemma StepToken(s: State, e: Event)
    requires TokenInv(s) && HandlerInv(s) && Enabled(s, e)
    ensures TokenInv(Apply(s, e))
  {
    hide LastAcquired;
  }

  lemma StepTable(s: State, e: Event)
    requires TableInv(s.tables) && Enabled(s, e)
    ensures TableInv(Apply(s, e).tables)
  {
  }

  lemma StepHandler(s: State, e: Event)
    requires Inv(s) && Enabled(s, e)
    ensures HandlerInv(Apply(s, e))
  {
    hide Disciplined, TableInv;
    OneEntry(s, e);
  }

  lemma StepLog(s: State, e: Event)
    requires Inv(s) && Enabled(s, e)
    ensures LogInv(Apply(s, e))
  {
    hide TableInv;
    OneEntry(s, e);
  }

  lemma StepInv(s: State, e: Event)
    requires Inv(s) && Enabled(s, e)
    ensures Inv(Apply(s, e))
  {
    hide Apply, Enabled, TokenInv, HandlerInv, LogInv, TableInv;
    StepToken(s, e);
    StepTable(s, e);
    StepHandler(s, e);
    StepLog(s, e);
  }
}
