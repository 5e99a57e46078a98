/** What the lock guarantees over all interleavings, where it fails, and when it does not. */
module LockTheorems {
  import opened Bytes
  import opened SessionTable
  import opened LockProtocol

  lemma InitInv(users: map<string, string>)
    ensures Inv(Init(users))
  {
  }

  lemma {:induction false} RunInv(s: State, es: seq<Event>)
    requires Inv(s) && Run(s, es).Some?
    ensures Inv(Run(s, es).value)
    decreases |es|
  {
    hide Apply, Inv;
    if es != [] {
      StepInv(s, es[0]);
      RunInv(Apply(s, es[0]), es[1..]);
    }
  }

  lemma ReachedInv(s: State, users: map<string, string>, es: seq<Event>)
    requires Reached(s, users, es)
    ensures Inv(s)
  {
    hide Inv;
    InitInv(users);
    RunInv(Init(users), es);
  }

  // ----- every interleaving -----

  /**
   * When has_lock answers yes to a validated request, its token has a live session, although
   * the sweeper may have run since the token was validated.
   */
  lemma OwnershipMeansLive(s: State, users: map<string, string>, es: seq<Event>)
    requires Reached(s, users, es) && s.handler.Touched? && s.tables.lock == Some(s.handler.token)
    ensures s.handler.token in s.tables.sessions
  {
    ReachedInv(s, users, es);
  }

  /** At the addTask of a command no other token holds the lock; if any does, it is a live one. */
  lemma NoOtherHolderAtAddTask(s: State, users: map<string, string>, es: seq<Event>)
    requires Reached(s, users, es) && Enabled(s, AddTask)
    ensures s.tables.lock.None? || (s.tables.lock == Some(s.handler.token) && s.handler.token in s.tables.sessions)
  {
    ReachedInv(s, users, es);
  }

  /** The lock never passes from one token to another without having been free. */
  lemma NoDirectHandover(s: State, e: Event)
    requires Enabled(s, e) && s.tables.lock.Some? && Apply(s, e).tables.lock.Some?
    ensures Apply(s, e).tables.lock == s.tables.lock
  {
  }

  /** The lock's history is disciplined, in particular every added task is its last holder's. */
  lemma LogDiscipline(s: State, users: map<string, string>, es: seq<Event>)
    requires Reached(s, users, es)
    ensures Disciplined(s.log) && Holder(s.log) == s.tables.lock
  {
    ReachedInv(s, users, es);
  }

  lemma SessionsStayWithinUsers(s: State, users: map<string, string>, es: seq<Event>)
    requires Reached(s, users, es)
    ensures TableInv(s.tables) && |s.tables.sessions| <= |s.tables.users|
  {
    ReachedInv(s, users, es);
    NoMoreSessionsThanUsers(s.tables);
  }

  // ----- where sessions come from -----

  /** The password the user of a session was loaded with was given in a login of the run, which drew its token. */
  ghost predicate LoggedInWith(es: seq<Event>, users: map<string, string>, token: Token, username: string) {
    username in users && LoginStep(username, users[username], token) in es
  }

  ghost predicate AllLoggedIn(s: State, users: map<string, string>, es: seq<Event>) {
    && s.tables.users == users
    && forall k | k in s.tables.sessions :: LoggedInWith(es, users, k, s.tables.sessions[k].username)
  }

  lemma LoginsGrow(s: State, users: map<string, string>, es: seq<Event>, e: Event)
    requires AllLoggedIn(s, users, es) && Enabled(s, e)
    ensures AllLoggedIn(Apply(s, e), users, es + [e])
  {
    var t := Apply(s, e);
    forall k | k in t.tables.sessions
      ensures LoggedInWith(es + [e], users, k, t.tables.sessions[k].username)
    {
      if k in s.tables.sessions && s.tables.sessions[k].username == t.tables.sessions[k].username {
        assert LoggedInWith(es, users, k, s.tables.sessions[k].username);
      } else {
        assert e in es + [e];
      }
    }
  }

  lemma {:induction false} LoginsRun(s: State, users: map<string, string>, past: seq<Event>, es: seq<Event>)
    requires AllLoggedIn(s, users, past) && Run(s, es).Some?
    ensures AllLoggedIn(Run(s, es).value, users, past + es)
    decreases |es|
  {
    hide Apply, Enabled, AllLoggedIn;
    if es == [] {
      assert past + es == past;
    } else {
      LoginsGrow(s, users, past, es[0]);
      LoginsRun(Apply(s, es[0]), users, past + [es[0]], es[1..]);
      assert past + [es[0]] + es[1..] == past + es;
    }
  }

  /** Every live session goes back to a login of its user, with the password loaded for that user. */
  lemma SessionsFromPasswords(s: State, users: map<string, string>, es: seq<Event>, token: Token)
    requires Reached(s, users, es) && token in s.tables.sessions
    ensures
      var username := s.tables.sessions[token].username;
      username in users && LoginStep(username, users[username], token) in es
  {
    LoginsRun(Init(users), users, [], es);
    assert [] + es == es;
    assert LoggedInWith(es, users, token, s.tables.sessions[token].username);
  }

  // ----- the lock of a dead session -----

  predicate HeldByDead(s: State) {
    s.tables.lock.Some? && s.tables.lock.value !in s.tables.sessions
  }

  /**
   * The holder is without a session exactly if it already was when it acquired the lock: no
   * other interleaving of logout, release and sweep separates a lock from its session.
   */
  lemma DeadExactlyIfAcquiredDead(s: State, users: map<string, string>, es: seq<Event>)
    requires Reached(s, users, es) && s.tables.lock.Some?
    ensures LastAcquired(s.log).Some? && LastAcquired(s.log).value.token == s.tables.lock.value
    ensures HeldByDead(s) <==> !LastAcquired(s.log).value.live
  {
    ReachedInv(s, users, es);
  }

  lemma DeadLockStep(s: State, e: Event)
    requires Inv(s) && HeldByDead(s) && Enabled(s, e)
    ensures var t := Apply(s, e); HeldByDead(t) && t.tables.lock == s.tables.lock && t.log == s.log
  {
    hide TableInv, LogInv;
  }

  lemma {:induction false} DeadLockRun(s: State, more: seq<Event>)
    requires Inv(s) && HeldByDead(s) && Run(s, more).Some?
    ensures var t := Run(s, more).value; HeldByDead(t) && t.tables.lock == s.tables.lock && t.log == s.log
    decreases |more|
  {
    hide Apply, Inv, HeldByDead;
    if more != [] {
      DeadLockStep(s, more[0]);
      StepInv(s, more[0]);
      DeadLockRun(Apply(s, more[0]), more[1..]);
    }
  }

  /**
   * Once a token without a session holds the lock, it holds it in every continuation, and no
   * lock is acquired, no lock freed and no task added any more.
   */
  lemma DeadLockIsForever(s: State, users: map<string, string>, es: seq<Event>, more: seq<Event>)
    requires Reached(s, users, es) && HeldByDead(s) && Run(s, more).Some?
    ensures var t := Run(s, more).value; HeldByDead(t) && t.tables.lock == s.tables.lock && t.log == s.log
  {
    ReachedInv(s, users, es);
    DeadLockRun(s, more);
  }

  lemma {:induction false} RunSnoc(s: State, es: seq<Event>, e: Event)
    requires Run(s, es).Some? && Enabled(Run(s, es).value, e)
    ensures Run(s, es + [e]) == Some(Apply(Run(s, es).value, e))
    decreases |es|
  {
    hide Apply;
    if es == [] {
      assert [e][1..] == [];
    } else {
      assert (es + [e])[1..] == es[1..] + [e];
      RunSnoc(Apply(s, es[0]), es[1..], e);
    }
  }

  lemma Extend(users: map<string, string>, es: seq<Event>, s: State, e: Event) returns (es': seq<Event>, s': State)
    requires Reached(s, users, es) && Enabled(s, e)
    ensures es' == es + [e] && s' == Apply(s, e) && Reached(s', users, es')
  {
    RunSnoc(Init(users), es, e);
    es', s' := es + [e], Apply(s, e);
  }

  /**
   * It does happen: the sweeper runs between is_valid_token and touch_session of an ACQUIRE
   * whose session was never touched before.
   */
  lemma DeadLockReachable() returns (users: map<string, string>, es: seq<Event>, s: State)
    ensures Reached(s, users, es) && HeldByDead(s) && s.handler.Idle?
  {
    users := map["u" := "p"];
    es, s := [], Init(users);
    assert Reached(s, users, es);
    hide Run, Reached;
    es, s := Extend(users, es, s, LoginStep("u", "p", "t"));
    es, s := Extend(users, es, s, Tick(61 * SECOND));
    es, s := Extend(users, es, s, Begin(AcquireRequest, "t"));
    es, s := Extend(users, es, s, SweepStep(60));
    es, s := Extend(users, es, s, TouchStep);
    es, s := Extend(users, es, s, Ask);
    es, s := Extend(users, es, s, AcquireStep);
  }

  // ----- whole requests as steps -----

  /** A run in which no sweep comes between the sections of one request. */
  predicate WholeRequest(s: State, e: Event) {
    e.SweepStep? ==> s.handler.Idle?
  }

  ghost predicate WholeRequests(s: State, es: seq<Event>)
    decreases |es|
  {
    es == [] || (Enabled(s, es[0]) && WholeRequest(s, es[0]) && WholeRequests(Apply(s, es[0]), es[1..]))
  }

  /** Every logged task was added by the token that held the lock at that moment. */
  predicate AllAddedByHolder(log: seq<Entry>) {
    log == [] ||
    var before, last := log[..|log| - 1], log[|log| - 1];
    AllAddedByHolder(before) && (last.Added? ==> Holder(before) == Some(last.token))
  }

  predicate AtomicInv(s: State) {
    && (!s.handler.Idle? ==> s.handler.token in s.tables.sessions)
    && (s.handler.Owning? ==> s.tables.lock == Some(s.handler.token))
    && !HeldByDead(s)
    && AllAddedByHolder(s.log)
  }

  lemma AtomicStep(s: State, e: Event)
    requires Inv(s) && AtomicInv(s) && Enabled(s, e) && WholeRequest(s, e)
    ensures AtomicInv(Apply(s, e))
  {
    hide TableInv, Disciplined;
    OneEntry(s, e);
  }

  lemma {:induction false} AtomicRun(s: State, es: seq<Event>)
    requires Inv(s) && AtomicInv(s) && WholeRequests(s, es)
    ensures Run(s, es).Some? && AtomicInv(Run(s, es).value) && Inv(Run(s, es).value)
    decreases |es|
  {
    hide Apply, Inv, AtomicInv, WholeRequest;
    if es != [] {
      StepInv(s, es[0]);
      AtomicStep(s, es[0]);
      AtomicRun(Apply(s, es[0]), es[1..]);
    }
  }

  /**
   * With whole requests as steps the protocol is exact: the holder always has a live session,
   * and every task is added by the token that holds the lock at that moment.
   */
  lemma WholeRequestsKeepLockLive(users: map<string, string>, es: seq<Event>)
    requires WholeRequests(Init(users), es)
    ensures
      Run(Init(users), es).Some?
      && var s := Run(Init(users), es).value;
         && (s.tables.lock.Some? ==> s.tables.lock.value in s.tables.sessions)
         && AllAddedByHolder(s.log)
  {
    hide Run, Apply, WholeRequests;
    InitInv(users);
    AtomicRun(Init(users), es);
  }
}
