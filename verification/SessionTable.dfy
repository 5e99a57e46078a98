/**
 * Sessions and the hardware lock as values: what each mutex section of the session manager
 * (src/server/session.cpp) does to the three tables. Module Sessions proves that the class
 * implements these functions, module LockProtocol interleaves them.
 */
module SessionTable {
  import opened Bytes

  type Token = string

  /** lastSeen is in nanoseconds of the steady clock; a new session has never been seen: 0. */
  datatype Session = Session(username: string, lastSeen: int)

  type Sessions = map<Token, Session>

  datatype Tables = Tables(users: map<string, string>, sessions: Sessions, lock: Option<Token>)

  const SECOND: int := 1_000_000_000

  predicate LoggedIn(sessions: Sessions, username: string) {
    exists k | k in sessions :: sessions[k].username == username
  }

  predicate Accepts(users: map<string, string>, username: string, password: string) {
    username in users && users[username] == password
  }

  /** A live user keeps the session; a known user with the right password gets a fresh one. */
  function Login(t: Tables, username: string, password: string, drawn: Token): Tables {
    if !LoggedIn(t.sessions, username) && Accepts(t.users, username, password)
    then t.(sessions := t.sessions[drawn := Session(username, 0)])
    else t
  }

  function Logout(t: Tables, token: Token): Tables {
    t.(sessions := t.sessions - {token})
  }

  function Touch(t: Tables, token: Token, now: int): Tables {
    if token in t.sessions
    then t.(sessions := t.sessions[token := t.sessions[token].(lastSeen := now)])
    else t
  }

  function Acquire(t: Tables, token: Token): Tables {
    if t.lock.None? then t.(lock := Some(token)) else t
  }

  function Release(t: Tables, token: Token): Tables {
    if t.lock == Some(token) then t.(lock := None) else t
  }

  predicate TooOld(s: Session, timeout: int, now: int) {
    now - s.lastSeen > timeout * SECOND
  }

  function Expired(sessions: Sessions, timeout: int, now: int): set<Token> {
    set k | k in sessions && TooOld(sessions[k], timeout, now)
  }

  /** The sweep as intended: old sessions go, and the lock of an old session goes with it. */
  function Sweep(t: Tables, timeout: int, now: int): Tables {
    var gone := Expired(t.sessions, timeout, now);
    t.(sessions := t.sessions - gone,
       lock := if t.lock.Some? && t.lock.value in gone then None else t.lock)
  }

  // ----- the session table -----

  ghost predicate OneSessionPerUser(sessions: Sessions) {
    forall a, b | a in sessions && b in sessions && sessions[a].username == sessions[b].username :: a == b
  }

  ghost predicate UsersKnown(t: Tables) {
    forall k | k in t.sessions :: t.sessions[k].username in t.users
  }

  ghost predicate TableInv(t: Tables) {
    OneSessionPerUser(t.sessions) && UsersKnown(t)
  }

  /** Logging in again changes nothing, and the token found is the only one there is. */
  lemma ReloginReturnsSameToken(t: Tables, token: Token, username: string, password: string, drawn: Token)
    requires TableInv(t) && token in t.sessions && t.sessions[token].username == username
    ensures Login(t, username, password, drawn) == t
    ensures forall k | k in t.sessions && t.sessions[k].username == username :: k == token
  {
  }

  /**
   * A user without a session is given one, and then under the token drawn and never seen, if
   * and only if the name is a known user's and the password that user's. Otherwise a login
   * changes nothing; it never touches another session or the lock.
   */
  lemma LoginExactlyIf(t: Tables, username: string, password: string, drawn: Token)
    ensures
      var r := Login(t, username, password, drawn);
      var isIn := exists k | k in t.sessions :: t.sessions[k].username == username;
      if !isIn && username in t.users && t.users[username] == password
      then r == Tables(t.users, t.sessions[drawn := Session(username, 0)], t.lock)
      else r == t
  {
  }

  /** Logging out ends this session and no other, and leaves the lock to be released apart. */
  lemma LogoutErases(t: Tables, token: Token)
    ensures
      var r := Logout(t, token);
      && token !in r.sessions && r.users == t.users && r.lock == t.lock
      && forall k | k != token ::
           (k in r.sessions <==> k in t.sessions) && (k in t.sessions ==> r.sessions[k] == t.sessions[k])
  {
  }

  /** One session per known user means there are no more sessions than users. */
  lemma {:induction false} NoMoreSessionsThanUsers(t: Tables)
    requires TableInv(t)
    ensures |t.sessions| <= |t.users|
    decreases |t.sessions|
  {
    if t.sessions.Keys != {} {
      var k :| k in t.sessions.Keys;
      var u := t.sessions[k].username;
      var rest := Tables(t.users - {u}, t.sessions - {k}, t.lock);
      assert rest.sessions.Keys == t.sessions.Keys - {k};
      assert rest.users.Keys == t.users.Keys - {u};
      NoMoreSessionsThanUsers(rest);
    }
  }

  /** The sweep removes exactly the old sessions and frees the lock exactly when its holder goes. */
  lemma SweepExact(t: Tables, timeout: int, now: int)
    ensures
      var r := Sweep(t, timeout, now);
      && (forall k :: k in r.sessions <==> k in t.sessions && now - t.sessions[k].lastSeen <= timeout * 1_000_000_000)
      && (forall k | k in r.sessions :: r.sessions[k] == t.sessions[k])
      && (r.lock != t.lock <==> t.lock.Some? && t.lock.value in t.sessions && t.lock.value !in r.sessions)
      && (r.lock != t.lock ==> r.lock.None?)
      && r.users == t.users
  {
  }

  /**
   * A session is created with lastSeen 0, the clock's epoch, so until its first request the
   * next sweep removes it exactly when the clock itself is past the timeout.
   */
  lemma UntouchedSessionIsOld(t: Tables, username: string, password: string, drawn: Token, timeout: int, now: int)
    requires !LoggedIn(t.sessions, username) && Accepts(t.users, username, password)
    ensures drawn in Login(t, username, password, drawn).sessions
    ensures drawn !in Sweep(Login(t, username, password, drawn), timeout, now).sessions <==> now > timeout * SECOND
  {
  }

  /**
   * A touched session outlives a later sweep exactly while no more than the timeout has passed
   * since; every other session, and the lock of anyone else, fares as without the touch.
   */
  lemma TouchedSessionSurvives(t: Tables, token: Token, now: int, timeout: int, later: int)
    requires token in t.sessions
    ensures
      var with, without := Sweep(Touch(t, token, now), timeout, later), Sweep(t, timeout, later);
      && (token in with.sessions <==> later - now <= timeout * SECOND)
      && (token in with.sessions ==> with.sessions[token] == Session(t.sessions[token].username, now))
      && with.sessions - {token} == without.sessions - {token}
      && (t.lock == Some(token) ==> (with.lock == t.lock <==> later - now <= timeout * SECOND))
      && (t.lock != Some(token) ==> with.lock == without.lock)
  {
    var touched := Touch(t, token, now);
    forall k | k != token
      ensures k in Expired(touched.sessions, timeout, later) <==> k in Expired(t.sessions, timeout, later)
    {
    }
  }

  /**
   * The lock between two tokens: who acquires a free lock keeps it whatever the other does, and
   * releasing gives back the free lock.
   */
  lemma LockExcludes(t: Tables, mine: Token, other: Token)
    requires mine != other && t.lock.None?
    ensures
      var held := Acquire(t, mine);
      && held.lock == Some(mine) && Acquire(held, other) == held && Release(held, other) == held
      && Release(held, mine) == t && Acquire(Release(held, mine), other).lock == Some(other)
  {
  }
}
