/**
 * The session manager of src/server/session.cpp as an object. Each method is one section under
 * the manager's mutex; its effect is the matching function of module SessionTable. Hash-table
 * iteration is in an arbitrary order.
 */
module Sessions {
  import opened Bytes
  import opened SessionTable

  // ----- tokens -----

  const HEX := "0123456789abcdef"

  type Digit = x: int | 0 <= x < 16
  type Variant = x: int | 8 <= x < 12 witness 8

  const DRAWS := 30

  function Hex(ds: seq<Digit>): (s: string)
    ensures |s| == |ds|
  {
    seq(|ds|, i requires 0 <= i < |ds| => HEX[ds[i]])
  }

  /** The token made of thirty hex draws and one variant draw. */
  function Uuid(ds: seq<Digit>, v: Variant): string
    requires |ds| == DRAWS
  {
    Hex(ds[..8]) + "-" + Hex(ds[8..12]) + "-4" + Hex(ds[12..15]) + "-" + Hex([v]) + Hex(ds[15..18])
    + "-" + Hex(ds[18..])
  }

  predicate IsDash(i: int) {
    i == 8 || i == 13 || i == 18 || i == 23
  }

  /** The position at which draw k shows. */
  function Position(k: nat): nat
    requires k < DRAWS
  {
    if k < 8 then k else if k < 12 then k + 1 else if k < 15 then k + 3 else if k < 18 then k + 5 else k + 6
  }

  lemma UuidAt(ds: seq<Digit>, v: Variant)
    requires |ds| == DRAWS
    ensures var u := Uuid(ds, v); |u| == 36 && u[19] == HEX[v] && u[14] == '4'
    ensures forall i | 0 <= i < 36 && IsDash(i) :: Uuid(ds, v)[i] == '-'
    ensures forall k | 0 <= k < DRAWS :: Uuid(ds, v)[Position(k)] == HEX[ds[k]]
  {
  }

  /** Version 4, variant 10x of RFC 4122, section 4.4, in its text form. */
  lemma UuidShape(ds: seq<Digit>, v: Variant)
    requires |ds| == DRAWS
    ensures
      var u := Uuid(ds, v);
      && |u| == 36
      && (forall i | 0 <= i < 36 :: if IsDash(i) then u[i] == '-' else u[i] in HEX)
      && u[14] == '4' && u[19] in "89ab"
  {
    UuidAt(ds, v);
    hide Uuid;
    forall i | 0 <= i < 36 && !IsDash(i)
      ensures Uuid(ds, v)[i] in HEX
    {
      var k := if i < 8 then i else if i < 13 then i - 1 else if i < 18 then i - 3 else if i < 23 then i - 5 else i - 6;
      assert i == 14 || i == 19 || Position(k) == i;
    }
  }

  lemma HexInjective(x: Digit, y: Digit)
    requires HEX[x] == HEX[y]
    ensures x == y
  {
  }

  /** No draw is lost: different draws make different tokens. */
  lemma UuidInjective(ds: seq<Digit>, v: Variant, es: seq<Digit>, w: Variant)
    requires |ds| == DRAWS && |es| == DRAWS && Uuid(ds, v) == Uuid(es, w)
    ensures ds == es && v == w
  {
    UuidAt(ds, v);
    UuidAt(es, w);
    hide Uuid;
    HexInjective(v, w);
    forall k | 0 <= k < DRAWS
      ensures ds[k] == es[k]
    {
      HexInjective(ds[k], es[k]);
    }
  }

  // ----- users -----

  /** Later entries win. */
  function UsersOf(list: seq<(string, string)>): map<string, string> {
    if list == [] then map[]
    else UsersOf(list[..|list| - 1])[list[|list| - 1].0 := list[|list| - 1].1]
  }

  /** A user is known by the password of the last entry under that name. */
  lemma {:induction false} LastEntryWins(list: seq<(string, string)>, username: string)
    ensures username in UsersOf(list) <==> exists i :: 0 <= i < |list| && list[i].0 == username
    ensures forall i |
              0 <= i < |list| && list[i].0 == username && (forall j | i < j < |list| :: list[j].0 != username) ::
              username in UsersOf(list) && UsersOf(list)[username] == list[i].1
  {
    if list != [] {
      var n := |list| - 1;
      var before := list[..n];
      LastEntryWins(before, username);
      if username in UsersOf(before) {
        var i :| 0 <= i < |before| && before[i].0 == username;
        assert list[i].0 == username;
      }
      forall i | 0 <= i < n && list[i].0 == username && (forall j | i < j < |list| :: list[j].0 != username)
        ensures username in UsersOf(list) && UsersOf(list)[username] == list[i].1
      {
        assert before[i] == list[i];
        assert forall j | i < j < |before| :: before[j] == list[j];
        assert list[n].0 != username;
      }
      if exists i :: 0 <= i < |list| && list[i].0 == username {
        var i :| 0 <= i < |list| && list[i].0 == username;
        if i < n {
          assert before[i] == list[i];
        }
      }
    }
  }

  class SessionManager {
    var users: map<string, string>
    var sessions: SessionTable.Sessions
    var currentLock: Option<Token>

    function Model(): Tables
      reads this
    {
      Tables(users, sessions, currentLock)
    }

    constructor ()
      ensures Model() == Tables(map[], map[], None)
    {
      users, sessions, currentLock := map[], map[], None;
    }

    method LoadUsers(list: seq<(string, string)>)
      modifies this
      ensures Model() == old(Model()).(users := UsersOf(list))
    {
      users := map[];
      for i := 0 to |list|
        invariant Model() == old(Model()).(users := UsersOf(list[..i]))
      {
        assert list[..i + 1][..i] == list[..i];
        users := users[list[i].0 := list[i].1];
      }
      assert list[..|list|] == list;
    }

    /** Eight, four, three, one and three, and twelve digits, appended one at a time. */
    method GenerateUuid(ds: seq<Digit>, v: Variant) returns (res: string)
      requires |ds| == DRAWS
      ensures res == Uuid(ds, v)
    {
      res := AppendHex("", ds, 0, 8);
      res := res + "-";
      res := AppendHex(res, ds, 8, 12);
      res := res + "-4";
      res := AppendHex(res, ds, 12, 15);
      res := res + "-";
      res := res + [HEX[v]];
      res := AppendHex(res, ds, 15, 18);
      res := res + "-";
      res := AppendHex(res, ds, 18, DRAWS);
      assert Hex([v]) == [HEX[v]];
    }

    static method AppendHex(start: string, ds: seq<Digit>, lo: nat, hi: nat) returns (res: string)
      requires lo <= hi <= |ds|
      ensures res == start + Hex(ds[lo..hi])
    {
      res := start;
      for i := lo to hi
        invariant res == start + Hex(ds[lo..i])
      {
        res := res + [HEX[ds[i]]];
      }
    }

    /**
     * A live user is given the session's token whatever the password; otherwise the right
     * password opens a session under a newly drawn token.
     */
    method Login(username: string, password: string, ds: seq<Digit>, v: Variant) returns (token: Option<Token>)
      requires |ds| == DRAWS
      modifies this`sessions
      ensures Model() == SessionTable.Login(old(Model()), username, password, Uuid(ds, v))
      ensures LoggedIn(old(sessions), username) ==>
                token.Some? && token.value in sessions && sessions[token.value].username == username
      ensures !LoggedIn(old(sessions), username) ==>
                token == if username in users && users[username] == password then Some(Uuid(ds, v)) else None
    {
      var todo := sessions.Keys;
      while todo != {}
        invariant todo <= sessions.Keys
        invariant forall k | k in sessions && k !in todo :: sessions[k].username != username
        decreases |todo|
      {
        var k :| k in todo;
        todo := todo - {k};
        if sessions[k].username == username {
          return Some(k);
        }
      }
      if username in users && users[username] == password {
        var drawn := GenerateUuid(ds, v);
        sessions := sessions[drawn := Session(username, 0)];
        return Some(drawn);
      }
      return None;
    }

    method Logout(token: Token)
      modifies this`sessions
      ensures Model() == SessionTable.Logout(old(Model()), token)
    {
      sessions := sessions - {token};
    }

    method IsValidToken(token: Token) returns (r: bool)
      ensures r == (token in sessions)
    {
      return token in sessions;
    }

    method TouchSession(token: Token, now: int)
      modifies this`sessions
      ensures Model() == Touch(old(Model()), token, now)
    {
      if token in sessions {
        sessions := sessions[token := sessions[token].(lastSeen := now)];
      }
    }

    method AcquireLock(token: Token) returns (ok: bool)
      modifies this`currentLock
      ensures ok == old(currentLock).None?
      ensures Model() == Acquire(old(Model()), token)
    {
      if currentLock.Some? {
        return false;
      }
      currentLock := Some(token);
      return true;
    }

    /** The part of release_lock that runs under the mutex. */
    method ReleaseLock(token: Token) returns (ok: bool)
      modifies this`currentLock
      ensures ok == (old(currentLock) == Some(token))
      ensures Model() == Release(old(Model()), token)
    {
      if currentLock != Some(token) {
        return false;
      }
      currentLock := None;
      return true;
    }

    method HasLock(token: Token) returns (r: bool)
      ensures r == (currentLock == Some(token))
    {
      return currentLock == Some(token);
    }

    /** The sweep as intended: the lock is released without taking the mutex again. */
    method SweepExpiredSessions(timeout: int, now: int)
      modifies this`sessions, this`currentLock
      ensures Model() == Sweep(old(Model()), timeout, now)
    {
      ghost var before, gone := Model(), Expired(sessions, timeout, now);
      var todo := sessions.Keys;
      while todo != {}
        invariant todo <= before.sessions.Keys && users == before.users
        invariant forall k | k in sessions :: k in before.sessions && sessions[k] == before.sessions[k]
        invariant forall k | k in before.sessions :: k in sessions <==> (k in todo || k !in gone)
        invariant currentLock ==
                  if before.lock.Some? && before.lock.value in gone && before.lock.value !in todo
                  then None else before.lock
        decreases |todo|
      {
        var k :| k in todo;
        todo := todo - {k};
        if now - sessions[k].lastSeen > timeout * SECOND {
          var released := ReleaseLock(k);
          sessions := sessions - {k};
        }
      }
    }

    /**
     * The sweep as written: release_lock locks the mutex the sweep already holds, which is not
     * recursive, so the first old session met ends the normal course of the program. That
     * happens exactly if some session is old, and then nothing has been changed yet.
     */
    method SweepAsWritten(timeout: int, now: int) returns (relocks: bool)
      ensures relocks <==> Expired(sessions, timeout, now) != {}
      ensures !relocks ==> Model() == Sweep(Model(), timeout, now)
    {
      var todo := sessions.Keys;
      while todo != {}
        invariant todo <= sessions.Keys
        invariant forall k | k in sessions && k !in todo :: !TooOld(sessions[k], timeout, now)
        decreases |todo|
      {
        var k :| k in todo;
        todo := todo - {k};
        if now - sessions[k].lastSeen > timeout * SECOND {
          assert k in Expired(sessions, timeout, now);
          return true;
        }
      }
      assert Expired(sessions, timeout, now) == {};
      return false;
    }
  }
}
