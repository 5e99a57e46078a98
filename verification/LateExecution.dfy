/**
 * Which requests the controller can still come to read. A request is not recalled when its
 * client gives up on it, or when the link has reported it as failed.
 */
module LateExecution {
  import opened Bytes
  import opened RobotLink
  import opened RobotLinkInvariant
  import T = RobotLinkTheorems

  /** The request of ticket k has been sent, in whole or in part, and the controller has not read it. */
  ghost predicate Unread(s: State, k: nat) {
    exists c: nat, i: nat :: HoldsTicket(s.conns, c, i, k) && i >= s.conns[c].consumed
  }

  /** Ticket k waits in the queue of a running link, is about to be sent, or is sent and not read. */
  ghost predicate MayReach(s: State, k: nat) {
    || (Taken(s) <= k && s.running)
    || (s.worker.Sending? && InHand(s.worker) == Some(k))
    || Unread(s, k)
  }

  /** Between s and t the controller has read the request of ticket k, or a part of it. */
  ghost predicate ReadBetween(s: State, t: State, k: nat) {
    exists a: nat :: |s.served| <= a < |t.served| && HoldsTicket(t.conns, t.served[a].conn, t.served[a].index, k)
  }

  // ----- what cannot be read any more never is -----

  lemma NotReachedStays(s: State, e: Event, k: nat)
    requires Inv(s) && Enabled(s, e) && k < |s.submitted| && !MayReach(s, k)
    ensures var t := Apply(s, e); k < |t.submitted| && !MayReach(t, k)
  {
    var t := Apply(s, e);
    forall c: nat, i: nat | HoldsTicket(t.conns, c, i, k)
      ensures i < t.conns[c].consumed
    {
      NothingSent(s, e, c, i, k);
    }
    NotTaken(s, e, k);
    hide Apply, Enabled, Inv;
  }

  /** Of a ticket that is neither queued nor about to be sent, nothing is sent, and what was read stays read. */
  lemma NothingSent(s: State, e: Event, c: nat, i: nat, k: nat)
    requires SocketInv(s) && Enabled(s, e) && !(s.worker.Sending? && InHand(s.worker) == Some(k))
    requires Carries(s.worker) ==> !s.worker.m.origin.Part?
    requires HoldsTicket(Apply(s, e).conns, c, i, k)
    ensures HoldsTicket(s.conns, c, i, k) && s.conns[c].consumed <= Apply(s, e).conns[c].consumed
  {
    hide ErrorText, SetPromise, Tagged;
  }

  lemma NotTaken(s: State, e: Event, k: nat)
    requires QueueInv(s) && Enabled(s, e) && k < |s.submitted|
    requires !(Taken(s) <= k && s.running) && !(s.worker.Sending? && InHand(s.worker) == Some(k))
    ensures
      var t := Apply(s, e);
      k < |t.submitted| && !(Taken(t) <= k && t.running) && !(t.worker.Sending? && InHand(t.worker) == Some(k))
  {
    hide ErrorText, SetPromise, Tagged, Deliver;
  }

  lemma NotReadNow(s: State, e: Event, k: nat)
    requires ServedInv(s) && Enabled(s, e) && !Unread(s, k)
    ensures !ReadBetween(s, Apply(s, e), k)
  {
    hide ErrorText, SetPromise, Tagged;
    var t := Apply(s, e);
    if e.Serve? {
      assert !HoldsTicket(s.conns, e.conn, s.conns[e.conn].consumed, k);
      assert t.served[|s.served|] == Served(e.conn, s.conns[e.conn].consumed, e.answers);
    }
  }

  /** What has been read stays on record. */
  lemma LogsGrow(s: State, e: Event)
    requires Enabled(s, e)
    ensures var t := Apply(s, e); s.served <= t.served && |s.conns| <= |t.conns|
    ensures var t := Apply(s, e); forall c | 0 <= c < |s.conns| :: s.conns[c].sent <= t.conns[c].sent
  {
    hide ErrorText, SetPromise, Tagged;
  }

  lemma {:induction false} RunLogsGrow(s: State, es: seq<Event>)
    requires Run(s, es).Some?
    ensures var t := Run(s, es).value; s.served <= t.served && |s.conns| <= |t.conns|
    ensures var t := Run(s, es).value; forall c | 0 <= c < |s.conns| :: s.conns[c].sent <= t.conns[c].sent
    decreases |es|
  {
    if es != [] {
      LogsGrow(s, es[0]);
      hide Apply;
      RunLogsGrow(Apply(s, es[0]), es[1..]);
    }
  }

  lemma {:induction false} NeverRead(s: State, es: seq<Event>, k: nat)
    requires Inv(s) && k < |s.submitted| && !MayReach(s, k) && Run(s, es).Some?
    ensures !ReadBetween(s, Run(s, es).value, k)
    decreases |es|
  {
    if es != [] {
      var u, t := Apply(s, es[0]), Run(s, es).value;
      StepInv(s, es[0]);
      NotReachedStays(s, es[0], k);
      NotReadNow(s, es[0], k);
      hide Apply, MayReach, Enabled, ReadBetween, TicketInv, SocketInv, LogInv, GenuineInv, ServedInv, StreamInv,
        SyncInv, PromiseInv, OrderInv;
      NeverRead(u, es[1..], k);
      RunLogsGrow(u, es[1..]);
      NotReadBetween(s, u, t, k);
    }
  }

  lemma NotReadBetween(s: State, u: State, t: State, k: nat)
    requires ServedInv(u)
    requires u.served <= t.served && |u.conns| <= |t.conns|
    requires forall c | 0 <= c < |u.conns| :: u.conns[c].sent <= t.conns[c].sent
    requires !ReadBetween(s, u, k) && !ReadBetween(u, t, k)
    ensures !ReadBetween(s, t, k)
  {
    forall a: nat | |s.served| <= a < |t.served| && HoldsTicket(t.conns, t.served[a].conn, t.served[a].index, k)
      ensures false
    {
      if a < |u.served| {
        assert HoldsTicket(u.conns, u.served[a].conn, u.served[a].index, k);
      }
    }
  }

  // ----- what still can be read is read in some continuation -----

  /** The worker's next step when the network lets it connect and send, but never answers. */
  function Drive(s: State): Event {
    match s.worker
    case AtTop => ReadRunning
    case Connecting => Connect(true)
    case Sending(_) => Send
    case Receiving(_) => ReceiveFails
    case Resolving(_, _) => Resolve
    case Failing(_, _) => Drop
    case Reporting(_, _) => Report
    case _ => Take
  }

  /** How far the worker is from taking its next work item. */
  function Stage(w: Worker): nat {
    match w
    case Sending(_) => 7
    case Receiving(_) => 6
    case Failing(_, _) => 5
    case Resolving(_, _) => 4
    case Reporting(_, _) => 4
    case AtTop => 3
    case Connecting => 2
    case _ => 1
  }

  lemma DriveStep(s: State, k: nat)
    requires QueueInv(s) && SocketInv(s) && s.running && Taken(s) <= k < |s.submitted|
    ensures Enabled(s, Drive(s))
    ensures
      var t := Apply(s, Drive(s));
      && t.running && t.submitted == s.submitted && t.served == s.served
      && (if s.worker.Choosing?
          then t.worker.Sending? && InHand(t.worker) == Some(Taken(s)) && Taken(t) == Taken(s) + 1
          else Taken(t) == Taken(s) && Stage(t.worker) < Stage(s.worker))
  {
    hide ErrorText, SetPromise, Tagged;
  }

  /** The worker alone can bring a queued request to the point of being sent. */
  lemma {:induction false} DriveTo(s: State, k: nat) returns (es: seq<Event>, t: State)
    requires Inv(s) && s.running && Taken(s) <= k < |s.submitted|
    ensures Run(s, es) == Some(t) && OnlyLink(es) && Inv(t) && t.served == s.served
    ensures t.worker.Sending? && InHand(t.worker) == Some(k)
    decreases k - Taken(s), Stage(s.worker)
  {
    DriveStep(s, k);
    var e := Drive(s);
    StepInv(s, e);
    var u := Apply(s, e);
    hide Apply, Inv, Enabled;
    var rest: seq<Event>;
    if s.worker.Choosing? && Taken(s) == k {
      rest, t := [], u;
    } else {
      rest, t := DriveTo(u, k);
    }
    es := [e] + rest;
    assert es[1..] == rest;
  }

  /** Steps of the worker and the controller, not of clients or a stopping thread. */
  predicate OnlyLink(es: seq<Event>) {
    forall i | 0 <= i < |es| :: !es[i].Enqueue? && !es[i].Stop?
  }

  lemma ServeStep(s: State, c: nat, i: nat, k: nat)
    requires ServedInv(s) && HoldsTicket(s.conns, c, i, k) && i >= s.conns[c].consumed
    ensures Enabled(s, Serve(c, [[0]]))
    ensures
      var t := Apply(s, Serve(c, [[0]]));
      && HoldsTicket(t.conns, c, i, k) && t.conns[c].consumed == s.conns[c].consumed + 1
      && (i == s.conns[c].consumed ==> ReadBetween(s, t, k))
  {
    hide Tagged;
    var t := Apply(s, Serve(c, [[0]]));
    assert t.served[|s.served|] == Served(c, s.conns[c].consumed, [[0]]);
  }

  /** The controller alone can come to read a message that was sent. */
  lemma {:induction false} ServeTo(s: State, c: nat, i: nat, k: nat) returns (es: seq<Event>)
    requires Inv(s) && HoldsTicket(s.conns, c, i, k) && i >= s.conns[c].consumed
    ensures Run(s, es).Some? && OnlyLink(es) && ReadBetween(s, Run(s, es).value, k)
    decreases i - s.conns[c].consumed
  {
    ServeStep(s, c, i, k);
    var e := Serve(c, [[0]]);
    StepInv(s, e);
    LogsGrow(s, e);
    var u := Apply(s, e);
    var rest: seq<Event> := [];
    if i == s.conns[c].consumed {
      assert Run(u, rest) == Some(u);
      hide *;
      es := [e];
      OneStep(s, e);
    } else {
      hide Apply, Inv, Enabled, HoldsTicket, ReadBetween;
      rest := ServeTo(u, c, i, k);
      es := [e] + rest;
      assert es[1..] == rest;
      ReadEarlier(s, u, Run(u, rest).value, k);
    }
  }

  lemma OneStep(s: State, e: Event)
    requires Enabled(s, e)
    ensures Run(s, [e]) == Some(Apply(s, e)) && ((e.Serve? ==> OnlyLink([e])))
  {
    hide Apply, Enabled;
    assert [e][1..] == [];
  }

  lemma ReadEarlier(s: State, u: State, t: State, k: nat)
    requires |s.served| <= |u.served| && ReadBetween(u, t, k)
    ensures ReadBetween(s, t, k)
  {
  }

  lemma SendStep(s: State, k: nat)
    requires QueueInv(s) && SocketInv(s) && s.worker.Sending? && InHand(s.worker) == Some(k)
    ensures Enabled(s, Send)
    ensures
      var t, c := Apply(s, Send), s.socket.value;
      && t.served == s.served && HoldsTicket(t.conns, c, |s.conns[c].sent|, k)
      && t.conns[c].consumed == s.conns[c].consumed
  {
    hide ErrorText, SetPromise, Tagged;
  }

  /** About to be sent, it is sent and read. */
  lemma SendAndServe(s: State, k: nat) returns (es: seq<Event>)
    requires Inv(s) && s.worker.Sending? && InHand(s.worker) == Some(k)
    ensures Run(s, es).Some? && OnlyLink(es) && ReadBetween(s, Run(s, es).value, k)
  {
    SendStep(s, k);
    StepInv(s, Send);
    var c := s.socket.value;
    var u := Apply(s, Send);
    assert s.conns[c].consumed <= |s.conns[c].sent|;
    hide Apply, Inv, Enabled, HoldsTicket, ReadBetween;
    var rest := ServeTo(u, c, |s.conns[c].sent|, k);
    es := [Send] + rest;
    assert es[1..] == rest;
    ReadEarlier(s, u, Run(u, rest).value, k);
  }

  lemma CanBeRead(s: State, k: nat) returns (es: seq<Event>)
    requires Inv(s) && k < |s.submitted| && MayReach(s, k)
    ensures Run(s, es).Some? && OnlyLink(es) && ReadBetween(s, Run(s, es).value, k)
  {
    if Unread(s, k) {
      var c: nat, i: nat :| HoldsTicket(s.conns, c, i, k) && i >= s.conns[c].consumed;
      es := ServeTo(s, c, i, k);
    } else if s.worker.Sending? && InHand(s.worker) == Some(k) {
      es := SendAndServe(s, k);
    } else {
      var first, u := DriveTo(s, k);
      var rest := SendAndServe(u, k);
      hide Apply, Inv, Enabled, MayReach, ReadBetween;
      T.RunAppend(s, first, rest);
      es := first + rest;
      ReadEarlier(s, u, Run(u, rest).value, k);
    }
  }

  /**
   * From a reachable state the controller can still come to read a request exactly if it waits
   * in the queue of a running link, is about to be sent, or is sent, in whole or in part, and
   * not read; whether or not its promise has been kept.
   */
  lemma ReadExactlyIf(s: State, past: seq<Event>, k: nat)
    requires T.Reached(s, past) && k < |s.submitted|
    ensures (exists more :: Run(s, more).Some? && ReadBetween(s, Run(s, more).value, k)) <==> MayReach(s, k)
  {
    T.ReachedInv(s, past);
    hide Inv, MayReach, ReadBetween;
    if MayReach(s, k) {
      var more := CanBeRead(s, k);
    } else {
      forall more | Run(s, more).Some?
        ensures !ReadBetween(s, Run(s, more).value, k)
      {
        NeverRead(s, more, k);
      }
    }
  }
}
