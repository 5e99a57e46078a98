/**
 * The request protocol end to end: what the middleware packs and sends is what the controller
 * parses, although the two ends were written apart, one as a packed struct, the other as a list
 * of byte offsets.
 */
module RequestCodec {
  import opened Bytes
  import opened RobotData
  import opened Commands
  import opened RapidParsing

  // ----- the words of a message, by offset -----

  /** The i-th word after the four header bytes. */
  function Slot(raw: seq<byte>, i: nat): u32
    requires 8 + 4 * i <= |raw|
  {
    WordAt(raw, 4 + 4 * i)
  }

  lemma SlotIsWord(m: RapidRequest, i: nat)
    requires i < 46
    ensures Slot(Serialize(m), i) == Words(m)[i]
  {
    FlattenWord(Header(m), Words(m), [], i);
    hide Flatten, WordAt, Words, Header;
    assert Header(m) + Flatten(Words(m)) + [] == Serialize(m);
  }

  /** A target read at consecutive slots is the target whose words they hold. */
  lemma TargetFromSlots(raw: seq<byte>, base: nat, t: RobTarget)
    requires 4 * base + 72 <= |raw| && forall i | 0 <= i < 17 :: Slot(raw, base + i) == TargetWords(t)[i]
    ensures
      RobTarget(Slot(raw, base), Slot(raw, base + 1), Slot(raw, base + 2),
                Slot(raw, base + 3), Slot(raw, base + 4), Slot(raw, base + 5), Slot(raw, base + 6),
                Signed(Slot(raw, base + 7)), Signed(Slot(raw, base + 8)), Signed(Slot(raw, base + 9)),
                Slot(raw, base + 10),
                Slot(raw, base + 11), Slot(raw, base + 12), Slot(raw, base + 13),
                Slot(raw, base + 14), Slot(raw, base + 15), Slot(raw, base + 16)) == t
  {
    hide Slot, Signed, Unsigned;
    SignedUnsigned(t.cf1);
    SignedUnsigned(t.cf4);
    SignedUnsigned(t.cf6);
    var ws := TargetWords(t);
    assert ws[0] == t.x && ws[1] == t.y && ws[2] == t.z;
    assert ws[3] == t.q1 && ws[4] == t.q2 && ws[5] == t.q3 && ws[6] == t.q4;
    assert ws[7] == Unsigned(t.cf1) && ws[8] == Unsigned(t.cf4) && ws[9] == Unsigned(t.cf6) && ws[10] == t.cfx;
    assert ws[11] == t.eaxA && ws[12] == t.eaxB && ws[13] == t.eaxC;
    assert ws[14] == t.eaxD && ws[15] == t.eaxE && ws[16] == t.eaxF;
  }

  lemma FirstTargetRead(m: RapidRequest)
    ensures FirstTarget(Serialize(m)) == m.target
  {
    var raw := Serialize(m);
    forall i | 0 <= i < 17
      ensures Slot(raw, 0 + i) == TargetWords(m.target)[i]
    {
      SlotIsWord(m, i);
    }
    hide WordAt, Serialize, TargetWords;
    TargetFromSlots(raw, 0, m.target);
  }

  lemma SecondTargetRead(m: RapidRequest)
    ensures SecondTarget(Serialize(m)) == m.extraTarget
  {
    var raw := Serialize(m);
    forall i | 0 <= i < 17
      ensures Slot(raw, 17 + i) == TargetWords(m.extraTarget)[i]
    {
      SlotIsWord(m, 17 + i);
    }
    hide WordAt, Serialize, TargetWords;
    TargetFromSlots(raw, 17, m.extraTarget);
  }

  lemma JointsRead(m: RapidRequest)
    ensures Joints(Serialize(m)) == m.jointTarget
  {
    var raw, j := Serialize(m), m.jointTarget;
    forall i | 0 <= i < 12
      ensures Slot(raw, 34 + i) == JointWords(j)[i]
    {
      SlotIsWord(m, 34 + i);
    }
    hide WordAt, Serialize;
    var ws := JointWords(j);
    assert ws[0] == j.rax1 && ws[1] == j.rax2 && ws[2] == j.rax3;
    assert ws[3] == j.rax4 && ws[4] == j.rax5 && ws[5] == j.rax6;
    assert ws[6] == j.eaxA && ws[7] == j.eaxB && ws[8] == j.eaxC;
    assert ws[9] == j.eaxD && ws[10] == j.eaxE && ws[11] == j.eaxF;
  }

  // ----- round trip -----

  /** What the controller makes of a zone: the fine one is kept, any other becomes the next smaller it knows. */
  function ZoneMeant(z: Zone): ZoneData {
    match z
    case FINE => fine case Z1 => z0 case Z5 => z1 case Z10 => z5 case Z15 => z10 case Z20 => z15 case Z30 => z20
  }

  /** What a client asks for, in the controller's terms. */
  function Intended(c: ClientRequest): Action
    requires Request(Decode(c)).Message?
  {
    match c.command
    case MOVE_L => Plain("MoveL").(target := c.target)
    case MOVE_J => Plain("MoveJ").(target := c.target)
    case MOVE_L_OFFS => Plain("MoveLOffs").(target := c.target)
    case MOVE_J_OFFS => Plain("MoveJOffs").(target := c.target)
    case MOVE_C => Plain("MoveC").(target := c.target, extra := c.extraTarget)
    case MOVE_ABS_J => Plain("MoveAbsJ").(joints := c.jointTarget)
    case SET_SPEED => Plain("SetSpeed").(speed := Some(if c.speed < 1.0 then 0 else c.speed.Floor))
    case SET_ZONE => Plain("SetZone").(zone := Some(ZoneMeant(c.zone)))
    case EXIT => Plain("Exit")
    case PING => Plain("PING")
    case PINGR => Plain("PINGR")
    case ZERO => Plain("ZERO")
    case GETSTATUS => Plain("GETSTATUS")
    case _ => Plain("UNKNOWN")
  }

  lemma HeaderRead(m: RapidRequest)
    ensures var raw := Serialize(m); raw[0] == m.commandId && raw[1] == m.zone && HalfAt(raw, 2) == m.speed
  {
  }

  /** The controller reads back every field of the struct it has an offset for. */
  lemma ParseSerialized(m: RapidRequest)
    ensures
      var raw := Serialize(m);
      && Usint(raw, 1) == m.commandId && Usint(raw, 2) == m.zone && Uint(raw, 3) == m.speed
      && FirstTarget(raw) == m.target && SecondTarget(raw) == m.extraTarget && Joints(raw) == m.jointTarget
  {
    HeaderRead(m);
    FirstTargetRead(m);
    SecondTargetRead(m);
    JointsRead(m);
    hide Serialize, FirstTarget, SecondTarget, Joints;
  }

  lemma CommandNames(cmd: byte)
    ensures
      var name := CommandToString(cmd);
      && (name == "SetZone" <==> cmd == 0x05)
      && (name == "SetSpeed" <==> cmd == 0x04)
      && (name == "MoveC" <==> cmd == 0x02)
      && (IsSingleTarget(name) <==> cmd == 0x00 || cmd == 0x01 || cmd == 0x10 || cmd == 0x11)
      && (IsMoveCommand(name) <==> IsSingleTarget(name) || cmd == 0x02 || cmd == 0x03)
  {
  }

  /** The outcome of parsing a serialized struct, in terms of its fields. */
  function ByFields(m: RapidRequest): Outcome {
    var plain := Plain(CommandToString(m.commandId));
    if m.commandId == 0x05 then
      if ValueToZone(m.zone).None? then NoZone(m.zone) else Execute(plain.(zone := ValueToZone(m.zone)))
    else if m.commandId == 0x04 then Execute(plain.(speed := Some(m.speed)))
    else if m.commandId == 0x02 then Execute(plain.(target := Some(m.target), extra := Some(m.extraTarget)))
    else if m.commandId == 0x03 then Execute(plain.(joints := Some(m.jointTarget)))
    else if m.commandId == 0x00 || m.commandId == 0x01 || m.commandId == 0x10 || m.commandId == 0x11
    then Execute(plain.(target := Some(m.target)))
    else Execute(plain)
  }

  lemma ParseByFields(m: RapidRequest)
    ensures Parse(Serialize(m)) == ByFields(m)
  {
    ParseSerialized(m);
    CommandNames(m.commandId);
    hide Serialize, FirstTarget, SecondTarget, Joints, CommandToString, IsMoveCommand, IsSingleTarget, ValueToZone;
  }

  /**
   * Round trip: for every client request that can be packed, the controller parses from the
   * 188 bytes exactly the command, targets, joints, whole part of the speed and zone id asked for.
   */
  lemma RoundTrip(c: ClientRequest)
    requires Request(Decode(c)).Message?
    ensures Parse(Serialize(Request(Decode(c)).msg)) == Execute(Intended(c))
    ensures c.command.SET_SPEED? ==>
              Intended(c).speed.Some? && DropsFraction(c.speed, Intended(c).speed.value as real)
  {
    if c.command.SET_SPEED? {
      SpeedDropsFraction(c.speed);
    }
    ParseByFields(Request(Decode(c)).msg);
    hide Parse, Serialize, ByFields, Intended, Request, Decode;
    if c.command.NeedsTarget() || c.command.MOVE_ABS_J? {
      MovesAsIntended(c);
    } else {
      OthersAsIntended(c);
    }
  }

  lemma MovesAsIntended(c: ClientRequest)
    requires Request(Decode(c)).Message? && (c.command.NeedsTarget() || c.command.MOVE_ABS_J?)
    ensures ByFields(Request(Decode(c)).msg) == Execute(Intended(c))
  {
    RoundTripTargets(c);
    hide TranslateTarget, TranslateJoints, RobTargetBridge.ToRapid, JointTargetBridge.ToRapid;
    match c.command {
      case MOVE_L =>
      case MOVE_J =>
      case MOVE_C =>
      case MOVE_ABS_J =>
      case MOVE_L_OFFS =>
      case MOVE_J_OFFS =>
    }
  }

  lemma OthersAsIntended(c: ClientRequest)
    requires Request(Decode(c)).Message? && !c.command.NeedsTarget() && !c.command.MOVE_ABS_J?
    ensures ByFields(Request(Decode(c)).msg) == Execute(Intended(c))
  {
    hide TranslateTarget, TranslateJoints, RobTargetBridge.ToRapid, JointTargetBridge.ToRapid;
  }

  lemma RoundTripTargets(c: ClientRequest)
    ensures c.target.Some? ==> Decode(c).target.value.ToRapid() == c.target.value
    ensures c.extraTarget.Some? ==> Decode(c).extraTarget.value.ToRapid() == c.extraTarget.value
    ensures c.jointTarget.Some? ==> Decode(c).jointTarget.value.ToRapid() == c.jointTarget.value
  {
  }

  /** Packing succeeds exactly when the command's fields are there and the speed fits 16 bits. */
  lemma PackableExactlyIf(c: ClientRequest)
    ensures Request(Decode(c)).Message? <==>
              && (c.command.NeedsTarget() ==> c.target.Some?)
              && (c.command.MOVE_C? ==> c.extraTarget.Some?)
              && (c.command.MOVE_ABS_J? ==> c.jointTarget.Some?)
              && (c.command.SET_SPEED? ==> -1.0 < c.speed < 65536.0)
  {
  }

  /** The controller's zone of the same name. */
  function Namesake(z: Zone): ZoneData {
    match z
    case FINE => fine case Z1 => z1 case Z5 => z5 case Z10 => z10 case Z15 => z15 case Z20 => z20 case Z30 => z30
  }

  /** Zone ids survive the trip, but the two ends number the zones differently except for fine. */
  lemma ZoneMeaningOnlyForFine(z: Zone)
    ensures ValueToZone(z.Id()) == Some(ZoneMeant(z)) && ZoneToValue(ValueToZone(z.Id()).value) == z.Id()
    ensures ValueToZone(z.Id()).value == Namesake(z) <==> z.FINE?
  {
  }

  // ----- sending -----

  /** The first k results of send are positive. */
  ghost predicate AllPositive(os: nat -> int, k: nat) {
    forall j | 0 <= j < k :: os(j) > 0
  }

  /** Whether calls k, k + 1, ... of send get all of n bytes out. */
  predicate SendsAll(os: nat -> int, k: nat, n: nat)
    decreases n
  {
    n == 0 || (os(k) > 0 && (os(k) >= n || SendsAll(os, k + 1, n - os(k))))
  }

  /**
   * send_request: call k of send transmits os(k) bytes, at most what it was asked to, or fails.
   * The loop ends; on success exactly the message has gone out, in order and whole, after calls
   * that all succeeded; on failure a proper prefix has, and the last call is the one that failed.
   */
  method SendRequest(data: seq<byte>, os: nat -> int) returns (ok: bool, wire: seq<byte>, calls: nat)
    ensures ok <==> SendsAll(os, 0, |data|)
    ensures ok ==> wire == data && AllPositive(os, calls)
    ensures !ok ==> wire < data && calls > 0 && AllPositive(os, calls - 1) && os(calls - 1) <= 0
    ensures calls <= |data|
  {
    var total := 0;
    wire, calls := [], 0;
    while total < |data|
      invariant total <= |data| && wire == data[..total]
      invariant calls <= total && AllPositive(os, calls)
      invariant SendsAll(os, 0, |data|) <==> SendsAll(os, calls, |data| - total)
    {
      var room := |data| - total;
      var sent := if os(calls) > room then room else os(calls);
      calls := calls + 1;
      if sent <= 0 {
        return false, wire, calls;
      }
      wire := wire + data[total..total + sent];
      total := total + sent;
    }
    return true, wire, calls;
  }

  // ----- non-interference -----

  /** The bytes (counted from 0) a command's action depends on. */
  predicate Uses(cmd: byte, i: nat) {
    || i == 0
    || (cmd == 0x05 && i == 1)
    || (cmd == 0x04 && 2 <= i < 4)
    || ((cmd == 0x00 || cmd == 0x01 || cmd == 0x10 || cmd == 0x11) && 4 <= i < 72)
    || (cmd == 0x02 && 4 <= i < 140)
    || (cmd == 0x03 && 140 <= i < 188)
  }

  predicate SameIn(a: seq<byte>, b: seq<byte>, lo: nat, hi: nat) {
    hi <= |a| && hi <= |b| && forall i | lo <= i < hi :: a[i] == b[i]
  }

  lemma SameWord(a: seq<byte>, b: seq<byte>, lo: nat, hi: nat, i: nat)
    requires SameIn(a, b, lo, hi) && lo <= i && i + 4 <= hi
    ensures WordAt(a, i) == WordAt(b, i)
  {
  }

  lemma SameFirst(a: seq<byte>, b: seq<byte>)
    requires SameIn(a, b, 4, 72)
    ensures FirstTarget(a) == FirstTarget(b)
  {
    forall i: nat | 4 <= i <= 68
      ensures WordAt(a, i) == WordAt(b, i)
    {
      SameWord(a, b, 4, 72, i);
    }
    hide WordAt, SameIn;
  }

  lemma SameSecond(a: seq<byte>, b: seq<byte>)
    requires SameIn(a, b, 4, 140)
    ensures SecondTarget(a) == SecondTarget(b)
  {
    forall i: nat | 72 <= i <= 136
      ensures WordAt(a, i) == WordAt(b, i)
    {
      SameWord(a, b, 4, 140, i);
    }
    hide WordAt, SameIn;
  }

  lemma SameJoints(a: seq<byte>, b: seq<byte>)
    requires SameIn(a, b, 140, 188)
    ensures Joints(a) == Joints(b)
  {
    forall i: nat | 140 <= i <= 184
      ensures WordAt(a, i) == WordAt(b, i)
    {
      SameWord(a, b, 140, 188, i);
    }
    hide WordAt, SameIn;
  }

  /** The controller's action depends on no other byte of the message than those the command uses. */
  lemma ParseUsesOnly(a: seq<byte>, b: seq<byte>)
    requires |a| == |b| && forall i | 0 <= i < |a| && Uses(a[0], i) :: a[i] == b[i]
    ensures Parse(a) == Parse(b)
  {
    if |a| >= 4 {
      var cmd := a[0];
      assert Uses(cmd, 0);
      CommandNames(cmd);
      if (cmd == 0x00 || cmd == 0x01 || cmd == 0x10 || cmd == 0x11) && |a| >= 72 {
        assert SameIn(a, b, 4, 72) by {
          assert forall i | 4 <= i < 72 :: Uses(cmd, i);
        }
        SameFirst(a, b);
      } else if cmd == 0x02 && |a| >= 140 {
        assert SameIn(a, b, 4, 140) by {
          assert forall i | 4 <= i < 140 :: Uses(cmd, i);
        }
        SameFirst(a, b);
        SameSecond(a, b);
      } else if cmd == 0x03 && |a| >= 188 {
        assert SameIn(a, b, 140, 188) by {
          assert forall i | 140 <= i < 188 :: Uses(cmd, i);
        }
        SameJoints(a, b);
      } else if cmd == 0x05 {
        assert Uses(cmd, 1);
      } else if cmd == 0x04 {
        assert Uses(cmd, 2) && Uses(cmd, 3);
      }
      hide Uses, FirstTarget, SecondTarget, Joints, CommandToString, IsMoveCommand, IsSingleTarget, ValueToZone;
    }
  }

  /** How many bytes of a message the controller's parser needs for a command. */
  function Needed(cmd: byte): nat {
    if cmd == 0x00 || cmd == 0x01 || cmd == 0x10 || cmd == 0x11 then 72
    else if cmd == 0x02 then 140
    else if cmd == 0x03 then 188
    else 4
  }

  /** The beginning of a message is ignored, runs into its end, or is parsed like the whole. */
  lemma PrefixParses(raw: seq<byte>, n: nat)
    requires |raw| == 188 && n <= 188
    ensures Parse(raw[..n]) == if n < 4 then Ignored else if n < Needed(raw[0]) then PastEnd else Parse(raw)
  {
    if n >= 4 {
      var part := raw[..n];
      CommandNames(raw[0]);
      if n >= 72 {
        SameFirst(part, raw);
      }
      if n >= 140 {
        SameSecond(part, raw);
      }
      if n >= 188 {
        SameJoints(part, raw);
      }
      assert part[0] == raw[0] && part[1] == raw[1] && HalfAt(part, 2) == HalfAt(raw, 2);
      hide FirstTarget, SecondTarget, Joints, CommandToString, IsMoveCommand, IsSingleTarget, ValueToZone, HalfAt;
    }
  }

  /**
   * If a send fails after n bytes of a packed request, the part on the wire is still carried out
   * as the whole request exactly if it holds all bytes its command's parsing needs.
   */
  lemma PartRunsExactlyIf(c: ClientRequest, n: nat)
    requires Request(Decode(c)).Message? && n <= 188
    ensures Parse(Serialize(Request(Decode(c)).msg)[..n]) == Execute(Intended(c)) <==> n >= Needed(c.command.Id())
  {
    var m := Request(Decode(c)).msg;
    RoundTrip(c);
    HeaderRead(m);
    CommandKept(c);
    hide Parse, Serialize, Intended, Request, Decode;
    PrefixParses(Serialize(m), n);
  }

  lemma CommandKept(c: ClientRequest)
    requires Request(Decode(c)).Message?
    ensures Request(Decode(c)).msg.commandId == c.command.Id()
  {
    hide TranslateTarget, TranslateJoints, RobTargetBridge.ToRapid, JointTargetBridge.ToRapid;
  }

  /** A heartbeat is a PINGR whatever the bytes after its command id happen to be. */
  lemma HeartbeatIsPing(filler: seq<byte>)
    requires |filler| == 187
    ensures Parse([PINGR.Id()] + filler) == Execute(Plain("PINGR"))
  {
    CommandNames(0x08);
  }

  /** Any message of that id, long enough to be parsed, is a PINGR. */
  lemma PingParses(raw: seq<byte>)
    requires |raw| > 0 && raw[0] == 8
    ensures Parse(raw) == if |raw| < 4 then Ignored else Execute(Action("PINGR", None, None, None, None, None))
  {
    CommandNames(8);
  }

  /** Bytes of a block of words. */
  lemma {:induction false} FlattenByte(ws: seq<u32>, i: nat)
    requires i < 4 * |ws|
    ensures Flatten(ws)[i] == LE32(ws[i / 4])[i % 4]
  {
    var n := |ws| - 1;
    if i < 4 * n {
      FlattenByte(ws[..n], i);
    }
  }

  /** Requests that agree on their command's own fields pack alike. */
  lemma PackUsesOwnFields(d: DecodedRequest, e: DecodedRequest)
    requires d.Valid() && e.Valid() && d.cmdType == e.cmdType
    requires d.cmdType.NeedsTarget() ==> d.target == e.target
    requires d.cmdType.MOVE_C? ==> d.extraTarget == e.extraTarget
    requires d.cmdType.MOVE_ABS_J? ==> d.jointTarget == e.jointTarget
    requires d.cmdType.SET_SPEED? ==> d.speed == e.speed
    requires d.cmdType.SET_ZONE? ==> d.zone == e.zone
    ensures Request(d) == Request(e)
  {
  }

  lemma BlankWords()
    ensures forall k | 0 <= k < 17 :: TargetWords(ZERO_TARGET)[k] == 0
    ensures forall k | 0 <= k < 12 :: JointWords(ZERO_JOINTS)[k] == 0
  {
  }

  /** Word k of a packed message is zero unless the command uses its bytes. */
  lemma UnusedWordsZero(d: DecodedRequest, k: nat)
    requires d.Valid() && Request(d).Message? && k < 46 && !Uses(d.cmdType.Id(), 4 + 4 * k)
    ensures Words(Request(d).msg)[k] == 0
  {
    BlankWords();
    hide TargetWords, JointWords, RobTargetBridge.ToRapid, JointTargetBridge.ToRapid, ZERO_TARGET, ZERO_JOINTS;
  }

  /** Every byte of a packed message that its command does not use is zero. */
  lemma UnusedBytesZero(d: DecodedRequest, i: nat)
    requires d.Valid() && Request(d).Message? && i < 188 && !Uses(d.cmdType.Id(), i)
    ensures Serialize(Request(d).msg)[i] == 0
  {
    if i >= 4 {
      UsesWholeWords(d.cmdType.Id(), i);
      UnusedWordsZero(d, (i - 4) / 4);
      hide Uses, Words, Request, Flatten, DecodedRequest.Valid;
      WordByteZero(Request(d).msg, i);
    } else {
      UnusedHeaderZero(d, i);
    }
  }

  /** Past the header, a command uses all bytes of a word or none. */
  lemma UsesWholeWords(cmd: byte, i: nat)
    requires 4 <= i < 188
    ensures Uses(cmd, i) <==> Uses(cmd, 4 + 4 * ((i - 4) / 4))
  {
  }

  lemma WordByteZero(m: RapidRequest, i: nat)
    requires 4 <= i < 188 && Words(m)[(i - 4) / 4] == 0
    ensures Serialize(m)[i] == 0
  {
    FlattenByte(Words(m), i - 4);
    hide Flatten, Words;
    assert Serialize(m)[i] == Flatten(Words(m))[i - 4];
  }

  lemma UnusedHeaderZero(d: DecodedRequest, i: nat)
    requires d.Valid() && Request(d).Message? && i < 4 && !Uses(d.cmdType.Id(), i)
    ensures Serialize(Request(d).msg)[i] == 0
  {
    hide TargetWords, JointWords, RobTargetBridge.ToRapid, JointTargetBridge.ToRapid;
  }
}
