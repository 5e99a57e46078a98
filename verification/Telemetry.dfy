/**
 * Robot state on its way back: the controller packs it (robert-rapid/TelemetryModule.mod), the
 * middleware unpacks it (src/commands/decoder.cpp).
 */
module Telemetry {
  import opened Bytes
  import opened RobotData
  import opened RapidParsing
  import Pipeline

  datatype RobotState = RobotState(
    speedOverride: Float, speed: Float, zone: ZoneData,
    target: RobTarget, joints: JointTarget, time: seq<byte>, date: seq<byte>)

  // ----- small integers as floats -----

  /** The bit patterns of 0.0 to 7.0. */
  function FloatOf(n: nat): Float
    requires n < 8
  {
    if n == 0 then 0 else if n == 1 then 0x3F80_0000 else if n == 2 then 0x4000_0000
    else if n == 3 then 0x4040_0000 else if n == 4 then 0x4080_0000 else if n == 5 then 0x40A0_0000
    else if n == 6 then 0x40C0_0000 else 0x40E0_0000
  }

  /** The conversion back, for those patterns. */
  function SmallInt(w: Float): Option<nat> {
    if w == 0 then Some(0) else if w == 0x3F80_0000 then Some(1) else if w == 0x4000_0000 then Some(2)
    else if w == 0x4040_0000 then Some(3) else if w == 0x4080_0000 then Some(4) else if w == 0x40A0_0000 then Some(5)
    else if w == 0x40C0_0000 then Some(6) else if w == 0x40E0_0000 then Some(7) else None
  }

  /** The value of a positive normal pattern in the binary32 format of IEEE 754: (1 + fraction) * 2^exponent. */
  function ValueOf(w: Float): real
    requires 0x3F80_0000 <= w < 0x4180_0000
  {
    (1.0 + (w % 0x80_0000) as real / 8388608.0) * Power2(w / 0x80_0000 - 127)
  }

  function Power2(e: nat): real {
    if e == 0 then 1.0 else 2.0 * Power2(e - 1)
  }

  /** The patterns of the small numbers are what the format says, and no other pattern is read as one of them. */
  lemma SmallFloats(n: nat, w: Float)
    requires n < 8
    ensures n == 0 <==> FloatOf(n) == 0
    ensures n > 0 ==> 0x3F80_0000 <= FloatOf(n) < 0x4180_0000 && ValueOf(FloatOf(n)) == n as real
    ensures SmallInt(w) == Some(n) <==> w == FloatOf(n)
  {
    assert Power2(0) == 1.0 && Power2(1) == 2.0 && Power2(2) == 4.0;
  }

  // ----- the payload -----

  const CAPACITY := 1024
  const TIME_AT := 129
  const DATE_AT := 161

  /** What the controller can report: cfx fits a DINT and the strings fit their places. */
  predicate Reportable(s: RobotState) {
    s.target.cfx < 0x8000_0000 && |s.time| <= DATE_AT - TIME_AT && 0 < |s.date| <= CAPACITY - DATE_AT
  }

  function StateWords(s: RobotState): (ws: seq<u32>)
    ensures |ws| == 32
  {
    [s.speedOverride, s.speed, FloatOf(ZoneToValue(s.zone))] + TargetWords(s.target) + JointWords(s.joints)
  }

  /** The words in the order of their places. */
  lemma StateWordsAt(s: RobotState)
    ensures
      var ws, t, j := StateWords(s), s.target, s.joints;
      && ws[0] == s.speedOverride && ws[1] == s.speed && ws[2] == FloatOf(ZoneToValue(s.zone))
      && ws[3] == t.x && ws[4] == t.y && ws[5] == t.z
      && ws[6] == t.q1 && ws[7] == t.q2 && ws[8] == t.q3 && ws[9] == t.q4
      && ws[10] == Unsigned(t.cf1) && ws[11] == Unsigned(t.cf4) && ws[12] == Unsigned(t.cf6) && ws[13] == t.cfx
      && ws[14] == t.eaxA && ws[15] == t.eaxB && ws[16] == t.eaxC
      && ws[17] == t.eaxD && ws[18] == t.eaxE && ws[19] == t.eaxF
      && ws[20] == j.rax1 && ws[21] == j.rax2 && ws[22] == j.rax3
      && ws[23] == j.rax4 && ws[24] == j.rax5 && ws[25] == j.rax6
      && ws[26] == j.eaxA && ws[27] == j.eaxB && ws[28] == j.eaxC
      && ws[29] == j.eaxD && ws[30] == j.eaxE && ws[31] == j.eaxF
  {
  }

  function Zeros(n: nat): (b: seq<byte>)
    ensures |b| == n
  {
    seq(n, i => 0)
  }

  function Payload(s: RobotState): (b: seq<byte>)
    requires Reportable(s)
    ensures |b| == DATE_AT + |s.date|
  {
    [0] + Flatten(StateWords(s)) + (s.time + Zeros(DATE_AT - TIME_AT - |s.time|) + s.date)
  }

  // ----- packing in place -----

  /** The first j words of ws are in the buffer, and nothing after them. */
  ghost predicate PackedUpTo(buf: array<byte>, ws: seq<u32>, j: nat)
    reads buf
  {
    && buf.Length == CAPACITY && j <= |ws| && 1 + 4 * |ws| <= CAPACITY
    && buf[..1 + 4 * j] == [0] + Flatten(ws[..j])
    && forall k | 1 + 4 * j <= k < CAPACITY :: buf[k] == 0
  }

  /** PackRawBytes of a four-byte value at index i, counted from 1. */
  method PackWord(buf: array<byte>, i: nat, w: u32, ghost ws: seq<u32>, ghost j: nat)
    requires PackedUpTo(buf, ws, j) && j < |ws| && w == ws[j] && i == 2 + 4 * j
    modifies buf
    ensures PackedUpTo(buf, ws, j + 1)
  {
    buf[i - 1] := w % 256;
    buf[i] := w / 0x100 % 256;
    buf[i + 1] := w / 0x1_0000 % 256;
    buf[i + 2] := w / 0x100_0000;
    assert buf[i - 1..i + 3] == LE32(w);
    assert buf[..1 + 4 * (j + 1)] == buf[..1 + 4 * j] + buf[i - 1..i + 3];
    assert ws[..j + 1][..j] == ws[..j] && ws[..j + 1][j] == w;
  }

  /** PackRawBytes of a string at index i, counted from 1. */
  method PackText(buf: array<byte>, i: nat, text: seq<byte>)
    requires buf.Length == CAPACITY && 1 <= i && i - 1 + |text| <= CAPACITY
    modifies buf
    ensures buf[..] == old(buf[..i - 1]) + text + old(buf[i - 1 + |text|..])
  {
    for k := 0 to |text|
      invariant buf[..i - 1] == old(buf[..i - 1]) && buf[i - 1..i - 1 + k] == text[..k]
      invariant buf[i - 1 + k..] == old(buf[i - 1 + k..])
    {
      buf[i - 1 + k] := text[k];
      assert buf[i - 1..i + k] == buf[i - 1..i - 1 + k] + [text[k]];
    }
  }

  /** HandleGetState, first part: speed, zone, position and orientation. */
  method PackPose(buf: array<byte>, s: RobotState)
    requires PackedUpTo(buf, StateWords(s), 0)
    modifies buf
    ensures PackedUpTo(buf, StateWords(s), 10)
  {
    StateWordsAt(s);
    hide PackedUpTo, Unsigned, StateWords, FloatOf;
    var t := s.target;
    ghost var ws := StateWords(s);
    PackWord(buf, 2, s.speedOverride, ws, 0);
    PackWord(buf, 6, s.speed, ws, 1);
    PackWord(buf, 10, FloatOf(ZoneToValue(s.zone)), ws, 2);
    PackWord(buf, 14, t.x, ws, 3);
    PackWord(buf, 18, t.y, ws, 4);
    PackWord(buf, 22, t.z, ws, 5);
    PackWord(buf, 26, t.q1, ws, 6);
    PackWord(buf, 30, t.q2, ws, 7);
    PackWord(buf, 34, t.q3, ws, 8);
    PackWord(buf, 38, t.q4, ws, 9);
  }

  /** Second part: arm configuration and external axes. */
  method PackConfiguration(buf: array<byte>, s: RobotState)
    requires PackedUpTo(buf, StateWords(s), 10) && s.target.cfx < 0x8000_0000
    modifies buf
    ensures PackedUpTo(buf, StateWords(s), 20)
  {
    StateWordsAt(s);
    hide PackedUpTo, Unsigned, StateWords, FloatOf;
    var t := s.target;
    ghost var ws := StateWords(s);
    PackWord(buf, 42, Unsigned(t.cf1), ws, 10);
    PackWord(buf, 46, Unsigned(t.cf4), ws, 11);
    PackWord(buf, 50, Unsigned(t.cf6), ws, 12);
    PackWord(buf, 54, t.cfx, ws, 13);
    PackWord(buf, 58, t.eaxA, ws, 14);
    PackWord(buf, 62, t.eaxB, ws, 15);
    PackWord(buf, 66, t.eaxC, ws, 16);
    PackWord(buf, 70, t.eaxD, ws, 17);
    PackWord(buf, 74, t.eaxE, ws, 18);
    PackWord(buf, 78, t.eaxF, ws, 19);
  }

  /** Third part: the current joints. */
  method PackJoints(buf: array<byte>, s: RobotState)
    requires PackedUpTo(buf, StateWords(s), 20)
    modifies buf
    ensures PackedUpTo(buf, StateWords(s), 32)
  {
    StateWordsAt(s);
    hide PackedUpTo, StateWords;
    var j := s.joints;
    ghost var ws := StateWords(s);
    PackWord(buf, 82, j.rax1, ws, 20);
    PackWord(buf, 86, j.rax2, ws, 21);
    PackWord(buf, 90, j.rax3, ws, 22);
    PackWord(buf, 94, j.rax4, ws, 23);
    PackWord(buf, 98, j.rax5, ws, 24);
    PackWord(buf, 102, j.rax6, ws, 25);
    PackWord(buf, 106, j.eaxA, ws, 26);
    PackWord(buf, 110, j.eaxB, ws, 27);
    PackWord(buf, 114, j.eaxC, ws, 28);
    PackWord(buf, 118, j.eaxD, ws, 29);
    PackWord(buf, 122, j.eaxE, ws, 30);
    PackWord(buf, 126, j.eaxF, ws, 31);
  }

  /** The words and the time, in their places. */
  function Front(s: RobotState): (b: seq<byte>)
    requires Reportable(s)
    ensures |b| == DATE_AT
  {
    [0] + Flatten(StateWords(s)) + s.time + Zeros(DATE_AT - TIME_AT - |s.time|)
  }

  lemma FrontOfPayload(s: RobotState)
    requires Reportable(s)
    ensures Payload(s) == Front(s) + s.date
  {
    hide Flatten, StateWords, Zeros;
  }

  /** Fourth part: the time, after the words. */
  method PackTime(buf: array<byte>, s: RobotState)
    requires Reportable(s) && PackedUpTo(buf, StateWords(s), 32)
    modifies buf
    ensures buf.Length == CAPACITY && buf[..DATE_AT] == Front(s)
  {
    assert StateWords(s)[..32] == StateWords(s);
    hide Flatten, StateWords;
    assert buf[TIME_AT + |s.time|..DATE_AT] == Zeros(DATE_AT - TIME_AT - |s.time|);
    ghost var words, rest := buf[..TIME_AT], buf[TIME_AT + |s.time|..];
    assert rest[..DATE_AT - TIME_AT - |s.time|] == Zeros(DATE_AT - TIME_AT - |s.time|);
    PackText(buf, 130, s.time);
    assert buf[..] == words + s.time + rest;
    assert buf[..DATE_AT] == words + s.time + rest[..DATE_AT - TIME_AT - |s.time|];
  }

  /** Last part: the date. */
  method PackDate(buf: array<byte>, s: RobotState)
    requires Reportable(s) && buf.Length == CAPACITY && buf[..DATE_AT] == Front(s)
    modifies buf
    ensures buf.Length == CAPACITY && buf[..DATE_AT + |s.date|] == Payload(s)
  {
    FrontOfPayload(s);
    hide Front, Payload;
    ghost var head := buf[..DATE_AT];
    PackText(buf, 162, s.date);
    assert buf[..DATE_AT + |s.date|] == head + s.date;
  }

  /** HandleGetState: fills a cleared buffer at fixed places and sends it up to the last byte packed. */
  method HandleGetState(s: RobotState) returns (payload: seq<byte>)
    requires Reportable(s)
    ensures payload == Payload(s)
  {
    var buf := new byte[CAPACITY](i => 0);
    assert StateWords(s)[..0] == [];
    assert buf[..1] == [0];
    buf[0] := 0;
    hide StateWords, Payload;
    PackPose(buf, s);
    PackConfiguration(buf, s);
    PackJoints(buf, s);
    PackTime(buf, s);
    PackDate(buf, s);
    payload := buf[..DATE_AT + |s.date|];
  }

  // ----- unpacking -----

  datatype RobotStatus = RobotStatus(
    opMode: byte, speedOverride: Float, speed: Float, zone: Option<nat>,
    target: RobTarget, joints: JointTarget, time: seq<byte>, date: seq<byte>)

  datatype Unpacked = TooSmall | OutOfBounds | Status(status: RobotStatus)

  const MINIMUM := 162
  const NEEDED := 171

  /** One read_from_buffer, or one string taken from the buffer. */
  datatype Read = Read(offset: nat, width: nat) {
    predicate Fits(n: nat) {
      offset + width <= n
    }
  }

  const READS := 35

  /** The reads of unpack_robot_status in their order: the mode, 32 four-byte values, time and date. */
  function ReadNo(i: nat): Read
    requires i < READS
  {
    if i == 0 then Read(0, 1)
    else if i <= 32 then Read(4 * i - 3, 4)
    else if i == 33 then Read(TIME_AT, 8)
    else Read(DATE_AT, 10)
  }

  /** The first n reads stay within the buffer. */
  predicate ReadsFit(raw: seq<byte>, n: nat)
    requires n <= READS
  {
    forall i | 0 <= i < n :: ReadNo(i).Fits(|raw|)
  }

  /** The size check lets 162 bytes pass, where exactly the last of the reads overruns the buffer. */
  lemma InBoundsExactlyIf(raw: seq<byte>, i: nat)
    requires MINIMUM <= |raw| && i < READS
    ensures ReadsFit(raw, READS) <==> |raw| >= NEEDED
    ensures ReadNo(i).Fits(|raw|) <==> i != READS - 1 || |raw| >= NEEDED
  {
    assert ReadNo(READS - 1) == Read(DATE_AT, 10);
  }

  function TargetAt(raw: seq<byte>): RobTarget
    requires |raw| >= 81
  {
    RobTarget(WordAt(raw, 13), WordAt(raw, 17), WordAt(raw, 21),
              WordAt(raw, 25), WordAt(raw, 29), WordAt(raw, 33), WordAt(raw, 37),
              Signed(WordAt(raw, 41)), Signed(WordAt(raw, 45)), Signed(WordAt(raw, 49)), WordAt(raw, 53),
              WordAt(raw, 57), WordAt(raw, 61), WordAt(raw, 65), WordAt(raw, 69), WordAt(raw, 73), WordAt(raw, 77))
  }

  function JointsAt(raw: seq<byte>): JointTarget
    requires |raw| >= 129
  {
    JointTarget(WordAt(raw, 81), WordAt(raw, 85), WordAt(raw, 89),
                WordAt(raw, 93), WordAt(raw, 97), WordAt(raw, 101),
                WordAt(raw, 105), WordAt(raw, 109), WordAt(raw, 113),
                WordAt(raw, 117), WordAt(raw, 121), WordAt(raw, 125))
  }

  /** What unpack_robot_status makes of a payload, if all its reads are within it. */
  function Unpack(raw: seq<byte>): Unpacked {
    if |raw| < MINIMUM then TooSmall
    else if !ReadsFit(raw, READS) then OutOfBounds
    else
      assert ReadNo(READS - 1).Fits(|raw|);
      Status(RobotStatus(raw[0], WordAt(raw, 1), WordAt(raw, 5), SmallInt(WordAt(raw, 9)),
                         TargetAt(raw), JointsAt(raw), raw[TIME_AT..TIME_AT + 8], raw[DATE_AT..DATE_AT + 10]))
  }

  /** read_from_buffer, which does not look at the size; it is known here whether a read has overrun. */
  class Reader {
    const raw: seq<byte>
    var count: nat
    var overrun: bool

    ghost predicate Valid()
      reads this
    {
      count <= READS && (overrun <==> !ReadsFit(raw, count))
    }

    constructor (raw: seq<byte>)
      ensures Valid() && this.raw == raw && count == 0
    {
      this.raw := raw;
      count, overrun := 0, false;
    }

    /** A read gives what is at its place, or anything if it overruns. */
    method Text(offset: nat, width: nat) returns (text: seq<byte>)
      requires Valid() && count < READS && ReadNo(count) == Read(offset, width)
      modifies this
      ensures Valid() && count == old(count) + 1
      ensures Read(offset, width).Fits(|raw|) ==> text == raw[offset..offset + width]
      ensures |text| == width
    {
      var fits := offset + width <= |raw|;
      ghost var n := count;
      count, overrun := count + 1, overrun || !fits;
      text := if fits then raw[offset..offset + width] else Zeros(width);
      assert ReadNo(n).Fits(|raw|) <==> fits;
    }

    method Word(offset: nat) returns (w: u32)
      requires Valid() && count < READS && ReadNo(count) == Read(offset, 4)
      modifies this
      ensures Valid() && count == old(count) + 1
      ensures Read(offset, 4).Fits(|raw|) ==> w == WordAt(raw, offset)
    {
      var bytes := Text(offset, 4);
      w := WordAt(bytes, 0);
    }

    method Target() returns (t: RobTarget)
      requires Valid() && count == 4
      modifies this
      ensures Valid() && count == 21
      ensures |raw| >= 81 ==> t == TargetAt(raw)
    {
      hide ReadsFit, WordAt, Signed;
      var x := Word(13);
      var y := Word(17);
      var z := Word(21);
      var q1 := Word(25);
      var q2 := Word(29);
      var q3 := Word(33);
      var q4 := Word(37);
      var cf1 := Word(41);
      var cf4 := Word(45);
      var cf6 := Word(49);
      var cfx := Word(53);
      var a := Word(57);
      var b := Word(61);
      var c := Word(65);
      var d := Word(69);
      var e := Word(73);
      var f := Word(77);
      t := RobTarget(x, y, z, q1, q2, q3, q4, Signed(cf1), Signed(cf4), Signed(cf6), cfx, a, b, c, d, e, f);
    }

    method Joints() returns (j: JointTarget)
      requires Valid() && count == 21
      modifies this
      ensures Valid() && count == 33
      ensures |raw| >= 129 ==> j == JointsAt(raw)
    {
      hide ReadsFit, WordAt;
      var r1 := Word(81);
      var r2 := Word(85);
      var r3 := Word(89);
      var r4 := Word(93);
      var r5 := Word(97);
      var r6 := Word(101);
      var a := Word(105);
      var b := Word(109);
      var c := Word(113);
      var d := Word(117);
      var e := Word(121);
      var f := Word(125);
      j := JointTarget(r1, r2, r3, r4, r5, r6, a, b, c, d, e, f);
    }
  }

  /** unpack_robot_status, field by field; any read past the end leaves the defined behaviour. */
  method UnpackRobotStatus(raw: seq<byte>) returns (r: Unpacked)
    ensures r == Unpack(raw)
  {
    if |raw| < MINIMUM {
      return TooSmall;
    }
    hide WordAt, TargetAt, JointsAt;
    var reader := new Reader(raw);
    var mode := reader.Text(0, 1);
    var speedOverride := reader.Word(1);
    var speed := reader.Word(5);
    var zone := reader.Word(9);
    var target := reader.Target();
    var joints := reader.Joints();
    var time := reader.Text(TIME_AT, 8);
    var date := reader.Text(DATE_AT, 10);
    if reader.overrun {
      return OutOfBounds;
    }
    assert ReadNo(READS - 1).Fits(|raw|);
    return Status(RobotStatus(mode[0], speedOverride, speed, SmallInt(zone), target, joints, time, date));
  }

  // ----- round trip -----

  lemma WordAtPlace(s: RobotState, i: nat)
    requires Reportable(s) && i < 32
    ensures WordAt(Payload(s), 1 + 4 * i) == StateWords(s)[i]
  {
    FlattenWord([0], StateWords(s), s.time + Zeros(DATE_AT - TIME_AT - |s.time|) + s.date, i);
    hide Flatten, WordAt, StateWords;
  }

  /** The word i after the one-byte operation mode. */
  function Place(raw: seq<byte>, i: nat): u32
    requires 5 + 4 * i <= |raw|
  {
    WordAt(raw, 1 + 4 * i)
  }

  lemma TargetBack(s: RobotState)
    requires Reportable(s)
    ensures TargetAt(Payload(s)) == s.target
  {
    var raw, ws := Payload(s), TargetWords(s.target);
    forall i | 0 <= i < 17
      ensures Place(raw, 3 + i) == ws[i]
    {
      WordAtPlace(s, 3 + i);
    }
    hide WordAt, Payload, Signed, Unsigned, StateWords;
    var t := s.target;
    assert ws[0] == t.x && ws[1] == t.y && ws[2] == t.z;
    assert ws[3] == t.q1 && ws[4] == t.q2 && ws[5] == t.q3 && ws[6] == t.q4;
    assert ws[7] == Unsigned(t.cf1) && ws[8] == Unsigned(t.cf4) && ws[9] == Unsigned(t.cf6) && ws[10] == t.cfx;
    assert ws[11] == t.eaxA && ws[12] == t.eaxB && ws[13] == t.eaxC;
    assert ws[14] == t.eaxD && ws[15] == t.eaxE && ws[16] == t.eaxF;
    SignedUnsigned(t.cf1);
    SignedUnsigned(t.cf4);
    SignedUnsigned(t.cf6);
  }

  lemma JointsBack(s: RobotState)
    requires Reportable(s)
    ensures JointsAt(Payload(s)) == s.joints
  {
    var raw, ws := Payload(s), JointWords(s.joints);
    forall i | 0 <= i < 12
      ensures Place(raw, 20 + i) == ws[i]
    {
      WordAtPlace(s, 20 + i);
    }
    hide WordAt, Payload, StateWords;
    var j := s.joints;
    assert ws[0] == j.rax1 && ws[1] == j.rax2 && ws[2] == j.rax3;
    assert ws[3] == j.rax4 && ws[4] == j.rax5 && ws[5] == j.rax6;
    assert ws[6] == j.eaxA && ws[7] == j.eaxB && ws[8] == j.eaxC;
    assert ws[9] == j.eaxD && ws[10] == j.eaxE && ws[11] == j.eaxF;
  }

  /** The strings come back exactly when they have the eight and ten characters that are read. */
  lemma TextsBackExactlyIf(s: RobotState)
    requires Reportable(s) && |s.date| >= 10
    ensures
      var raw := Payload(s);
      && Unpack(raw).Status?
      && (Unpack(raw).status.time == s.time <==> |s.time| == 8)
      && (Unpack(raw).status.date == s.date <==> |s.date| == 10)
  {
    var raw, head := Payload(s), [0] + Flatten(StateWords(s));
    hide Flatten, StateWords, WordAt, TargetAt, JointsAt, SmallInt;
    assert raw[DATE_AT..] == s.date;
    assert raw[TIME_AT..TIME_AT + |s.time|] == s.time;
  }

  /**
   * Round trip: what the middleware unpacks is the controller's state, every target, joint and
   * speed bit for bit, the zone id, and both strings.
   */
  lemma RoundTrip(s: RobotState)
    requires Reportable(s) && |s.time| == 8 && |s.date| == 10
    ensures Unpack(Payload(s)) ==
            Status(RobotStatus(0, s.speedOverride, s.speed, Some(ZoneToValue(s.zone)), s.target, s.joints,
                               s.time, s.date))
  {
    TargetBack(s);
    JointsBack(s);
    TextsBackExactlyIf(s);
    WordAtPlace(s, 0);
    WordAtPlace(s, 1);
    WordAtPlace(s, 2);
    hide WordAt, TargetAt, JointsAt, TargetWords, JointWords, Flatten;
  }

  /** The leading zero byte keeps the server from reading a status as a refusal, and one receive holds it. */
  lemma StatusIsNoRefusal(s: RobotState)
    requires Reportable(s) && |s.date| == 10
    ensures Payload(s)[0] == 0 && |Payload(s)| == NEEDED <= 255
    ensures !Pipeline.IsRefusal(Payload(s))
  {
    hide Flatten, StateWords;
  }
}
