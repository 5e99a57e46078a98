/** Bytes, 32-bit words and the little-endian layout both ends of the robot link use. */
module Bytes {
  datatype Option<+T> = None | Some(value: T)

  type byte = x: int | 0 <= x < 256
  type u16 = x: int | 0 <= x < 0x1_0000
  type u32 = x: int | 0 <= x < 0x1_0000_0000
  type i32 = x: int | -0x8000_0000 <= x < 0x8000_0000

  /** A 32-bit float, kept as its bit pattern. */
  type Float = u32

  // ----- two's complement -----

  function Unsigned(x: i32): u32 {
    if x < 0 then x + 0x1_0000_0000 else x
  }

  function Signed(x: u32): i32 {
    if x < 0x8000_0000 then x else x - 0x1_0000_0000
  }

  lemma SignedUnsigned(x: i32)
    ensures Signed(Unsigned(x)) == x
  {
  }

  /** Both are two's complement: the signed and the unsigned reading differ by a multiple of 2^32. */
  lemma TwosComplement(x: i32, w: u32)
    ensures (Unsigned(x) - x) % 4294967296 == 0
    ensures (Signed(w) - w) % 4294967296 == 0
  {
  }

  // ----- words and bytes -----

  function LE16(w: u16): (b: seq<byte>)
    ensures |b| == 2
  {
    [w % 256, w / 256]
  }

  function LE32(w: u32): (b: seq<byte>)
    ensures |b| == 4
  {
    [w % 256, w / 0x100 % 256, w / 0x1_0000 % 256, w / 0x100_0000]
  }

  function HalfAt(b: seq<byte>, i: nat): u16
    requires i + 2 <= |b|
  {
    b[i] as int + 0x100 * (b[i + 1] as int)
  }

  function WordAt(b: seq<byte>, i: nat): u32
    requires i + 4 <= |b|
  {
    b[i] as int + 0x100 * (b[i + 1] as int) + 0x1_0000 * (b[i + 2] as int) + 0x100_0000 * (b[i + 3] as int)
  }

  function Power256(j: nat): (p: nat)
    ensures p > 0
  {
    if j == 0 then 1 else 256 * Power256(j - 1)
  }

  /** Least significant byte first. */
  lemma ByteOrder(w: u32, h: u16, j: nat)
    ensures j < 4 ==> LE32(w)[j] == w / Power256(j) % 256
    ensures j < 2 ==> LE16(h)[j] == h / Power256(j) % 256
  {
    assert Power256(1) == 256 && Power256(2) == 65536 && Power256(3) == 16777216;
  }

  lemma LE32Inverse(w: u32)
    ensures WordAt(LE32(w), 0) == w
  {
    var q1, q2 := w / 0x100, w / 0x1_0000;
    assert w == w % 0x100 + 0x100 * q1;
    assert q1 == q1 % 0x100 + 0x100 * q2;
    assert q2 == q2 % 0x100 + 0x100 * (w / 0x100_0000);
  }

  /** A sequence of words laid out one after the other. */
  function Flatten(ws: seq<u32>): (b: seq<byte>)
    ensures |b| == 4 * |ws|
  {
    if ws == [] then [] else Flatten(ws[..|ws| - 1]) + LE32(ws[|ws| - 1])
  }

  lemma {:induction false} FlattenAppend(a: seq<u32>, b: seq<u32>)
    ensures Flatten(a + b) == Flatten(a) + Flatten(b)
  {
    if b == [] {
      assert a + b == a;
    } else {
      var b' := b[..|b| - 1];
      assert (a + b)[..|a + b| - 1] == a + b';
      FlattenAppend(a, b');
    }
  }

  lemma WordWithin(before: seq<byte>, w: u32, after: seq<byte>)
    ensures WordAt(before + LE32(w) + after, |before|) == w
  {
    var b := before + LE32(w) + after;
    assert forall k | 0 <= k < 4 :: b[|before| + k] == LE32(w)[k];
    LE32Inverse(w);
  }

  lemma FlattenSplit(before: seq<u32>, w: u32, after: seq<u32>)
    ensures Flatten(before + [w] + after) == Flatten(before) + LE32(w) + Flatten(after)
  {
    FlattenAppend(before + [w], after);
    assert (before + [w])[..|before|] == before;
  }

  lemma Regroup(a: seq<byte>, b: seq<byte>, c: seq<byte>, d: seq<byte>, e: seq<byte>)
    ensures a + (b + c + d) + e == (a + b) + c + (d + e)
  {
  }

  lemma WordAfter(head: seq<byte>, before: seq<byte>, w: u32, after: seq<byte>, tail: seq<byte>)
    ensures WordAt(head + (before + LE32(w) + after) + tail, |head| + |before|) == w
  {
    Regroup(head, before, LE32(w), after, tail);
    WordWithin(head + before, w, after + tail);
  }

  /** Word i of a packed block is read back by a four-byte read at offset 4 * i after the header. */
  lemma FlattenWord(head: seq<byte>, ws: seq<u32>, tail: seq<byte>, i: nat)
    requires i < |ws|
    ensures WordAt(head + Flatten(ws) + tail, |head| + 4 * i) == ws[i]
  {
    hide LE32, WordAt, Flatten;
    var b, before, after := Flatten(ws), Flatten(ws[..i]), Flatten(ws[i + 1..]);
    assert b == before + LE32(ws[i]) + after by {
      FlattenSplit(ws[..i], ws[i], ws[i + 1..]);
      assert ws == ws[..i] + [ws[i]] + ws[i + 1..];
    }
    WordAfter(head, before, ws[i], after, tail);
  }

  // ----- text -----

  /** Program text as bytes. */
  function Ascii(s: string): (b: seq<byte>)
    ensures |b| == |s|
  {
    seq(|s|, i requires 0 <= i < |s| => s[i] as int % 256)
  }

  lemma AsciiIsItself(s: string, i: nat)
    requires i < |s| && s[i] < 128 as char
    ensures Ascii(s)[i] == s[i] as int
  {
  }

  predicate StartsWith(b: seq<byte>, prefix: seq<byte>) {
    prefix <= b
  }
}
