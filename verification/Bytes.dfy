/** Byte strings and the fixed-width integers Go's encoding/binary reads from them; optional values, and
    maps read and written with them. */
module Bytes {

  type byte = b: int | 0 <= b < 256
  type bytes = seq<byte>

  type u16 = n: int | 0 <= n < 0x1_0000
  type u32 = n: int | 0 <= n < 0x1_0000_0000
  type u64 = n: int | 0 <= n < 0x1_0000_0000_0000_0000
  type i64 = n: int | -0x8000_0000_0000_0000 <= n < 0x8000_0000_0000_0000

  datatype Option<+T> = None | Some(value: T)

  function Get<K, C>(m: map<K, C>, k: K): Option<C> {
    if k in m then Some(m[k]) else None
  }

  function Put<K, C>(m: map<K, C>, k: K, c: Option<C>): map<K, C> {
    if c.Some? then m[k := c.value] else m - {k}
  }

  /** 256 to the power k: how many values fit in k bytes. */
  function Span(k: nat): (m: nat)
    ensures m > 0
  {
    if k == 0 then 1 else 256 * Span(k - 1)
  }

  /** The number a little-endian byte string stands for. */
  function FromLittle(s: bytes): (v: nat)
    ensures v < Span(|s|)
  {
    if s == [] then 0 else s[0] + 256 * FromLittle(s[1..])
  }

  /** The low k bytes of a number, least significant first. */
  function ToLittle(v: nat, k: nat): (s: bytes)
    ensures |s| == k
  {
    if k == 0 then [] else [v % 256] + ToLittle(v / 256, k - 1)
  }

  /** The number a big-endian (network order) byte string stands for. */
  function FromBig(s: bytes): (v: nat)
    ensures v < Span(|s|)
  {
    if s == [] then 0 else 256 * FromBig(s[..|s| - 1]) + s[|s| - 1]
  }

  /** The low k bytes of a number, most significant first. */
  function ToBig(v: nat, k: nat): (s: bytes)
    ensures |s| == k
  {
    if k == 0 then [] else ToBig(v / 256, k - 1) + [v % 256]
  }

  lemma SplitByte(b: byte, v: nat)
    ensures (256 * v + b) % 256 == b && (256 * v + b) / 256 == v
  {
  }

  lemma {:induction false} LittleOfNumber(v: nat, k: nat)
    requires v < Span(k)
    ensures FromLittle(ToLittle(v, k)) == v
  {
    if k > 0 {
      LittleOfNumber(v / 256, k - 1);
    }
  }

  lemma {:induction false} LittleOfBytes(s: bytes)
    ensures ToLittle(FromLittle(s), |s|) == s
  {
    if s != [] {
      LittleOfBytes(s[1..]);
      SplitByte(s[0], FromLittle(s[1..]));
    }
  }

  lemma {:induction false} BigOfNumber(v: nat, k: nat)
    requires v < Span(k)
    ensures FromBig(ToBig(v, k)) == v
  {
    if k > 0 {
      BigOfNumber(v / 256, k - 1);
    }
  }

  lemma {:induction false} BigOfBytes(s: bytes)
    ensures ToBig(FromBig(s), |s|) == s
  {
    if s != [] {
      BigOfBytes(s[..|s| - 1]);
      SplitByte(s[|s| - 1], FromBig(s[..|s| - 1]));
    }
  }

  /** The spans the formats use, as literals. */
  lemma SpanValues()
    ensures Span(2) == 0x1_0000 && Span(4) == 0x1_0000_0000
    ensures Span(8) == 0x1_0000_0000_0000_0000
    ensures Span(16) == 0x1_0000_0000_0000_0000_0000_0000_0000_0000
  {
    assert Span(4) == 65536 * Span(2);
    assert Span(6) == 65536 * Span(4);
    assert Span(8) == 65536 * Span(6);
    assert Span(10) == 65536 * Span(8);
    assert Span(12) == 65536 * Span(10);
    assert Span(14) == 65536 * Span(12);
    assert Span(16) == 65536 * Span(14);
  }

  // ---- which byte counts for what ----

  /** The number the two bytes from i on stand for, the first counting ones. */
  function Two(s: bytes, i: nat): nat
    requires i + 2 <= |s|
  {
    s[i] as int + 0x100 * s[i + 1] as int
  }

  function Four(s: bytes, i: nat): nat
    requires i + 4 <= |s|
  {
    Two(s, i) + 0x1_0000 * Two(s, i + 2)
  }

  function Eight(s: bytes, i: nat): nat
    requires i + 8 <= |s|
  {
    Four(s, i) + 0x1_0000_0000 * Four(s, i + 4)
  }

  lemma LittleTwo(s: bytes)
    requires |s| == 2
    ensures FromLittle(s) == Two(s, 0)
  {
    assert FromLittle(s[1..]) == s[1] as int + 256 * FromLittle(s[1..][1..]);
  }

  lemma LittleFour(s: bytes)
    requires |s| == 4
    ensures FromLittle(s) == Four(s, 0)
  {
    LittleTwo(s[2..]);
    assert s[1..][1..] == s[2..];
  }

  lemma LittleEight(s: bytes)
    requires |s| == 8
    ensures FromLittle(s) == Eight(s, 0)
  {
    LittleFour(s[4..]);
    assert s[1..][1..] == s[2..] && s[2..][1..] == s[3..] && s[3..][1..] == s[4..];
    assert FromLittle(s[2..]) == Two(s, 2) + 0x1_0000 * FromLittle(s[4..]);
  }

  /** In network order the last byte counts ones, and each before it 256 times as much as the next. */
  lemma BigFour(s: bytes)
    requires |s| == 4
    ensures FromBig(s) == 0x1_0000 * (0x100 * s[0] as int + s[1] as int) + 0x100 * s[2] as int + s[3] as int
  {
    var t := s[..3];
    assert t[..2] == s[..2] && s[..2][..1] == s[..1];
    assert FromBig(s[..1]) == 256 * FromBig(s[..1][..0]) + s[0] as int;
    assert FromBig(s[..2]) == 0x100 * s[0] as int + s[1] as int;
    assert FromBig(t) == 0x100 * FromBig(s[..2]) + s[2] as int;
  }

  /** So the later bytes count what they count alone. */
  lemma {:induction false} BigSplit(a: bytes, b: bytes)
    ensures FromBig(a + b) == FromBig(a) * Span(|b|) + FromBig(b)
  {
    if b == [] {
      assert a + b == a;
    } else {
      var front, last := b[..|b| - 1], b[|b| - 1];
      assert (a + b)[..|a + b| - 1] == a + front;
      BigSplit(a, front);
      Regroup(FromBig(a), Span(|front|), FromBig(front));
      assert FromBig(a + b) == 256 * FromBig(a + front) + last as int;
    }
  }

  lemma Regroup(x: nat, m: nat, y: nat)
    ensures 256 * (x * m + y) == x * (256 * m) + 256 * y
  {
  }

  function Le16(s: bytes): u16
    requires |s| == 2
  {
    SpanValues();
    FromLittle(s)
  }

  function Le32(s: bytes): u32
    requires |s| == 4
  {
    SpanValues();
    FromLittle(s)
  }

  function Le64(s: bytes): u64
    requires |s| == 8
  {
    SpanValues();
    FromLittle(s)
  }

  /** The fields of a byte string, by position. */
  lemma TwoAt(s: bytes, i: nat)
    requires i + 2 <= |s|
    ensures Le16(s[i..i + 2]) == Two(s, i)
  {
    LittleTwo(s[i..i + 2]);
  }

  lemma FourAt(s: bytes, i: nat)
    requires i + 4 <= |s|
    ensures Le32(s[i..i + 4]) == Four(s, i)
  {
    LittleFour(s[i..i + 4]);
  }

  lemma EightAt(s: bytes, i: nat)
    requires i + 8 <= |s|
    ensures Le64(s[i..i + 8]) == Eight(s, i)
  {
    LittleEight(s[i..i + 8]);
  }

  function Put16(v: u16): (s: bytes)
    ensures |s| == 2 && Le16(s) == v
  {
    SpanValues();
    LittleOfNumber(v, 2);
    ToLittle(v, 2)
  }

  function Put32(v: u32): (s: bytes)
    ensures |s| == 4 && Le32(s) == v
  {
    SpanValues();
    LittleOfNumber(v, 4);
    ToLittle(v, 4)
  }

  function Put64(v: u64): (s: bytes)
    ensures |s| == 8 && Le64(s) == v
  {
    SpanValues();
    LittleOfNumber(v, 8);
    ToLittle(v, 8)
  }

  /** Go's int64(uint64): the top half of the range is negative. */
  function Signed64(v: u64): i64 {
    if v < 0x8000_0000_0000_0000 then v else v - 0x1_0000_0000_0000_0000
  }

  /** Go's uint64(int64). */
  function Unsigned64(v: i64): (u: u64)
    ensures Signed64(u) == v
  {
    if v >= 0 then v else v + 0x1_0000_0000_0000_0000
  }

  lemma PutOfLe(s: bytes)
    ensures |s| == 2 ==> Put16(Le16(s)) == s
    ensures |s| == 4 ==> Put32(Le32(s)) == s
    ensures |s| == 8 ==> Put64(Le64(s)) == s
  {
    LittleOfBytes(s);
  }
}
