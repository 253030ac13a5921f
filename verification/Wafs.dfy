/** The WAFS object: the header and records a keeper publishes, and the reader of internal/livelist/wafs.go. */
module Wafs {
  import opened Bytes
  import opened Net

  const PACK_VERSION: byte := 1
  const KIND_SNAPSHOT: byte := 1
  const KIND_PACKAGE: byte := 2
  const TYPE_CIDR: byte := 1
  const TYPE_STRING: byte := 2
  const REC_ADD: byte := 1
  const PACK_HEADER := 52
  const PACK_MAGIC: bytes := [87, 65, 70, 83] // "WAFS"

  datatype Head = Head(
    kind: byte, typ: byte, flags: byte,
    epoch: u64, num: u64, hash: u64, key: bytes, count: u32)

  /** A record of a CIDR set or of a string set; the header's type says which. */
  datatype Rec =
    | NetRec(op: byte, prefix: Prefix, exp: i64)
    | TextRec(op: byte, value: bytes, exp: i64, reason: bytes)

  datatype Error = BadMagic | BadVersion | Short | BadFamily(fam: byte) | BadType(typ: byte)

  datatype Result<+T> = Ok(value: T) | Err(error: Error)

  predicate HasReasons(flags: byte) {
    flags % 2 == 1
  }

  /** The address family byte on the wire. */
  function FamilyByte(fam: Family): byte {
    if fam.V4? then 4 else 6
  }

  // ---- what the reader computes ----

  /** A CIDR record at the front of `s`: op, family, length, address, expiry. */
  function DecodeNet(s: bytes): (r: Result<(Rec, nat)>)
    ensures r.Ok? ==> 0 < r.value.1 <= |s|
  {
    if |s| < 3 then Err(Short)
    else if s[1] != 4 && s[1] != 6 then Err(BadFamily(s[1]))
    else
      var fam := if s[1] == 4 then V4 else V6;
      var n := 3 + ByteLen(fam);
      if |s| < n + 8 then Err(Short)
      else Ok((NetRec(s[0], PrefixFrom(Addr(fam, FromBig(s[3..n])), s[2]), Signed64(Le64(s[n..n + 8]))), n + 8))
  }

  /** A string record at the front of `s`: op, sized value, expiry and, under the flag, a sized reason. */
  function DecodeText(s: bytes, flags: byte): (r: Result<(Rec, nat)>)
    ensures r.Ok? ==> 0 < r.value.1 <= |s|
  {
    if |s| < 3 then Err(Short)
    else
      var n := 3 + Le16(s[1..3]);
      if |s| < n + 8 then Err(Short)
      else
        var exp := Signed64(Le64(s[n..n + 8]));
        if !HasReasons(flags) then Ok((TextRec(s[0], s[3..n], exp, []), n + 8))
        else if |s| < n + 10 then Err(Short)
        else
          var m := n + 10 + Le16(s[n + 8..n + 10]);
          if |s| < m then Err(Short)
          else Ok((TextRec(s[0], s[3..n], exp, s[n + 10..m]), m))
  }

  /** One record at the front of `s`, and how many bytes it took. */
  function DecodeRec(s: bytes, typ: byte, flags: byte): (r: Result<(Rec, nat)>)
    ensures r.Ok? ==> 0 < r.value.1 <= |s|
  {
    if |s| < 1 then Err(Short)
    else if typ == TYPE_CIDR then DecodeNet(s)
    else if typ == TYPE_STRING then DecodeText(s, flags)
    else Err(BadType(typ))
  }

  function DecodeRecs(s: bytes, n: nat, typ: byte, flags: byte): (r: Result<seq<Rec>>)
    ensures r.Ok? ==> |r.value| == n
  {
    if n == 0 then Ok([])
    else
      match DecodeRec(s, typ, flags)
      case Err(e) => Err(e)
      case Ok(first) =>
        match DecodeRecs(s[first.1..], n - 1, typ, flags)
        case Err(e) => Err(e)
        case Ok(rest) => Ok([first.0] + rest)
  }

  function DecodeHead(data: bytes): Head
    requires |data| >= PACK_HEADER
  {
    Head(data[5], data[6], data[7], Le64(data[8..16]), Le64(data[16..24]), Le64(data[24..32]),
         data[32..48], Le32(data[48..52]))
  }

  function Decode(data: bytes): (r: Result<(Head, seq<Rec>)>)
    ensures r.Ok? ==> |r.value.0.key| == 16 && |r.value.1| == r.value.0.count
  {
    if |data| < PACK_HEADER then Err(Short)
    else if data[..4] != PACK_MAGIC then Err(BadMagic)
    else if data[4] != PACK_VERSION then Err(BadVersion)
    else
      var head := DecodeHead(data);
      match DecodeRecs(data[PACK_HEADER..], head.count, head.typ, head.flags)
      case Err(e) => Err(e)
      case Ok(recs) => Ok((head, recs))
  }

  /** A result with records already read put in front of it. */
  function Prepend(recs: seq<Rec>, r: Result<seq<Rec>>): Result<seq<Rec>> {
    match r
    case Err(e) => Err(e)
    case Ok(rest) => Ok(recs + rest)
  }

  lemma PrependNothing(r: Result<seq<Rec>>)
    ensures Prepend([], r) == r
  {
    assert r.Ok? ==> [] + r.value == r.value;
  }

  lemma PrependTwice(a: seq<Rec>, b: seq<Rec>, r: Result<seq<Rec>>)
    ensures Prepend(a, Prepend(b, r)) == Prepend(a + b, r)
  {
    assert r.Ok? ==> a + (b + r.value) == a + b + r.value;
  }

  lemma DecodeRecsStep(s: bytes, n: nat, typ: byte, flags: byte, r: Rec, k: nat)
    requires n > 0 && DecodeRec(s, typ, flags) == Ok((r, k))
    ensures k <= |s| && DecodeRecs(s, n, typ, flags) == Prepend([r], DecodeRecs(s[k..], n - 1, typ, flags))
  {
  }

  // ---- which bytes say what ----

  /** The header's fields by position: sixteen bytes of key, numbers least significant byte first. */
  lemma HeadBytes(data: bytes)
    requires |data| >= 52
    ensures DecodeHead(data) ==
            Head(data[5], data[6], data[7], Eight(data, 8), Eight(data, 16), Eight(data, 24), data[32..48],
                 Four(data, 48))
  {
    hide Le32, Le64, Four, Eight;
    EightAt(data, 8);
    EightAt(data, 16);
    EightAt(data, 24);
    FourAt(data, 48);
  }

  /** An object is refused as truncated short of a header, then for its first four bytes, then for its version; past
      them all hangs on the records, read as the header's type and flags say. */
  lemma DecodeBytes(data: bytes)
    ensures Decode(data) ==
            if |data| < 52 then Err(Short)
            else if [data[0], data[1], data[2], data[3]] != ['W' as int, 'A' as int, 'F' as int, 'S' as int]
            then Err(BadMagic)
            else if data[4] != 1 then Err(BadVersion)
            else
              var recs := DecodeRecs(data[52..], Four(data, 48), data[6], data[7]);
              if recs.Err? then Err(recs.error) else Ok((DecodeHead(data), recs.value))
  {
    if |data| >= 52 {
      HeadBytes(data);
      assert data[..4] == [data[0], data[1], data[2], data[3]];
    }
  }

  /** The signed number eight bytes stand for. */
  function Stamp(s: bytes, i: nat): int
    requires i + 8 <= |s|
  {
    if Eight(s, i) < 0x8000_0000_0000_0000 then Eight(s, i) else Eight(s, i) - 0x1_0000_0000_0000_0000
  }

  /** A record of a CIDR set: its op, the address family, the prefix length, the address in network order, the
      expiry. */
  lemma NetBytes(s: bytes, flags: byte)
    requires |s| > 0
    ensures var r := DecodeRec(s, 1, flags);
            if |s| < 3 then r == Err(Short)
            else if s[1] != 4 && s[1] != 6 then r == Err(BadFamily(s[1]))
            else if |s| < (if s[1] == 4 then 15 else 27) then r == Err(Short)
            else if s[1] == 4 then
              r == Ok((NetRec(s[0], Prefix(V4, FromBig(s[3..7]), if s[2] <= 32 then s[2] else -1), Stamp(s, 7)), 15))
            else
              r == Ok((NetRec(s[0], Prefix(V6, FromBig(s[3..19]), if s[2] <= 128 then s[2] else -1), Stamp(s, 19)), 27))
  {
    hide Le64, Eight;
    if |s| >= 15 {
      EightAt(s, 7);
    }
    if |s| >= 27 {
      EightAt(s, 19);
    }
  }

  /** A record of a string set: its op, the length of the value and the value, the expiry and, where the lowest flag
      says so, the length of the reason and the reason. */
  lemma TextBytes(s: bytes, flags: byte)
    requires |s| > 0
    ensures var r := DecodeRec(s, 2, flags);
            if |s| < 3 then r == Err(Short)
            else
              var n := 3 + Two(s, 1);
              if |s| < n + 8 then r == Err(Short)
              else if flags % 2 == 0 then r == Ok((TextRec(s[0], s[3..n], Stamp(s, n), []), n + 8))
              else if |s| < n + 10 then r == Err(Short)
              else
                var m := n + 10 + Two(s, n + 8);
                if |s| < m then r == Err(Short)
                else r == Ok((TextRec(s[0], s[3..n], Stamp(s, n), s[n + 10..m]), m))
  {
    hide Le16, Le64, Two, Eight;
    if |s| >= 3 {
      TwoAt(s, 1);
      var n := 3 + Two(s, 1);
      if |s| >= n + 8 {
        EightAt(s, n);
        if |s| >= n + 10 {
          TwoAt(s, n + 8);
        }
      }
    }
  }

  lemma OtherBytes(s: bytes, typ: byte, flags: byte)
    ensures s == [] ==> DecodeRec(s, typ, flags) == Err(Short)
    ensures s != [] && typ != 1 && typ != 2 ==> DecodeRec(s, typ, flags) == Err(BadType(typ))
  {
  }

  /** Where the first n records end. */
  function EndOf(s: bytes, n: nat, typ: byte, flags: byte): (end: nat)
    requires DecodeRecs(s, n, typ, flags).Ok?
    ensures end <= |s|
  {
    if n == 0 then 0
    else
      var k := DecodeRec(s, typ, flags).value.1;
      k + EndOf(s[k..], n - 1, typ, flags)
  }

  /** An object is refused for its first record that cannot be read, and as that is. */
  lemma {:induction false} FirstBadRecord(s: bytes, n: nat, typ: byte, flags: byte) returns (k: nat)
    requires DecodeRecs(s, n, typ, flags).Err?
    ensures k < n && DecodeRecs(s, k, typ, flags).Ok?
    ensures var bad := DecodeRec(s[EndOf(s, k, typ, flags)..], typ, flags);
            bad.Err? && DecodeRecs(s, n, typ, flags) == Err(bad.error)
  {
    hide DecodeRec;
    k := 0;
    assert s[0..] == s;
    var first := DecodeRec(s, typ, flags);
    if first.Ok? {
      var rest := s[first.value.1..];
      k := FirstBadRecord(rest, n - 1, typ, flags);
      assert rest[EndOf(rest, k, typ, flags)..] == s[first.value.1 + EndOf(rest, k, typ, flags)..];
      k := k + 1;
    }
  }

  // ---- the reader: a cursor over the object ----

  /** What a read at `pos` gives, from what is found at the front of the rest of the data. */
  function At(pos: nat, r: Result<(Rec, nat)>): Result<(Rec, nat)> {
    match r
    case Err(e) => Err(e)
    case Ok(got) => Ok((got.0, pos + got.1))
  }

  /** Reads the record at `pos`; on success the second component is the position past it. */
  method ReadRecord(data: bytes, pos: nat, typ: byte, flags: byte) returns (r: Result<(Rec, nat)>)
    requires pos <= |data|
    ensures r == At(pos, DecodeRec(data[pos..], typ, flags))
  {
    if pos + 1 > |data| { return Err(Short); }
    if typ == TYPE_CIDR {
      r := ReadNet(data, pos);
    } else if typ == TYPE_STRING {
      r := ReadText(data, pos, flags);
    } else {
      r := Err(BadType(typ));
    }
  }

  method ReadNet(data: bytes, start: nat) returns (r: Result<(Rec, nat)>)
    requires start < |data|
    ensures r == At(start, DecodeNet(data[start..]))
  {
    ghost var s := data[start..];
    var op, pos := data[start], start + 1;
    if pos + 2 > |data| { return Err(Short); }
    var fam, bits := data[pos], data[pos + 1];
    pos := pos + 2;
    var prefix: Prefix;
    if fam == 4 {
      if pos + 4 + 8 > |data| { return Err(Short); }
      assert data[pos..pos + 4] == s[3..7];
      prefix := PrefixFrom(Addr(V4, FromBig(data[pos..pos + 4])), bits);
      pos := pos + 4;
      assert data[pos..pos + 8] == s[7..15];
    } else if fam == 6 {
      if pos + 16 + 8 > |data| { return Err(Short); }
      assert data[pos..pos + 16] == s[3..19];
      prefix := PrefixFrom(Addr(V6, FromBig(data[pos..pos + 16])), bits);
      pos := pos + 16;
      assert data[pos..pos + 8] == s[19..27];
    } else {
      return Err(BadFamily(fam));
    }
    return Ok((NetRec(op, prefix, Signed64(Le64(data[pos..pos + 8]))), pos + 8));
  }

  method ReadText(data: bytes, start: nat, flags: byte) returns (r: Result<(Rec, nat)>)
    requires start < |data|
    ensures r == At(start, DecodeText(data[start..], flags))
  {
    ghost var s := data[start..];
    var op, pos := data[start], start + 1;
    if pos + 2 > |data| { return Err(Short); }
    assert data[pos..pos + 2] == s[1..3];
    var n: int := Le16(data[pos..pos + 2]);
    pos := pos + 2;
    if pos + n + 8 > |data| { return Err(Short); }
    var value := data[pos..pos + n];
    assert value == s[3..3 + n];
    pos := pos + n;
    assert data[pos..pos + 8] == s[3 + n..3 + n + 8];
    var exp := Signed64(Le64(data[pos..pos + 8]));
    pos := pos + 8;
    var reason := [];
    if HasReasons(flags) {
      if pos + 2 > |data| { return Err(Short); }
      assert data[pos..pos + 2] == s[3 + n + 8..3 + n + 10];
      var m: int := Le16(data[pos..pos + 2]);
      pos := pos + 2;
      if pos + m > |data| { return Err(Short); }
      reason := data[pos..pos + m];
      assert reason == s[3 + n + 10..3 + n + 10 + m];
      pos := pos + m;
    }
    return Ok((TextRec(op, value, exp, reason), pos));
  }

  method Unpack(data: bytes) returns (r: Result<(Head, seq<Rec>)>)
    ensures r == Decode(data)
  {
    if |data| < PACK_HEADER { return Err(Short); }
    if data[..4] != PACK_MAGIC { return Err(BadMagic); }
    if data[4] != PACK_VERSION { return Err(BadVersion); }
    var head := Head(data[5], data[6], data[7], Le64(data[8..16]), Le64(data[16..24]), Le64(data[24..32]),
                     data[32..48], Le32(data[48..52]));
    var recs := ReadRecords(data, PACK_HEADER, head.count, head.typ, head.flags);
    return match recs case Err(e) => Err(e) case Ok(got) => Ok((head, got));
  }

  /** The record loop of unpack: `count` records from `start` on. */
  method ReadRecords(data: bytes, start: nat, count: u32, typ: byte, flags: byte) returns (r: Result<seq<Rec>>)
    requires start <= |data|
    ensures r == DecodeRecs(data[start..], count, typ, flags)
  {
    hide DecodeRec;
    ghost var all := DecodeRecs(data[start..], count, typ, flags);
    var recs := [];
    var pos := start;
    var i := 0;
    PrependNothing(all);
    while i < count
      invariant 0 <= i <= count && pos <= |data|
      invariant all == Prepend(recs, DecodeRecs(data[pos..], count - i, typ, flags))
    {
      var got := ReadRecord(data, pos, typ, flags);
      if got.Err? { return Err(got.error); }
      var (rec, next) := got.value;
      DecodeRecsStep(data[pos..], count - i, typ, flags, rec, next - pos);
      assert data[pos..][next - pos..] == data[next..];
      PrependTwice(recs, [rec], DecodeRecs(data[next..], count - i - 1, typ, flags));
      recs, pos, i := recs + [rec], next, i + 1;
    }
    assert recs + [] == recs;
    return Ok(recs);
  }

  // ---- the writer's layout, as the reader implies it ----

  /** A record the layout can carry in a set of this type. */
  predicate Carries(typ: byte, flags: byte, r: Rec) {
    match r
    case NetRec(_, p, _) => typ == TYPE_CIDR && InRange(p)
    case TextRec(_, value, _, reason) =>
      && typ == TYPE_STRING && |value| < 0x1_0000
      && (if HasReasons(flags) then |reason| < 0x1_0000 else reason == [])
  }

  predicate AllCarried(typ: byte, flags: byte, recs: seq<Rec>) {
    forall i | 0 <= i < |recs| :: Carries(typ, flags, recs[i])
  }

  function EncodeRec(flags: byte, r: Rec): bytes
    requires Carries(if r.NetRec? then TYPE_CIDR else TYPE_STRING, flags, r)
  {
    match r
    case NetRec(op, p, exp) =>
      [op, FamilyByte(p.fam), p.bits] + ToBig(p.ip, ByteLen(p.fam)) + Put64(Unsigned64(exp))
    case TextRec(op, value, exp, reason) =>
      [op] + Put16(|value|) + value + Put64(Unsigned64(exp)) +
      if HasReasons(flags) then Put16(|reason|) + reason else []
  }

  function EncodeRecs(typ: byte, flags: byte, recs: seq<Rec>): bytes
    requires AllCarried(typ, flags, recs)
  {
    if recs == [] then [] else EncodeRec(flags, recs[0]) + EncodeRecs(typ, flags, recs[1..])
  }

  function EncodeHead(h: Head): (s: bytes)
    requires |h.key| == 16
    ensures |s| == PACK_HEADER
  {
    PACK_MAGIC + [PACK_VERSION, h.kind, h.typ, h.flags] +
    Put64(h.epoch) + Put64(h.num) + Put64(h.hash) + h.key + Put32(h.count)
  }

  predicate WellFormed(h: Head, recs: seq<Rec>) {
    |h.key| == 16 && |recs| == h.count && AllCarried(h.typ, h.flags, recs)
  }

  function Encode(h: Head, recs: seq<Rec>): bytes
    requires WellFormed(h, recs)
  {
    EncodeHead(h) + EncodeRecs(h.typ, h.flags, recs)
  }

  // ---- reading back what was written ----

  lemma DecodeNetOfEncode(flags: byte, r: Rec, rest: bytes)
    requires r.NetRec? && Carries(TYPE_CIDR, flags, r)
    ensures DecodeNet(EncodeRec(flags, r) + rest) == Ok((r, |EncodeRec(flags, r)|))
  {
    var s, k := EncodeRec(flags, r) + rest, ByteLen(r.prefix.fam);
    assert s[1] == FamilyByte(r.prefix.fam) && s[2] == r.prefix.bits;
    assert s[3..3 + k] == ToBig(r.prefix.ip, k);
    assert s[3 + k..3 + k + 8] == Put64(Unsigned64(r.exp));
    BigOfNumber(r.prefix.ip, k);
  }

  /** The parts of a concatenation, cut out again. */
  lemma Parts(a: bytes, b: bytes, c: bytes, d: bytes, e: bytes)
    ensures var s := a + b + c + d + e;
            var (i, j, k) := (|a| + |b|, |a| + |b| + |c|, |a| + |b| + |c| + |d|);
            && s[..|a|] == a && s[|a|..i] == b && s[i..j] == c && s[j..k] == d && s[k..] == e
  {
  }

  /** The bytes a string record is read from. */
  predicate LaidOut(s: bytes, flags: byte, r: Rec)
    requires r.TextRec? && Carries(TYPE_STRING, flags, r)
  {
    var n := 3 + |r.value|;
    && |s| >= n + 8
    && s[0] == r.op && s[1..3] == Put16(|r.value|) && s[3..n] == r.value
    && s[n..n + 8] == Put64(Unsigned64(r.exp))
    && (HasReasons(flags) ==>
          && |s| >= n + 10 + |r.reason|
          && s[n + 8..n + 10] == Put16(|r.reason|) && s[n + 10..n + 10 + |r.reason|] == r.reason)
  }

  lemma ReadAsLaidOut(s: bytes, flags: byte, r: Rec)
    requires r.TextRec? && Carries(TYPE_STRING, flags, r) && LaidOut(s, flags, r)
    ensures DecodeText(s, flags) ==
            Ok((r, 3 + |r.value| + 8 + if HasReasons(flags) then 2 + |r.reason| else 0))
  {
    hide Le16, Le64, Put16, Put64;
  }

  lemma WrittenAsLaidOut(flags: byte, r: Rec, rest: bytes)
    requires r.TextRec? && Carries(TYPE_STRING, flags, r)
    ensures LaidOut(EncodeRec(flags, r) + rest, flags, r)
    ensures |EncodeRec(flags, r)| == 3 + |r.value| + 8 + if HasReasons(flags) then 2 + |r.reason| else 0
  {
    hide Put16, Put64;
    var tail := if HasReasons(flags) then Put16(|r.reason|) + r.reason else [];
    var s, n := EncodeRec(flags, r) + rest, 3 + |r.value|;
    Regroup([r.op] + Put16(|r.value|) + r.value + Put64(Unsigned64(r.exp)), tail, rest);
    Parts([r.op], Put16(|r.value|), r.value, Put64(Unsigned64(r.exp)), tail + rest);
    assert s[..1] == [r.op];
    if HasReasons(flags) {
      TailParts(s, n + 8, Put16(|r.reason|), r.reason, rest);
    }
  }

  lemma Regroup(a: bytes, b: bytes, c: bytes)
    ensures a + b + c == a + (b + c)
  {
  }

  lemma DecodeTextOfEncode(flags: byte, r: Rec, rest: bytes)
    requires r.TextRec? && Carries(TYPE_STRING, flags, r)
    ensures DecodeText(EncodeRec(flags, r) + rest, flags) == Ok((r, |EncodeRec(flags, r)|))
  {
    hide Carries, LaidOut, EncodeRec, DecodeText;
    WrittenAsLaidOut(flags, r, rest);
    ReadAsLaidOut(EncodeRec(flags, r) + rest, flags, r);
  }

  lemma TailParts(s: bytes, n: nat, a: bytes, b: bytes, rest: bytes)
    requires n <= |s| && s[n..] == a + b + rest
    ensures n + |a| + |b| <= |s| && s[n..n + |a|] == a && s[n + |a|..n + |a| + |b|] == b
  {
    assert s[n..n + |a|] == s[n..][..|a|];
    assert s[n + |a|..n + |a| + |b|] == s[n..][|a|..|a| + |b|];
  }

  lemma DecodeRecOfEncode(typ: byte, flags: byte, r: Rec, rest: bytes)
    requires Carries(typ, flags, r)
    ensures DecodeRec(EncodeRec(flags, r) + rest, typ, flags) == Ok((r, |EncodeRec(flags, r)|))
  {
    if r.NetRec? {
      DecodeNetOfEncode(flags, r, rest);
    } else {
      DecodeTextOfEncode(flags, r, rest);
    }
  }

  lemma {:induction false} DecodeRecsOfEncode(typ: byte, flags: byte, recs: seq<Rec>, rest: bytes)
    requires AllCarried(typ, flags, recs)
    ensures DecodeRecs(EncodeRecs(typ, flags, recs) + rest, |recs|, typ, flags) == Ok(recs)
  {
    if recs != [] {
      var first, tail := EncodeRec(flags, recs[0]), EncodeRecs(typ, flags, recs[1..]);
      assert first + tail + rest == first + (tail + rest);
      DecodeRecOfEncode(typ, flags, recs[0], tail + rest);
      DecodeRecsStep(first + (tail + rest), |recs|, typ, flags, recs[0], |first|);
      assert (first + (tail + rest))[|first|..] == tail + rest;
      DecodeRecsOfEncode(typ, flags, recs[1..], rest);
      assert [recs[0]] + recs[1..] == recs;
    }
  }

  lemma DecodeHeadOfEncode(h: Head, rest: bytes)
    requires |h.key| == 16
    ensures DecodeHead(EncodeHead(h) + rest) == h
    ensures (EncodeHead(h) + rest)[..4] == PACK_MAGIC && (EncodeHead(h) + rest)[4] == PACK_VERSION
  {
    var s := EncodeHead(h) + rest;
    assert s[8..16] == Put64(h.epoch);
    assert s[16..24] == Put64(h.num);
    assert s[24..32] == Put64(h.hash);
    assert s[32..48] == h.key;
    assert s[48..52] == Put32(h.count);
  }

  /** The reader inverts the layout; bytes after the last record are ignored. */
  lemma UnpackOfEncode(h: Head, recs: seq<Rec>, rest: bytes)
    requires WellFormed(h, recs)
    ensures Decode(Encode(h, recs) + rest) == Ok((h, recs))
  {
    var body := EncodeRecs(h.typ, h.flags, recs);
    assert Encode(h, recs) + rest == EncodeHead(h) + (body + rest);
    DecodeHeadOfEncode(h, body + rest);
    assert (EncodeHead(h) + (body + rest))[PACK_HEADER..] == body + rest;
    DecodeRecsOfEncode(h.typ, h.flags, recs, rest);
  }

  // ---- truncation ----

  lemma ShortNet(flags: byte, r: Rec, k: nat)
    requires r.NetRec? && Carries(TYPE_CIDR, flags, r) && k < |EncodeRec(flags, r)|
    ensures DecodeNet(EncodeRec(flags, r)[..k]) == Err(Short)
  {
    var e := EncodeRec(flags, r);
    assert |e| == 3 + ByteLen(r.prefix.fam) + 8;
    assert e[1] == FamilyByte(r.prefix.fam);
  }

  lemma ShortText(flags: byte, r: Rec, k: nat)
    requires r.TextRec? && Carries(TYPE_STRING, flags, r) && k < |EncodeRec(flags, r)|
    ensures DecodeText(EncodeRec(flags, r)[..k], flags) == Err(Short)
  {
    hide Put16, Put64, Le16, Le64;
    var e, n := EncodeRec(flags, r), 3 + |r.value|;
    var s := e[..k];
    WrittenAsLaidOut(flags, r, []);
    assert e + [] == e;
    if k >= 3 {
      assert s[1..3] == e[1..3];
    }
    if HasReasons(flags) && k >= n + 10 {
      assert s[n + 8..n + 10] == e[n + 8..n + 10];
    }
  }

  lemma ShortRec(typ: byte, flags: byte, r: Rec, k: nat)
    requires Carries(typ, flags, r) && k < |EncodeRec(flags, r)|
    ensures DecodeRec(EncodeRec(flags, r)[..k], typ, flags) == Err(Short)
  {
    if r.NetRec? {
      ShortNet(flags, r, k);
    } else {
      ShortText(flags, r, k);
    }
  }

  lemma {:induction false} ShortRecs(typ: byte, flags: byte, recs: seq<Rec>, k: nat)
    requires AllCarried(typ, flags, recs)
    requires k < |EncodeRecs(typ, flags, recs)|
    ensures DecodeRecs(EncodeRecs(typ, flags, recs)[..k], |recs|, typ, flags) == Err(Short)
  {
    var first, tail := EncodeRec(flags, recs[0]), EncodeRecs(typ, flags, recs[1..]);
    if k < |first| {
      assert (first + tail)[..k] == first[..k];
      ShortRec(typ, flags, recs[0], k);
    } else {
      var j := k - |first|;
      assert (first + tail)[..k] == first + tail[..j];
      DecodeRecOfEncode(typ, flags, recs[0], tail[..j]);
      assert (first + tail[..j])[|first|..] == tail[..j];
      ShortRecs(typ, flags, recs[1..], j);
    }
  }

  /** Every proper prefix of an object is refused as truncated. */
  lemma TruncationRefused(h: Head, recs: seq<Rec>, k: nat)
    requires WellFormed(h, recs) && k < |Encode(h, recs)|
    ensures Decode(Encode(h, recs)[..k]) == Err(Short)
  {
    if k >= PACK_HEADER {
      var body := EncodeRecs(h.typ, h.flags, recs);
      var j := k - PACK_HEADER;
      assert Encode(h, recs)[..k] == EncodeHead(h) + body[..j];
      DecodeHeadOfEncode(h, body[..j]);
      assert (EncodeHead(h) + body[..j])[PACK_HEADER..] == body[..j];
      ShortRecs(h.typ, h.flags, recs, j);
    }
  }

  // ---- what an accepted object must look like ----

  predicate PrefixesInRange(recs: seq<Rec>) {
    forall i | 0 <= i < |recs| :: recs[i].NetRec? ==> InRange(recs[i].prefix)
  }

  lemma AcceptedNet(s: bytes, flags: byte)
    requires DecodeNet(s).Ok? && InRange(DecodeNet(s).value.0.prefix)
    ensures var got := DecodeNet(s).value;
            EncodeRec(flags, got.0) == s[..got.1]
  {
    var (r, k) := DecodeNet(s).value;
    var n := 3 + ByteLen(r.prefix.fam);
    BigOfBytes(s[3..n]);
    PutOfLe(s[n..n + 8]);
    assert ToBig(r.prefix.ip, ByteLen(r.prefix.fam)) == s[3..n];
    assert Put64(Unsigned64(r.exp)) == s[n..n + 8];
    assert s[..k] == s[..3] + s[3..n] + s[n..n + 8];
    assert s[..3] == [r.op, FamilyByte(r.prefix.fam), r.prefix.bits];
  }

  lemma FourSlices(s: bytes, a: nat, b: nat, c: nat, d: nat)
    requires a <= b <= c <= d <= |s|
    ensures s[..a] + s[a..b] + s[b..c] + s[c..d] == s[..d]
  {
  }

  lemma AcceptedText(s: bytes, flags: byte)
    requires DecodeText(s, flags).Ok?
    ensures var got := DecodeText(s, flags).value;
            Carries(TYPE_STRING, flags, got.0) && EncodeRec(flags, got.0) == s[..got.1]
  {
    var (r, k) := DecodeText(s, flags).value;
    var n := 3 + |r.value|;
    PutOfLe(s[1..3]);
    PutOfLe(s[n..n + 8]);
    assert Carries(TYPE_STRING, flags, r) && r.value == s[3..n];
    var fixed := [r.op] + Put16(|r.value|) + r.value + Put64(Unsigned64(r.exp));
    assert [r.op] == s[..1] && Put16(|r.value|) == s[1..3] && Put64(Unsigned64(r.exp)) == s[n..n + 8];
    FourSlices(s, 1, 3, n, n + 8);
    if HasReasons(flags) {
      PutOfLe(s[n + 8..n + 10]);
      assert r.reason == s[n + 10..k] && Put16(|r.reason|) == s[n + 8..n + 10];
      assert s[n + 8..n + 10] + s[n + 10..k] == s[n + 8..k];
      assert fixed + s[n + 8..k] == s[..k];
    } else {
      assert fixed + [] == s[..k];
    }
  }

  lemma AcceptedRec(s: bytes, typ: byte, flags: byte)
    requires DecodeRec(s, typ, flags).Ok?
    requires var r := DecodeRec(s, typ, flags).value.0; r.NetRec? ==> InRange(r.prefix)
    ensures var got := DecodeRec(s, typ, flags).value;
            Carries(typ, flags, got.0) && EncodeRec(flags, got.0) == s[..got.1]
  {
    if typ == TYPE_CIDR {
      AcceptedNet(s, flags);
    } else {
      AcceptedText(s, flags);
    }
  }

  lemma {:induction false} AcceptedRecs(s: bytes, typ: byte, flags: byte, recs: seq<Rec>)
    requires DecodeRecs(s, |recs|, typ, flags) == Ok(recs) && PrefixesInRange(recs)
    ensures AllCarried(typ, flags, recs) && EncodeRecs(typ, flags, recs) <= s
  {
    hide DecodeRec, EncodeRec;
    if recs != [] {
      var (r, k) := DecodeRec(s, typ, flags).value;
      var tail := recs[1..];
      DecodeRecsStep(s, |recs|, typ, flags, r, k);
      assert recs == [r] + tail && DecodeRecs(s[k..], |tail|, typ, flags) == Ok(tail);
      assert recs[0] == r;
      AcceptedRec(s, typ, flags);
      AcceptedRecs(s[k..], typ, flags, tail);
      EncodeRecsStep(typ, flags, r, tail, s[..k], s[k..]);
      assert s == s[..k] + s[k..];
    }
  }

  lemma EncodeRecsStep(typ: byte, flags: byte, r: Rec, tail: seq<Rec>, front: bytes, rest: bytes)
    requires Carries(typ, flags, r) && AllCarried(typ, flags, tail)
    requires EncodeRec(flags, r) == front && EncodeRecs(typ, flags, tail) <= rest
    ensures AllCarried(typ, flags, [r] + tail) && EncodeRecs(typ, flags, [r] + tail) <= front + rest
  {
    assert ([r] + tail)[1..] == tail;
  }

  lemma AcceptedHead(data: bytes)
    requires |data| >= PACK_HEADER && data[..4] == PACK_MAGIC && data[4] == PACK_VERSION
    ensures EncodeHead(DecodeHead(data)) == data[..PACK_HEADER]
  {
    PutOfLe(data[8..16]);
    PutOfLe(data[16..24]);
    PutOfLe(data[24..32]);
    PutOfLe(data[48..52]);
    assert data[..8] == PACK_MAGIC + [PACK_VERSION, data[5], data[6], data[7]] by {
      assert data[..8] == data[..4] + data[4..8];
    }
    assert data[..PACK_HEADER] ==
           data[..8] + data[8..16] + data[16..24] + data[24..32] + data[32..48] + data[48..52];
  }

  /** An accepted object begins with the encoding of what was read from it, as long as the
      reader met no prefix length beyond its family's width (a string set has none). */
  lemma AcceptedIsEncoding(data: bytes)
    requires Decode(data).Ok? && PrefixesInRange(Decode(data).value.1)
    ensures var got := Decode(data).value;
            WellFormed(got.0, got.1) && Encode(got.0, got.1) <= data
  {
    var (h, recs) := Decode(data).value;
    AcceptedHead(data);
    AcceptedRecs(data[PACK_HEADER..], h.typ, h.flags, recs);
    assert data == data[..PACK_HEADER] + data[PACK_HEADER..];
  }
}
