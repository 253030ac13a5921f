/** The WAV files of the audio challenge (internal/image/audio.go): a reader that walks the chunks of a
    RIFF WAVE file, and a writer for 16-bit mono sound. */
module Wav {
  import opened Bytes

  type i16 = n: int | -0x8000 <= n < 0x8000

  const RIFF: bytes := [0x52, 0x49, 0x46, 0x46]
  const WAVE: bytes := [0x57, 0x41, 0x56, 0x45]
  const FMT: bytes := [0x66, 0x6d, 0x74, 0x20]
  const DATA: bytes := [0x64, 0x61, 0x74, 0x61]

  datatype Read = Sound(rate: int, pcm: seq<i16>) | NotWav | ShortFormat | NoChunks | WrongForm

  function Signed16(v: u16): i16 {
    if v < 0x8000 then v else v - 0x1_0000
  }

  function Unsigned16(v: i16): (u: u16)
    ensures Signed16(u) == v
  {
    if v >= 0 then v else v + 0x1_0000
  }

  /** Go's uint32(int). */
  function Low32(n: int): u32 {
    n % 0x1_0000_0000
  }

  // ---- the chunks after the header ----

  /** What the chunks met so far have said; later ones override. */
  datatype Seen = Seen(rate: int, channels: int, bits: int, data: Option<bytes>)

  const NOTHING := Seen(0, 0, 0, None)

  /** A chunk's size, cut to what is there. */
  function SizeAt(s: bytes): nat
    requires |s| >= 8
  {
    var size := Le32(s[4..8]);
    if size > |s| - 8 then |s| - 8 else size
  }

  function Noted(s: bytes, seen: Seen): Option<Seen>
    requires |s| >= 8
  {
    var (id, size, body) := (s[..4], SizeAt(s), s[8..]);
    if id == FMT then
      if size < 16 then None
      else Some(seen.(channels := Le16(body[2..4]), rate := Le32(body[4..8]), bits := Le16(body[14..16])))
    else if id == DATA then Some(seen.(data := Some(body[..size])))
    else Some(seen)
  }

  /** What is left after the first chunk and its padding, which may be missing at the end. */
  function AfterChunk(s: bytes): (rest: bytes)
    requires |s| >= 8
    ensures |rest| <= |s| - 8
  {
    var next := 8 + SizeAt(s) + SizeAt(s) % 2;
    if next <= |s| then s[next..] else []
  }

  function Walk(s: bytes, seen: Seen): Option<Seen>
    decreases |s|
  {
    if |s| < 8 then Some(seen)
    else
      match Noted(s, seen)
      case Some(more) => Walk(AfterChunk(s), more)
      case None => None
  }

  function Samples(data: bytes): seq<i16> {
    if |data| < 2 then [] else [Signed16(Le16(data[..2]))] + Samples(data[2..])
  }

  function Judge(seen: Option<Seen>): Read {
    match seen
    case None => ShortFormat
    case Some(w) =>
      if w.rate == 0 || w.data.None? then NoChunks
      else if w.channels != 1 || w.bits != 16 then WrongForm
      else Sound(w.rate, Samples(w.data.value))
  }

  predicate HasHeader(raw: bytes) {
    |raw| >= 12 && raw[..4] == RIFF && raw[8..12] == WAVE
  }

  function Meaning(raw: bytes): Read {
    if HasHeader(raw) then Judge(Walk(raw[12..], NOTHING)) else NotWav
  }

  function From(raw: bytes, p: nat): bytes {
    if p <= |raw| then raw[p..] else []
  }

  lemma {:induction false} SampleAt(data: bytes, i: nat)
    requires 2 * i + 2 <= |data|
    ensures |Samples(data)| == |data| / 2 && Samples(data)[i] == Signed16(Le16(data[2 * i..2 * i + 2]))
    ensures var n := Two(data, 2 * i); Samples(data)[i] == if n < 0x8000 then n else n - 0x1_0000
    decreases i
  {
    SamplesLength(data);
    TwoAt(data, 2 * i);
    if i > 0 {
      SampleAt(data[2..], i - 1);
      assert data[2..][2 * (i - 1)..2 * (i - 1) + 2] == data[2 * i..2 * i + 2];
    }
  }

  lemma {:induction false} SamplesLength(data: bytes)
    ensures |Samples(data)| == |data| / 2
  {
    if |data| >= 2 {
      SamplesLength(data[2..]);
    }
  }

  /** The chunk at an offset. */
  lemma ChunkAt(raw: bytes, p: nat)
    requires p + 8 <= |raw|
    ensures var s := From(raw, p);
            && |s| >= 8 && s[..4] == raw[p..p + 4] && s[4..8] == raw[p + 4..p + 8] && s[8..] == raw[p + 8..]
            && AfterChunk(s) == From(raw, p + 8 + SizeAt(s) + SizeAt(s) % 2)
  {
    hide Le32;
  }

  lemma FromStart(raw: bytes)
    requires |raw| >= 12
    ensures From(raw, 12) == raw[12..]
  {
  }

  lemma WalkOn(s: bytes, seen: Seen)
    requires |s| >= 8
    ensures Walk(s, seen) == match Noted(s, seen) case Some(more) => Walk(AfterChunk(s), more) case None => None
  {
    hide AfterChunk, Noted;
  }

  lemma WalkEnds(raw: bytes, p: nat, seen: Seen)
    requires p + 8 > |raw|
    ensures Walk(From(raw, p), seen) == Some(seen)
  {
  }

  /** The walk by offsets. It stays within the file and ends on every input. */
  method ReadWav(raw: bytes) returns (r: Read)
    ensures r == Meaning(raw)
  {
    hide Samples, AfterChunk, Le32, Le16, Walk, From;
    if |raw| < 12 || raw[0..4] != RIFF || raw[8..12] != WAVE {
      return NotWav;
    }
    assert raw[0..4] == raw[..4];
    var rate, channels, bits, data: Option<bytes> := 0, 0, 0, None;
    var p := 12;
    FromStart(raw);
    while p + 8 <= |raw|
      invariant p >= 12
      invariant Walk(From(raw, p), Seen(rate, channels, bits, data)) == Walk(raw[12..], NOTHING)
      decreases |raw| - p
    {
      ChunkAt(raw, p);
      WalkOn(From(raw, p), Seen(rate, channels, bits, data));
      var id := raw[p..p + 4];
      var size := Le32(raw[p + 4..p + 8]);
      var body := raw[p + 8..];
      if size > |body| {
        size := |body|;
      }
      if id == FMT {
        if size < 16 {
          return ShortFormat;
        }
        channels := Le16(body[2..4]);
        rate := Le32(body[4..8]);
        bits := Le16(body[14..16]);
      } else if id == DATA {
        data := Some(body[..size]);
      }
      p := p + 8 + size + size % 2;
    }
    WalkEnds(raw, p, Seen(rate, channels, bits, data));
    if rate == 0 || data.None? {
      return NoChunks;
    }
    if channels != 1 || bits != 16 {
      return WrongForm;
    }
    var pcm := ToSamples(data.value);
    r := Sound(rate, pcm);
  }

  method ToSamples(data: bytes) returns (pcm: seq<i16>)
    ensures pcm == Samples(data)
  {
    hide Samples;
    var out := new i16[|data| / 2];
    SamplesLength(data);
    for i := 0 to out.Length
      invariant forall j | 0 <= j < i :: out[j] == Samples(data)[j]
    {
      out[i] := Signed16(Le16(data[2 * i..2 * i + 2]));
      SampleAt(data, i);
    }
    pcm := out[..];
  }

  // ---- writing ----

  function SampleBytes(pcm: seq<i16>): (s: bytes)
    ensures |s| == 2 * |pcm|
  {
    if pcm == [] then [] else Put16(Unsigned16(pcm[0])) + SampleBytes(pcm[1..])
  }

  function FormatBody(rate: int): (s: bytes)
    ensures |s| == 16
  {
    Put16(1) + Put16(1) + Put32(Low32(rate)) + Put32(Low32(2 * rate)) + Put16(2) + Put16(16)
  }

  function Chunk(id: bytes, size: u32, body: bytes): bytes {
    id + Put32(size) + body
  }

  function Encoded(rate: int, pcm: seq<i16>): bytes {
    var size: int := Low32(2 * |pcm|);
    RIFF + Put32(Low32(36 + size)) + WAVE +
    (Chunk(FMT, 16, FormatBody(rate)) + Chunk(DATA, size, SampleBytes(pcm)))
  }

  method EncodeWav(rate: int, pcm: seq<i16>) returns (buf: bytes)
    ensures buf == Encoded(rate, pcm)
  {
    hide Put16, Put32, SampleBytes;
    var dataLen: int := Low32(2 * |pcm|);
    buf := RIFF;
    buf := buf + Put32(Low32(36 + dataLen));
    buf := buf + WAVE + FMT;
    buf := buf + Put32(16);
    buf := buf + Put16(1);
    buf := buf + Put16(1);
    buf := buf + Put32(Low32(rate));
    buf := buf + Put32(Low32(2 * rate));
    buf := buf + Put16(2);
    buf := buf + Put16(16);
    buf := buf + DATA;
    buf := buf + Put32(dataLen);
    assert buf + SampleBytes(pcm) == Encoded(rate, pcm);
    var samples := ToBytes(pcm);
    buf := buf + samples;
  }

  method ToBytes(pcm: seq<i16>) returns (s: bytes)
    ensures s == SampleBytes(pcm)
  {
    hide Put16;
    s := [];
    for i := 0 to |pcm|
      invariant s + SampleBytes(pcm[i..]) == SampleBytes(pcm)
    {
      assert pcm[i..][1..] == pcm[i + 1..];
      s := s + Put16(Unsigned16(pcm[i]));
    }
  }

  // ---- reading back ----

  lemma {:induction false} SamplesOfBytes(pcm: seq<i16>)
    ensures Samples(SampleBytes(pcm)) == pcm
  {
    if pcm != [] {
      var s := SampleBytes(pcm);
      assert s[..2] == Put16(Unsigned16(pcm[0])) && s[2..] == SampleBytes(pcm[1..]);
      SamplesOfBytes(pcm[1..]);
    }
  }

  /** The walk over one whole chunk. */
  lemma WalkChunk(id: bytes, size: u32, body: bytes, rest: bytes, seen: Seen)
    requires |id| == 4 && |body| == size + size % 2
    ensures var s := Chunk(id, size, body) + rest;
            |s| >= 8 && s[..4] == id && SizeAt(s) == size && s[8..] == body + rest && AfterChunk(s) == rest
  {
    var s := Chunk(id, size, body) + rest;
    assert s[4..8] == Put32(size);
    assert s[8..] == body + rest;
  }

  lemma WalkFormat(rate: int, rest: bytes)
    ensures Walk(Chunk(FMT, 16, FormatBody(rate)) + rest, NOTHING) == Walk(rest, Seen(Low32(rate), 1, 16, None))
  {
    hide Put16, Put32, Le16, Le32, Low32, SizeAt, AfterChunk, Chunk;
    var body := FormatBody(rate);
    var s := Chunk(FMT, 16, body) + rest;
    WalkChunk(FMT, 16, body, rest, NOTHING);
    assert s[8..][2..4] == Put16(1);
    assert s[8..][4..8] == Put32(Low32(rate));
    assert s[8..][14..16] == Put16(16);
  }

  /** A data chunk found later in the file is no longer than what is left of it. */
  lemma {:induction false} WalkDataBound(s: bytes, seen: Seen)
    requires Walk(s, seen).Some?
    ensures var w := Walk(s, seen).value;
            w.data == seen.data || (w.data.Some? && |w.data.value| + 8 <= |s|)
    decreases |s|
  {
    hide Le32, Le16, Samples;
    if |s| >= 8 {
      WalkDataBound(AfterChunk(s), Noted(s, seen).value);
    }
  }

  lemma HeaderOf(a: bytes, b: bytes, c: bytes, d: bytes)
    requires |a| == |b| == |c| == 4
    ensures var s := a + b + c + d;
            |s| >= 12 && s[..4] == a && s[8..12] == c && s[12..] == d
  {
    var s := a + b + c + d;
    assert s[..4] == a;
    assert s[8..12] == c;
    assert s[12..] == d;
  }

  lemma EncodedParts(rate: int, pcm: seq<i16>) returns (field: bytes)
    ensures |field| == 4
    ensures Encoded(rate, pcm) ==
            RIFF + field + WAVE +
            (Chunk(FMT, 16, FormatBody(rate)) + Chunk(DATA, Low32(2 * |pcm|), SampleBytes(pcm)))
  {
    field := Put32(Low32(36 + Low32(2 * |pcm|) as int));
  }

  lemma MeaningOfEncoded(rate: int, pcm: seq<i16>)
    ensures var size := Low32(2 * |pcm|);
            Meaning(Encoded(rate, pcm)) ==
            Judge(Walk(Chunk(DATA, size, SampleBytes(pcm)), Seen(Low32(rate), 1, 16, None)))
  {
    hide Put32, Low32, SampleBytes, FormatBody, Walk, Judge, Chunk;
    var size: int := Low32(2 * |pcm|);
    var rest := Chunk(DATA, size, SampleBytes(pcm));
    WalkFormat(rate, rest);
    var chunks := Chunk(FMT, 16, FormatBody(rate)) + rest;
    var field := EncodedParts(rate, pcm);
    HeaderOf(RIFF, field, WAVE, chunks);
  }

  /** Reading back what was written gives the same rate and samples exactly when the rate and the size
      of the samples fit the file's 32-bit fields and the rate is not zero. */
  lemma ReadBack(rate: int, pcm: seq<i16>)
    ensures Meaning(Encoded(rate, pcm)) == Sound(rate, pcm) <==>
            0 < rate < 0x1_0000_0000 && 2 * |pcm| < 0x1_0000_0000
  {
    hide Walk, Samples, Chunk, Meaning, Encoded, SampleBytes;
    MeaningOfEncoded(rate, pcm);
    if 2 * |pcm| < 0x1_0000_0000 {
      WholeData(pcm, Seen(Low32(rate), 1, 16, None));
      SamplesOfBytes(pcm);
    } else {
      CutData(pcm, Seen(Low32(rate), 1, 16, None));
    }
  }

  lemma WalkData(size: u32, body: bytes, rest: bytes, seen: Seen)
    requires |body| == size + size % 2
    ensures Walk(Chunk(DATA, size, body) + rest, seen) == Walk(rest, seen.(data := Some(body[..size])))
  {
    hide Le16, Le32, Chunk, AfterChunk, SizeAt;
    WalkChunk(DATA, size, body, rest, seen);
    assert (body + rest)[..size] == body[..size];
  }

  lemma WalkNothing(seen: Seen)
    ensures Walk([], seen) == Some(seen)
  {
  }

  lemma WholeData(pcm: seq<i16>, seen: Seen)
    requires 2 * |pcm| < 0x1_0000_0000
    ensures Walk(Chunk(DATA, Low32(2 * |pcm|), SampleBytes(pcm)), seen) == Some(seen.(data := Some(SampleBytes(pcm))))
  {
    hide Chunk, SampleBytes, Walk;
    var (body, size) := (SampleBytes(pcm), Low32(2 * |pcm|));
    assert size == |body|;
    WalkData(size, body, [], seen);
    WalkNothing(seen.(data := Some(body[..size])));
    assert Chunk(DATA, size, body) + [] == Chunk(DATA, size, body);
    assert body[..size] == body;
  }

  lemma SplitChunk(id: bytes, size: u32, all: bytes)
    requires size <= |all|
    ensures Chunk(id, size, all) == Chunk(id, size, all[..size]) + all[size..]
  {
  }

  /** When the size field wraps, the data chunk ends early and no later one can make up for it. */
  lemma CutData(pcm: seq<i16>, seen: Seen)
    requires 2 * |pcm| >= 0x1_0000_0000
    ensures var r := Judge(Walk(Chunk(DATA, Low32(2 * |pcm|), SampleBytes(pcm)), seen));
            r.Sound? ==> |r.pcm| < |pcm|
  {
    hide Chunk, SampleBytes, Samples, Walk;
    var size := Low32(2 * |pcm|);
    var all := SampleBytes(pcm);
    var (body, rest) := (all[..size], all[size..]);
    SplitChunk(DATA, size, all);
    WalkData(size, body, rest, seen);
    var w := Walk(Chunk(DATA, size, all), seen);
    if w.Some? {
      WalkDataBound(rest, seen.(data := Some(body[..size])));
      SamplesLength(w.value.data.value);
    }
  }

  // ---- what a file says ----

  /** The written file, field by field: its length, that it is a WAVE, one chunk for the form, plain samples of one
      channel, the rate in samples, in bytes, two bytes a time, sixteen bits; and one for the samples, each with its
      low byte first. */
  lemma EncodedFields(rate: int, pcm: seq<i16>)
    ensures var s := Encoded(rate, pcm);
            && |s| == 44 + 2 * |pcm|
            && s[0..4] == ['R' as int, 'I' as int, 'F' as int, 'F' as int]
            && Four(s, 4) == (36 + 2 * |pcm|) % 0x1_0000_0000
            && s[8..12] == ['W' as int, 'A' as int, 'V' as int, 'E' as int]
            && s[12..16] == ['f' as int, 'm' as int, 't' as int, ' ' as int]
            && Four(s, 16) == 16 && Two(s, 20) == 1 && Two(s, 22) == 1
            && Four(s, 24) == rate % 0x1_0000_0000 && Four(s, 28) == (2 * rate) % 0x1_0000_0000
            && Two(s, 32) == 2 && Two(s, 34) == 16
            && s[36..40] == ['d' as int, 'a' as int, 't' as int, 'a' as int]
            && Four(s, 40) == (2 * |pcm|) % 0x1_0000_0000
            && forall i | 0 <= i < |pcm| :: Two(s, 44 + 2 * i) == pcm[i] as int % 0x1_0000
  {
    hide Put16, Put32, SampleBytes, Two, Four, Encoded, Low32;
    var s := Encoded(rate, pcm);
    var length := EncodedSlices(rate, pcm);
    FieldFour(s, 4, length);
    FieldFour(s, 16, 16);
    FieldTwo(s, 20, 1);
    FieldTwo(s, 22, 1);
    FieldFour(s, 24, Low32(rate));
    FieldFour(s, 28, Low32(2 * rate));
    FieldTwo(s, 32, 2);
    FieldTwo(s, 34, 16);
    FieldFour(s, 40, Low32(2 * |pcm|));
    LowIs(rate);
    LowIs(2 * rate);
    LowIs(2 * |pcm|);
    forall i | 0 <= i < |pcm| ensures Two(s, 44 + 2 * i) == pcm[i] as int % 0x1_0000 {
      SampleBytesAt(pcm, i);
      assert s[44 + 2 * i..44 + 2 * i + 2] == s[44..][2 * i..2 * i + 2];
      FieldTwo(s, 44 + 2 * i, Unsigned16(pcm[i]));
    }
  }

  lemma LowIs(n: int)
    ensures Low32(n) == n % 0x1_0000_0000
  {
  }

  lemma LowOfSum(n: nat)
    ensures Low32(36 + Low32(n) as int) == (36 + n) % 0x1_0000_0000
  {
  }

  lemma EncodedSlices(rate: int, pcm: seq<i16>) returns (length: u32)
    ensures length == (36 + 2 * |pcm|) % 0x1_0000_0000
    ensures var s := Encoded(rate, pcm);
            && |s| == 44 + 2 * |pcm| && s[0..4] == RIFF && s[4..8] == Put32(length) && s[8..12] == WAVE
            && s[12..16] == FMT && s[16..20] == Put32(16) && s[20..22] == Put16(1) && s[22..24] == Put16(1)
            && s[24..28] == Put32(Low32(rate)) && s[28..32] == Put32(Low32(2 * rate)) && s[32..34] == Put16(2)
            && s[34..36] == Put16(16) && s[36..40] == DATA && s[40..44] == Put32(Low32(2 * |pcm|))
            && s[44..] == SampleBytes(pcm)
  {
    hide Put16, Put32, SampleBytes, Low32;
    var size: int := Low32(2 * |pcm|);
    length := Low32(36 + size);
    LowOfSum(2 * |pcm|);
    Slices(Put32(length), Put32(16), Put16(1), Put16(1), Put32(Low32(rate)), Put32(Low32(2 * rate)), Put16(2),
           Put16(16), Put32(size), SampleBytes(pcm), Encoded(rate, pcm));
  }

  lemma Slices(length: bytes, formLength: bytes, pcm: bytes, channels: bytes, rate: bytes, perSecond: bytes,
               align: bytes, bits: bytes, size: bytes, samples: bytes, s: bytes)
    requires |length| == |formLength| == |rate| == |perSecond| == |size| == 4
    requires |pcm| == |channels| == |align| == |bits| == 2
    requires s == RIFF + length + WAVE +
                  ((FMT + formLength + (pcm + channels + rate + perSecond + align + bits)) + (DATA + size + samples))
    ensures |s| == 44 + |samples| && s[0..4] == RIFF && s[4..8] == length && s[8..12] == WAVE && s[12..16] == FMT
    ensures s[16..20] == formLength && s[20..22] == pcm && s[22..24] == channels && s[24..28] == rate
    ensures s[28..32] == perSecond && s[32..34] == align && s[34..36] == bits && s[36..40] == DATA
    ensures s[40..44] == size && s[44..] == samples
  {
  }

  lemma FieldTwo(s: bytes, i: nat, v: u16)
    requires i + 2 <= |s| && s[i..i + 2] == Put16(v)
    ensures Two(s, i) == v
  {
    TwoAt(s, i);
  }

  lemma FieldFour(s: bytes, i: nat, v: u32)
    requires i + 4 <= |s| && s[i..i + 4] == Put32(v)
    ensures Four(s, i) == v
  {
    FourAt(s, i);
  }

  lemma {:induction false} SampleBytesAt(pcm: seq<i16>, i: nat)
    requires i < |pcm|
    ensures SampleBytes(pcm)[2 * i..2 * i + 2] == Put16(Unsigned16(pcm[i]))
    decreases i
  {
    hide Put16;
    if i > 0 {
      SampleBytesAt(pcm[1..], i - 1);
      assert SampleBytes(pcm)[2..] == SampleBytes(pcm[1..]);
      assert SampleBytes(pcm)[2 * i..2 * i + 2] == SampleBytes(pcm)[2..][2 * (i - 1)..2 * (i - 1) + 2];
    }
  }

  /** A chunk: four bytes of name, and what it holds. */
  datatype Part = Part(id: bytes, body: bytes)

  ghost predicate GoodParts(parts: seq<Part>) {
    forall i | 0 <= i < |parts| :: |parts[i].id| == 4 && |parts[i].body| < 0x1_0000_0000
  }

  function Padding(body: bytes): bytes {
    if |body| % 2 == 0 then [] else [0]
  }

  /** The chunks one after the other, each with its size and, where that is odd, a byte of padding. */
  function Laid(parts: seq<Part>): bytes
    requires GoodParts(parts)
  {
    if parts == [] then []
    else Chunk(parts[0].id, |parts[0].body|, parts[0].body + Padding(parts[0].body)) + Laid(parts[1..])
  }

  ghost predicate IsLast(parts: seq<Part>, i: nat, id: bytes) {
    i < |parts| && parts[i].id == id && forall j | i < j < |parts| :: parts[j].id != id
  }

  predicate ShortForm(part: Part) {
    part.id == ['f' as int, 'm' as int, 't' as int, ' ' as int] && |part.body| < 16
  }

  /** The last chunk about the form and the last one of samples count; one about the form that is too short spoils the
      file. */
  ghost predicate Says(parts: seq<Part>, seen: Seen, w: Option<Seen>) {
    && (w == None <==> exists i :: 0 <= i < |parts| && ShortForm(parts[i]))
    && (w.Some? ==> SamplesOfLast(parts, seen, w.value) && FormOfLast(parts, seen, w.value))
  }

  ghost predicate SamplesOfLast(parts: seq<Part>, seen: Seen, w: Seen) {
    var data := ['d' as int, 'a' as int, 't' as int, 'a' as int];
    && (forall i: nat | IsLast(parts, i, data) :: w.data == Some(parts[i].body))
    && ((forall i: nat :: !IsLast(parts, i, data)) ==> w.data == seen.data)
  }

  ghost predicate FormOfLast(parts: seq<Part>, seen: Seen, w: Seen) {
    var fmt := ['f' as int, 'm' as int, 't' as int, ' ' as int];
    && (forall i: nat | IsLast(parts, i, fmt) :: Formed(parts[i].body, w))
    && ((forall i: nat :: !IsLast(parts, i, fmt)) ==>
          w.rate == seen.rate && w.channels == seen.channels && w.bits == seen.bits)
  }

  predicate Formed(body: bytes, w: Seen) {
    |body| >= 16 && w.channels == Two(body, 2) && w.rate == Four(body, 4) && w.bits == Two(body, 14)
  }

  lemma {:induction false} WalkParts(parts: seq<Part>, seen: Seen)
    requires GoodParts(parts)
    ensures Says(parts, seen, Walk(Laid(parts), seen))
  {
    hide Walk, Chunk, Formed, IsLast, Noted, AfterChunk, SamplesOfLast, FormOfLast;
    if parts == [] {
      WalkNothing(seen);
      NoneLast(seen);
    } else {
      var first, rest := parts[0], parts[1..];
      var s := Chunk(first.id, |first.body|, first.body + Padding(first.body)) + Laid(rest);
      WalkChunk(first.id, |first.body|, first.body + Padding(first.body), Laid(rest), seen);
      WalkOn(s, seen);
      NotedPart(s, first, seen);
      if Noted(s, seen).Some? {
        var more := Noted(s, seen).value;
        WalkParts(rest, more);
        assert forall i | 0 <= i < |rest| :: rest[i] == parts[i + 1];
        assert forall i | 0 < i < |parts| :: parts[i] == rest[i - 1];
        if Walk(s, seen).Some? {
          SamplesFurther(parts, seen, more, Walk(s, seen).value);
          FormFurther(parts, seen, more, Walk(s, seen).value);
        }
      }
    }
  }

  lemma NoneLast(seen: Seen)
    ensures SamplesOfLast([], seen, seen) && FormOfLast([], seen, seen)
  {
  }

  lemma SamplesFurther(parts: seq<Part>, seen: Seen, more: Seen, w: Seen)
    requires parts != [] && SamplesOfLast(parts[1..], more, w)
    requires more.data == if parts[0].id == DATA then Some(parts[0].body) else seen.data
    ensures SamplesOfLast(parts, seen, w)
  {
    PartsFurther(parts, DATA);
  }

  lemma FormFurther(parts: seq<Part>, seen: Seen, more: Seen, w: Seen)
    requires parts != [] && FormOfLast(parts[1..], more, w)
    requires if parts[0].id == FMT then Formed(parts[0].body, more) else more.(data := seen.data) == seen
    ensures FormOfLast(parts, seen, w)
  {
    PartsFurther(parts, FMT);
  }

  lemma PartsFurther(parts: seq<Part>, id: bytes)
    requires parts != []
    ensures forall i: nat | IsLast(parts, i, id) && i > 0 ::
              IsLast(parts[1..], i - 1, id) && parts[i] == parts[1..][i - 1]
    ensures forall i: nat | IsLast(parts[1..], i, id) :: IsLast(parts, i + 1, id)
    ensures parts[0].id == id && (forall i: nat :: !IsLast(parts[1..], i, id)) ==> IsLast(parts, 0, id)
    ensures forall i: nat | IsLast(parts[1..], i, id) :: !IsLast(parts, 0, id)
  {
    var rest := parts[1..];
    assert forall j | 0 <= j < |rest| :: rest[j] == parts[j + 1];
    assert forall j | 0 < j < |parts| :: parts[j] == rest[j - 1];
    if j :| 0 <= j < |rest| && rest[j].id == id {
      var k := LastOne(rest, id, j);
    }
  }

  lemma {:induction false} LastOne(parts: seq<Part>, id: bytes, i: nat) returns (k: nat)
    requires i < |parts| && parts[i].id == id
    ensures IsLast(parts, k, id)
    decreases |parts| - i
  {
    k := i;
    if j :| i < j < |parts| && parts[j].id == id {
      k := LastOne(parts, id, j);
    }
  }

  lemma NotedPart(s: bytes, part: Part, seen: Seen)
    requires |s| >= 8 && s[..4] == part.id && SizeAt(s) == |part.body|
    requires |part.body| <= |s| - 8 && s[8..][..|part.body|] == part.body
    ensures var more := Noted(s, seen);
            && (more == None <==> ShortForm(part))
            && (more.Some? ==>
                  && more.value.data == (if part.id == DATA then Some(part.body) else seen.data)
                  && (part.id == FMT ==> Formed(part.body, more.value))
                  && (part.id != FMT ==> more.value.(data := seen.data) == seen))
  {
    hide SizeAt;
    if part.id == FMT && |part.body| >= 16 {
      var body := s[8..];
      BodyField(body, part.body, 2, 4);
      BodyField(body, part.body, 4, 8);
      BodyField(body, part.body, 14, 16);
      TwoAt(part.body, 2);
      FourAt(part.body, 4);
      TwoAt(part.body, 14);
    }
  }

  lemma BodyField(whole: bytes, body: bytes, i: nat, j: nat)
    requires i <= j <= |body| <= |whole| && whole[..|body|] == body
    ensures whole[i..j] == body[i..j]
  {
    assert whole[..|body|][i..j] == whole[i..j];
  }

  /** A file of whole chunks gives the sound of its last samples at the rate of its last form, if that is of one
      channel and sixteen bits. */
  lemma FileMeans(field: bytes, parts: seq<Part>) returns (w: Option<Seen>)
    requires |field| == 4 && GoodParts(parts)
    ensures Says(parts, Seen(0, 0, 0, None), w)
    ensures Meaning(RIFF + field + WAVE + Laid(parts)) ==
            if w == None then ShortFormat
            else if w.value.rate == 0 || w.value.data == None then NoChunks
            else if w.value.channels == 1 && w.value.bits == 16
            then Sound(w.value.rate, Samples(w.value.data.value))
            else WrongForm
  {
    hide Walk, Says, Samples, Laid;
    HeaderOf(RIFF, field, WAVE, Laid(parts));
    WalkParts(parts, NOTHING);
    w := Walk(Laid(parts), NOTHING);
  }

  /** What does not begin as a WAVE file does is none. */
  lemma NotWavIff(raw: bytes)
    ensures Meaning(raw) == NotWav <==>
            || |raw| < 12 || raw[0..4] != ['R' as int, 'I' as int, 'F' as int, 'F' as int]
            || raw[8..12] != ['W' as int, 'A' as int, 'V' as int, 'E' as int]
  {
    hide Walk, Samples;
    assert |raw| >= 12 ==> raw[0..4] == raw[..4];
  }

  /** A last chunk that is cut short counts as a whole one of what is there. */
  lemma CutChunk(id: bytes, size: u32, body: bytes, seen: Seen)
    requires |id| == 4 && |body| < size
    ensures Says([Part(id, body)], seen, Walk(Chunk(id, size, body), seen))
  {
    hide Walk, Noted, Formed, Says;
    var s := Chunk(id, size, body);
    assert s[4..8] == Put32(size) && s[8..] == body && s[..4] == id;
    assert body[..|body|] == body;
    WalkOn(s, seen);
    NotedPart(s, Part(id, body), seen);
    if Noted(s, seen).Some? {
      assert AfterChunk(s) == [];
      WalkNothing(Noted(s, seen).value);
    }
    OnePart(Part(id, body), seen, Walk(s, seen));
  }

  lemma OnePart(part: Part, seen: Seen, w: Option<Seen>)
    requires w == None <==> ShortForm(part)
    requires w.Some? ==>
               && w.value.data == (if part.id == DATA then Some(part.body) else seen.data)
               && (part.id == FMT ==> Formed(part.body, w.value))
               && (part.id != FMT ==> w.value.(data := seen.data) == seen)
    ensures Says([part], seen, w)
  {
    hide Formed, IsLast, SamplesOfLast, FormOfLast;
    assert ShortForm([part][0]) <==> ShortForm(part);
    if w.Some? {
      NoneLast(w.value);
      assert [part][1..] == [];
      SamplesFurther([part], seen, w.value, w.value);
      FormFurther([part], seen, w.value, w.value);
    }
  }

  // ---- chunks nobody asked for ----

  /** A place between whole chunks: everything before it is chunks with all their bytes and padding. */
  predicate Boundary(s: bytes, k: nat) {
    k == 0 ||
    (|s| >= 8 &&
     var next := 8 + Le32(s[4..8]) + Le32(s[4..8]) % 2;
     next <= |s| && next <= k && Boundary(s[next..], k - next))
  }

  lemma WalkUnknown(id: bytes, size: u32, body: bytes, rest: bytes, seen: Seen)
    requires |id| == 4 && id != FMT && id != DATA && |body| == size + size % 2
    ensures Walk(Chunk(id, size, body) + rest, seen) == Walk(rest, seen)
  {
    WalkChunk(id, size, body, rest, seen);
  }

  lemma {:induction false} WalkInserted(s: bytes, k: nat, id: bytes, size: u32, body: bytes, seen: Seen)
    requires |id| == 4 && id != FMT && id != DATA && |body| == size + size % 2
    requires k <= |s| && Boundary(s, k)
    ensures Walk(s[..k] + Chunk(id, size, body) + s[k..], seen) == Walk(s, seen)
    decreases |s|
  {
    hide Chunk, Le32, Noted, AfterChunk;
    var more := Chunk(id, size, body);
    if k == 0 {
      assert s[..0] + more + s[0..] == more + s;
      WalkUnknown(id, size, body, s, seen);
    } else {
      var next := 8 + Le32(s[4..8]) + Le32(s[4..8]) % 2;
      var t := s[..k] + more + s[k..];
      InsertBehind(s, k, next, more);
      SameChunk(s, t, next, seen);
      if Noted(s, seen).Some? {
        WalkInserted(s[next..], k - next, id, size, body, Noted(s, seen).value);
      }
    }
  }

  lemma InsertBehind(s: bytes, k: nat, next: nat, more: bytes)
    requires next <= k <= |s|
    ensures var t := s[..k] + more + s[k..];
            t[..next] == s[..next] && t[next..] == s[next..][..k - next] + more + s[next..][k - next..]
  {
  }

  lemma SameSlice(s: bytes, t: bytes, next: nat, i: nat, j: nat)
    requires i <= j <= next <= |s| && next <= |t| && t[..next] == s[..next]
    ensures t[i..j] == s[i..j]
  {
    assert t[i..j] == t[..next][i..j];
    assert s[i..j] == s[..next][i..j];
  }

  lemma BodySlice(s: bytes, i: nat, j: nat)
    requires 8 <= |s| && i <= j <= |s| - 8
    ensures s[8..][i..j] == s[8 + i..8 + j]
  {
  }

  /** A whole chunk says the same whatever follows it. */
  lemma SameChunk(s: bytes, t: bytes, next: nat, seen: Seen)
    requires |s| >= 8 && next == 8 + Le32(s[4..8]) + Le32(s[4..8]) % 2 <= |s|
    requires next <= |t| && t[..next] == s[..next]
    ensures |t| >= 8 && Noted(t, seen) == Noted(s, seen) && AfterChunk(t) == t[next..] && AfterChunk(s) == s[next..]
  {
    hide Le32, Le16;
    var size := Le32(s[4..8]);
    SameSlice(s, t, next, 0, 4);
    SameSlice(s, t, next, 4, 8);
    SameBody(s, t, next, 0, size);
    if size >= 16 {
      SameBody(s, t, next, 2, 4);
      SameBody(s, t, next, 4, 8);
      SameBody(s, t, next, 14, 16);
    }
  }

  lemma SameBody(s: bytes, t: bytes, next: nat, i: nat, j: nat)
    requires i <= j <= next - 8 && next <= |s| && next <= |t| && t[..next] == s[..next]
    ensures t[8..][i..j] == s[8..][i..j]
  {
    SameSlice(s, t, next, 8 + i, 8 + j);
    BodySlice(s, i, j);
    BodySlice(t, i, j);
  }

  lemma BehindHeader(raw: bytes, k: nat, more: bytes)
    requires 12 <= k <= |raw|
    ensures var t := raw[..k] + more + raw[k..];
            && |t| >= 12 && t[..4] == raw[..4] && t[8..12] == raw[8..12]
            && t[12..] == raw[12..][..k - 12] + more + raw[12..][k - 12..]
  {
    var t := raw[..k] + more + raw[k..];
    assert t[..4] == raw[..4];
    assert t[8..12] == raw[8..12];
    assert t[12..] == raw[12..][..k - 12] + more + raw[12..][k - 12..];
  }

  /** Inserting a chunk of any other kind, with its padding, between whole chunks of any file changes
      nothing. */
  lemma UnknownChunkIgnored(raw: bytes, k: nat, id: bytes, size: u32, body: bytes, longer: bytes)
    requires |id| == 4 && id != FMT && id != DATA && |body| == size + size % 2
    requires 12 <= k <= |raw| && Boundary(raw[12..], k - 12)
    requires longer == raw[..k] + Chunk(id, size, body) + raw[k..]
    ensures Meaning(longer) == Meaning(raw)
  {
    hide Chunk, Walk, Judge, Boundary;
    BehindHeader(raw, k, Chunk(id, size, body));
    WalkInserted(raw[12..], k - 12, id, size, body, NOTHING);
  }
}
