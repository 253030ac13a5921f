/** The live-list mirror: a replica rebuilt from snapshots, inline packages and batched reads
    (internal/livelist/livelist.go). What the network and the object store answer while one
    frame is handled is the `World` parameter; every statement is for all of them. */
module Mirror {
  import opened Bytes
  import opened Net
  import opened Wafs
  import opened Composition

  const VERSION := 3
  const PACKAGES_PER_READ: nat := 256

  /** A frame's hash: empty, the 16 hexadecimal digits of a number, or anything else. */
  datatype HashText = NoHash | Hex(v: u64) | OtherText

  datatype Op = Resync | Diff | Tick | OtherOp

  /** The package riding in a frame: absent, not base64, or its bytes. */
  datatype Inline = NoInline | NotBase64 | Inline(data: bytes)

  /** `epoch` is None where the text is not a hexadecimal number. */
  datatype Frame = Frame(v: int, epoch: Option<u64>, num: u64, op: Op, hash: HashText, inl: Inline)

  /** The answers met while one frame is handled. `slot(n)` is what stands under package n's key
      when it is read (each is read at most once per frame), `readFails(n)` whether the batched
      read that starts at package n errs, `snap` the snapshot object where the request, the
      reply and the read all succeed. */
  datatype World = World(blobs: bool, readFails: nat -> bool, slot: nat -> Option<bytes>, snap: Option<bytes>)

  /** One mirrored set. */
  datatype State = State(
    ready: bool, epoch: u64, num: u64, key: bytes, typ: byte, members: Members, snapBad: bool)

  const NOT_READY := State(false, 0, 0, [0, 0, 0, 0, 0, 0, 0, 0, 0, 0, 0, 0, 0, 0, 0, 0], 0, NO_MEMBERS, false)

  function Num(h: bv64): u64 {
    h as u64
  }

  // ---- what each operation computes ----

  /** What the loaded object makes of the set: members, key, epoch, number, and whether the
      header's hash could be reproduced. */
  ghost function Loaded(sip: Sip, h: Head, recs: seq<Rec>): State {
    var members := AppliedAll(NO_MEMBERS, recs);
    State(true, h.epoch, h.num, h.key, h.typ, members, Num(HashOf(sip, h.key, members)) != h.hash)
  }

  ghost function AfterSnapshot(sip: Sip, s: State, w: World): State {
    if s.snapBad || w.snap.None? then s
    else
      match Decode(w.snap.value)
      case Err(_) => s
      case Ok(got) => if got.0.kind == KIND_SNAPSHOT then Loaded(sip, got.0, got.1) else s
  }

  ghost function AfterVerify(sip: Sip, s: State, want: HashText, w: World): (State, bool) {
    if want == NoHash || want == Hex(Num(HashOf(sip, s.key, s.members))) then (s, true)
    else if s.snapBad then (s, false)
    else (AfterSnapshot(sip, s, w), false)
  }

  /** The header guards of applyPackage. */
  predicate Fits(s: State, h: Head, want: nat) {
    h.kind == KIND_PACKAGE && h.epoch == s.epoch && h.num == want && h.typ == s.typ
  }

  ghost function AfterPackage(sip: Sip, s: State, data: bytes, want: nat, w: World): (r: (State, bool))
    ensures r.1 ==> r.0.num == want && r.0.epoch == s.epoch
  {
    match Decode(data)
    case Err(_) => (AfterSnapshot(sip, s, w), false)
    case Ok(got) =>
      if Fits(s, got.0, want) then
        var members := AppliedAll(s.members, got.1);
        AfterVerify(sip, s.(members := members, num := got.0.num), Hex(got.0.hash), w)
      else (AfterSnapshot(sip, s, w), false)
  }

  /** Packages one at a time, up to a number, as if each were read on its own. */
  ghost function Pulled(sip: Sip, s: State, upto: nat, w: World): (r: (State, bool))
    ensures r.1 && s.num <= upto ==> r.0.num == upto && r.0.epoch == s.epoch
    decreases upto - s.num
  {
    if s.num >= upto then (s, true)
    else
      match w.slot(s.num + 1)
      case None => (AfterSnapshot(sip, s, w), false)
      case Some(data) =>
        var next := AfterPackage(sip, s, data, s.num + 1, w);
        if next.1 then Pulled(sip, next.0, upto, w) else next
  }

  function Min(a: nat, b: nat): nat {
    if a < b then a else b
  }

  /** The same through reads of at most `batch` packages. */
  ghost function PulledInBatches(sip: Sip, s: State, upto: nat, w: World, batch: nat): (r: (State, bool))
    requires batch > 0
    decreases upto - s.num
  {
    if s.num >= upto then (s, true)
    else if w.readFails(s.num + 1) then (s, false)
    else
      var next := Pulled(sip, s, s.num + Min(upto - s.num, batch), w);
      if next.1 then PulledInBatches(sip, next.0, upto, w, batch) else next
  }

  ghost function AfterCatchUp(sip: Sip, s: State, upto: nat, hash: HashText, w: World, batch: nat): State
    requires batch > 0
  {
    if !w.blobs then s
    else
      var got := PulledInBatches(sip, s, upto, w, batch);
      if got.1 then AfterVerify(sip, got.0, hash, w).0 else got.0
  }

  ghost function AfterFrame(sip: Sip, s: State, f: Frame, w: World): State {
    if f.v != VERSION then s
    else if !s.ready then AfterSnapshot(sip, s, w)
    else if f.op.Resync? || f.epoch.None? then s
    else if f.epoch.value != s.epoch then AfterSnapshot(sip, s.(snapBad := false), w)
    else if f.num < s.num then s
    else if f.num == s.num then
      if f.op.Tick? || f.op.Diff? then AfterVerify(sip, s, f.hash, w).0 else s
    else if f.op.Diff? && f.inl.Inline? && f.num == s.num + 1 then
      AfterPackage(sip, s, f.inl.data, f.num, w).0
    else AfterCatchUp(sip, s, f.num, f.hash, w, PACKAGES_PER_READ)
  }

  ghost function AfterFrames(sip: Sip, s: State, steps: seq<(Frame, World)>): State {
    if steps == [] then s
    else
      var (f, w) := steps[|steps| - 1];
      AfterFrame(sip, AfterFrames(sip, s, steps[..|steps| - 1]), f, w)
  }

  /** The set's goroutine: a first snapshot, then frame after frame. */
  ghost function AfterRun(sip: Sip, first: World, steps: seq<(Frame, World)>): State {
    AfterFrames(sip, AfterSnapshot(sip, NOT_READY, first), steps)
  }

  // ---- what lookups can see ----

  /** The snapshot object is there, can be read and is one. */
  predicate Loads(s: State, w: World) {
    !s.snapBad && w.snap.Some? && Decode(w.snap.value).Ok? && Decode(w.snap.value).value.0.kind == KIND_SNAPSHOT
  }

  // While a frame is handled the set is free between one change and the next. These are the states it is
  // left in after each change, in order.

  ghost function SnapshotSeen(sip: Sip, s: State, w: World): seq<State> {
    if Loads(s, w) then [AfterSnapshot(sip, s, w)] else []
  }

  ghost function VerifySeen(sip: Sip, s: State, want: HashText, w: World): seq<State> {
    if AfterVerify(sip, s, want, w).1 then [] else SnapshotSeen(sip, s, w)
  }

  ghost function PackageSeen(sip: Sip, s: State, data: bytes, want: nat, w: World): seq<State> {
    match Decode(data)
    case Err(_) => SnapshotSeen(sip, s, w)
    case Ok(got) =>
      if Fits(s, got.0, want) then
        var next := s.(members := AppliedAll(s.members, got.1), num := got.0.num);
        [next] + VerifySeen(sip, next, Hex(got.0.hash), w)
      else SnapshotSeen(sip, s, w)
  }

  ghost function PulledSeen(sip: Sip, s: State, upto: nat, w: World): seq<State>
    decreases upto - s.num
  {
    if s.num >= upto then []
    else
      match w.slot(s.num + 1)
      case None => SnapshotSeen(sip, s, w)
      case Some(data) =>
        var next := AfterPackage(sip, s, data, s.num + 1, w);
        PackageSeen(sip, s, data, s.num + 1, w) + if next.1 then PulledSeen(sip, next.0, upto, w) else []
  }

  ghost function BatchesSeen(sip: Sip, s: State, upto: nat, w: World, batch: nat): seq<State>
    requires batch > 0
    decreases upto - s.num
  {
    if s.num >= upto || w.readFails(s.num + 1) then []
    else
      var mid := s.num + Min(upto - s.num, batch);
      var next := Pulled(sip, s, mid, w);
      PulledSeen(sip, s, mid, w) + if next.1 then BatchesSeen(sip, next.0, upto, w, batch) else []
  }

  ghost function CatchUpSeen(sip: Sip, s: State, upto: nat, hash: HashText, w: World, batch: nat): seq<State>
    requires batch > 0
  {
    if !w.blobs then []
    else
      var got := PulledInBatches(sip, s, upto, w, batch);
      BatchesSeen(sip, s, upto, w, batch) + if got.1 then VerifySeen(sip, got.0, hash, w) else []
  }

  ghost function FrameSeen(sip: Sip, s: State, f: Frame, w: World): seq<State> {
    if f.v != VERSION then []
    else if !s.ready then SnapshotSeen(sip, s, w)
    else if f.op.Resync? || f.epoch.None? then []
    else if f.epoch.value != s.epoch then
      var freed := s.(snapBad := false);
      [freed] + SnapshotSeen(sip, freed, w)
    else if f.num < s.num then []
    else if f.num == s.num then
      if f.op.Tick? || f.op.Diff? then VerifySeen(sip, s, f.hash, w) else []
    else if f.op.Diff? && f.inl.Inline? && f.num == s.num + 1 then
      PackageSeen(sip, s, f.inl.data, f.num, w)
    else CatchUpSeen(sip, s, f.num, f.hash, w, PACKAGES_PER_READ)
  }

  ghost function FramesSeen(sip: Sip, s: State, steps: seq<(Frame, World)>): seq<State> {
    if steps == [] then []
    else
      var (f, w) := steps[|steps| - 1];
      var front := steps[..|steps| - 1];
      FramesSeen(sip, s, front) + FrameSeen(sip, AfterFrames(sip, s, front), f, w)
  }

  /** Everything a lookup can meet over the set's life so far. */
  ghost function RunSeen(sip: Sip, first: World, steps: seq<(Frame, World)>): seq<State> {
    [NOT_READY] + SnapshotSeen(sip, NOT_READY, first) + FramesSeen(sip, AfterSnapshot(sip, NOT_READY, first), steps)
  }

  // ---- what one step comes to ----

  /** An object that can be read and is a snapshot becomes the whole set, and the set is ready. The snapshot is bad
      exactly if the hash worked out record by record is not its header's. Nothing else changes anything, nor does
      anything at all after a bad snapshot. */
  lemma SnapshotDecides(sip: Sip, s: State, w: World)
    ensures var t := AfterSnapshot(sip, s, w);
            if !s.snapBad && w.snap.Some? && Decode(w.snap.value).Ok? &&
               Decode(w.snap.value).value.0.kind == KIND_SNAPSHOT
            then
              var (h, recs) := Decode(w.snap.value).value;
              && t.ready && t.epoch == h.epoch && t.num == h.num && t.key == h.key && t.typ == h.typ
              && t.members == AppliedAll(NO_MEMBERS, recs)
              && (t.snapBad <==> Num(RunningHash(sip, h.key, recs)) != h.hash)
              && SnapshotSeen(sip, s, w) == [t]
            else t == s && SnapshotSeen(sip, s, w) == []
  {
    hide Decode, HashOf, AppliedAll, RunningHash;
    if Loads(s, w) {
      RunningHashIsHash(sip, Decode(w.snap.value).value.0.key, Decode(w.snap.value).value.1);
    }
  }

  /** The object is a package of the set's epoch and type, and the one wanted. */
  predicate IsPackage(data: bytes, epoch: u64, typ: byte, n: nat) {
    var got := Decode(data);
    && got.Ok? && got.value.0.kind == KIND_PACKAGE && got.value.0.epoch == epoch && got.value.0.num == n
    && got.value.0.typ == typ
  }

  /** A package of another kind, epoch, number or type, or one that cannot be read, only makes the mirror try a
      snapshot. The right one is applied and is the set's new number, whatever the hashes say; they have to be equal
      for the mirror to go on, and where they are not a snapshot is tried from there. */
  lemma PackageDecides(sip: Sip, s: State, data: bytes, want: nat, w: World)
    ensures var (t, ok) := AfterPackage(sip, s, data, want, w);
            var seen := PackageSeen(sip, s, data, want, w);
            if !IsPackage(data, s.epoch, s.typ, want)
            then !ok && t == AfterSnapshot(sip, s, w) && seen == SnapshotSeen(sip, s, w)
            else
              var (h, recs) := Decode(data).value;
              var next := s.(members := AppliedAll(s.members, recs), num := h.num);
              if Num(HashOf(sip, s.key, next.members)) == h.hash then ok && t == next && seen == [next]
              else !ok && t == AfterSnapshot(sip, next, w) && seen == [next] + SnapshotSeen(sip, next, w)
  {
    hide Decode, HashOf, AppliedAll;
  }

  // ---- the last state left is the one that stays ----

  predicate EndsIn(s: State, seen: seq<State>, t: State) {
    t == if seen == [] then s else seen[|seen| - 1]
  }

  lemma EndsTwice(s: State, a: seq<State>, t: State, b: seq<State>, u: State)
    requires EndsIn(s, a, t) && EndsIn(t, b, u)
    ensures EndsIn(s, a + b, u)
  {
  }

  lemma SnapshotEnds(sip: Sip, s: State, w: World)
    ensures EndsIn(s, SnapshotSeen(sip, s, w), AfterSnapshot(sip, s, w))
  {
    hide Decode, Loaded;
  }

  lemma VerifyEnds(sip: Sip, s: State, want: HashText, w: World)
    ensures EndsIn(s, VerifySeen(sip, s, want, w), AfterVerify(sip, s, want, w).0)
  {
    hide HashOf, AfterSnapshot, SnapshotSeen;
    SnapshotEnds(sip, s, w);
    SnapshotDecides(sip, s, w);
  }

  lemma PackageEnds(sip: Sip, s: State, data: bytes, want: nat, w: World)
    ensures EndsIn(s, PackageSeen(sip, s, data, want, w), AfterPackage(sip, s, data, want, w).0)
  {
    hide AfterPackage, PackageSeen, AfterSnapshot, SnapshotSeen, HashOf, AppliedAll, Decode;
    PackageDecides(sip, s, data, want, w);
    SnapshotEnds(sip, s, w);
    if IsPackage(data, s.epoch, s.typ, want) {
      var (h, recs) := Decode(data).value;
      var next := s.(members := AppliedAll(s.members, recs), num := h.num);
      SnapshotEnds(sip, next, w);
      EndsTwice(s, [next], next, SnapshotSeen(sip, next, w), AfterSnapshot(sip, next, w));
    }
  }

  lemma {:induction false} PulledEnds(sip: Sip, s: State, upto: nat, w: World)
    ensures EndsIn(s, PulledSeen(sip, s, upto, w), Pulled(sip, s, upto, w).0)
    decreases upto - s.num
  {
    hide AfterPackage, PackageSeen, AfterSnapshot, SnapshotSeen, EndsIn;
    if s.num >= upto {
      EndsNowhere(s);
    } else if w.slot(s.num + 1).None? {
      SnapshotEnds(sip, s, w);
    } else {
      var data := w.slot(s.num + 1).value;
      var seen, next := PackageSeen(sip, s, data, s.num + 1, w), AfterPackage(sip, s, data, s.num + 1, w);
      PackageEnds(sip, s, data, s.num + 1, w);
      if next.1 {
        PulledEnds(sip, next.0, upto, w);
        EndsTwice(s, seen, next.0, PulledSeen(sip, next.0, upto, w), Pulled(sip, next.0, upto, w).0);
      } else {
        assert seen + [] == seen;
      }
    }
  }

  lemma EndsNowhere(s: State)
    ensures EndsIn(s, [], s)
  {
  }

  lemma {:induction false} BatchesEnd(sip: Sip, s: State, upto: nat, w: World, batch: nat)
    requires batch > 0
    ensures EndsIn(s, BatchesSeen(sip, s, upto, w, batch), PulledInBatches(sip, s, upto, w, batch).0)
    decreases upto - s.num
  {
    hide Pulled, PulledSeen, EndsIn;
    EndsNowhere(s);
    if s.num < upto && !w.readFails(s.num + 1) {
      var mid := s.num + Min(upto - s.num, batch);
      var seen, next := PulledSeen(sip, s, mid, w), Pulled(sip, s, mid, w);
      PulledEnds(sip, s, mid, w);
      if next.1 {
        BatchesEnd(sip, next.0, upto, w, batch);
        EndsTwice(s, seen, next.0, BatchesSeen(sip, next.0, upto, w, batch),
                  PulledInBatches(sip, next.0, upto, w, batch).0);
      } else {
        assert seen + [] == seen;
      }
    }
  }

  lemma CatchUpEnds(sip: Sip, s: State, upto: nat, hash: HashText, w: World, batch: nat)
    requires batch > 0
    ensures EndsIn(s, CatchUpSeen(sip, s, upto, hash, w, batch), AfterCatchUp(sip, s, upto, hash, w, batch))
  {
    hide PulledInBatches, BatchesSeen, VerifySeen, AfterVerify, EndsIn;
    EndsNowhere(s);
    BatchesEnd(sip, s, upto, w, batch);
    var seen, got := BatchesSeen(sip, s, upto, w, batch), PulledInBatches(sip, s, upto, w, batch);
    if got.1 {
      VerifyEnds(sip, got.0, hash, w);
      EndsTwice(s, seen, got.0, VerifySeen(sip, got.0, hash, w), AfterVerify(sip, got.0, hash, w).0);
    } else {
      assert seen + [] == seen;
    }
  }

  /** What a lookup meets last, once a frame is handled, is what the frame leaves. */
  lemma FrameEnds(sip: Sip, s: State, f: Frame, w: World)
    ensures EndsIn(s, FrameSeen(sip, s, f, w), AfterFrame(sip, s, f, w))
  {
    hide PackageSeen, AfterPackage, SnapshotSeen, AfterSnapshot, CatchUpSeen, AfterCatchUp, VerifySeen, AfterVerify,
      EndsIn;
    EndsNowhere(s);
    SnapshotEnds(sip, s, w);
    VerifyEnds(sip, s, f.hash, w);
    CatchUpEnds(sip, s, f.num, f.hash, w, PACKAGES_PER_READ);
    if f.inl.Inline? {
      PackageEnds(sip, s, f.inl.data, f.num, w);
    }
    var freed := s.(snapBad := false);
    SnapshotEnds(sip, freed, w);
    FreedFirst(s, freed);
    EndsTwice(s, [freed], freed, SnapshotSeen(sip, freed, w), AfterSnapshot(sip, freed, w));
  }

  lemma FreedFirst(s: State, freed: State)
    ensures EndsIn(s, [freed], freed)
  {
  }

  lemma {:induction false} RunEnds(sip: Sip, s: State, steps: seq<(Frame, World)>)
    ensures EndsIn(s, FramesSeen(sip, s, steps), AfterFrames(sip, s, steps))
  {
    hide AfterFrame, FrameSeen, EndsIn;
    if steps == [] {
      EndsNowhere(s);
    } else {
      var front := steps[..|steps| - 1];
      var (f, w) := steps[|steps| - 1];
      var before := AfterFrames(sip, s, front);
      RunEnds(sip, s, front);
      FrameEnds(sip, before, f, w);
      EndsTwice(s, FramesSeen(sip, s, front), before, FrameSeen(sip, before, f, w), AfterFrame(sip, before, f, w));
    }
  }

  // ---- batching does not show ----

  lemma {:induction false} PulledSplit(sip: Sip, s: State, mid: nat, upto: nat, w: World)
    requires s.num <= mid <= upto
    ensures Pulled(sip, s, upto, w) ==
            var half := Pulled(sip, s, mid, w);
            if half.1 then Pulled(sip, half.0, upto, w) else half
    decreases mid - s.num
  {
    hide AfterPackage, AfterSnapshot;
    if s.num < mid && w.slot(s.num + 1).Some? {
      var next := AfterPackage(sip, s, w.slot(s.num + 1).value, s.num + 1, w);
      if next.1 {
        PulledSplit(sip, next.0, mid, upto, w);
      }
    }
  }

  lemma PulledNothing(sip: Sip, s: State, upto: nat, w: World)
    requires s.num >= upto
    ensures Pulled(sip, s, upto, w) == (s, true)
  {
  }

  /** Where no read errs, the size of the batches makes no difference. */
  lemma {:induction false} BatchSizeInvisible(sip: Sip, s: State, upto: nat, w: World, batch: nat)
    requires batch > 0 && forall n :: !w.readFails(n)
    ensures PulledInBatches(sip, s, upto, w, batch) == Pulled(sip, s, upto, w)
    decreases upto - s.num
  {
    hide Pulled;
    if s.num >= upto {
      PulledNothing(sip, s, upto, w);
    } else {
      var mid := s.num + Min(upto - s.num, batch);
      PulledSplit(sip, s, mid, upto, w);
      var next := Pulled(sip, s, mid, w);
      if next.1 {
        BatchSizeInvisible(sip, next.0, upto, w, batch);
      }
    }
  }

  // ---- no package is skipped ----

  /** The records of the object under package n's key, if it can be read. */
  ghost function RecordsOf(w: World, n: nat): seq<Rec> {
    match w.slot(n)
    case None => []
    case Some(data) => match Decode(data) case Err(_) => [] case Ok(got) => got.1
  }

  /** The records of packages from+1 .. last, in order, as the store holds them. */
  ghost function RecordsBetween(w: World, from: nat, last: nat): seq<Rec>
    requires from <= last
    decreases last - from
  {
    if from == last then [] else RecordsOf(w, from + 1) + RecordsBetween(w, from + 1, last)
  }

  /** The object under package n's key is that very package of the set's epoch and type. */
  predicate Present(s: State, w: World, n: nat) {
    w.slot(n).Some? && Decode(w.slot(n).value).Ok? && Fits(s, Decode(w.slot(n).value).value.0, n)
  }

  lemma {:induction false} AppliedAllConcat(c: Members, a: seq<Rec>, b: seq<Rec>)
    ensures AppliedAll(c, a + b) == AppliedAll(AppliedAll(c, a), b)
  {
    if b == [] {
      assert a + b == a;
    } else {
      assert (a + b)[..|a + b| - 1] == a + b[..|b| - 1];
      AppliedAllConcat(c, a, b[..|b| - 1]);
    }
  }

  lemma {:induction false} RecordsSplit(w: World, from: nat, mid: nat, last: nat)
    requires from <= mid <= last
    ensures RecordsBetween(w, from, last) == RecordsBetween(w, from, mid) + RecordsBetween(w, mid, last)
    decreases mid - from
  {
    hide Decode;
    if from < mid {
      RecordsSplit(w, from + 1, mid, last);
      var first := RecordsOf(w, from + 1);
      assert first + (RecordsBetween(w, from + 1, mid) + RecordsBetween(w, mid, last)) ==
             first + RecordsBetween(w, from + 1, mid) + RecordsBetween(w, mid, last);
    }
  }

  /** The mirror once exactly the packages up to a number have been applied. */
  ghost function Reached(s: State, w: World, m: u64): State
    requires s.num <= m
  {
    s.(num := m, members := AppliedAll(s.members, RecordsBetween(w, s.num, m)))
  }

  lemma ReachedNothing(s: State, w: World)
    ensures Reached(s, w, s.num) == s
  {
  }

  lemma ReachedTwice(s: State, w: World, mid: u64, m: u64)
    requires s.num <= mid <= m
    ensures Reached(Reached(s, w, mid), w, m) == Reached(s, w, m)
  {
    RecordsSplit(w, s.num, mid, m);
    AppliedAllConcat(s.members, RecordsBetween(w, s.num, mid), RecordsBetween(w, mid, m));
  }

  /** A catch-up that goes through has found every package on the way, and applied all of them, in order,
      and nothing else; so a missing or foreign object stops it. */
  lemma {:induction false} NoPackageSkipped(sip: Sip, s: State, upto: nat, w: World)
    requires s.num <= upto && Pulled(sip, s, upto, w).1
    ensures upto < 0x1_0000_0000_0000_0000 && Pulled(sip, s, upto, w).0 == Reached(s, w, upto)
    ensures forall n | s.num < n <= upto :: Present(s, w, n)
    decreases upto - s.num
  {
    hide Decode, HashOf, AppliedAll, RecordsBetween, Reached, Present, AfterSnapshot;
    ReachedNothing(s, w);
    if s.num < upto {
      GoesThroughOne(sip, s, upto, w);
      var next := Reached(s, w, s.num + 1);
      NoPackageSkipped(sip, next, upto, w);
      ReachedTwice(s, w, s.num + 1, upto);
      forall n | s.num < n <= upto ensures Present(s, w, n) {
        PresentAlike(s, next, w, n);
        assert n == s.num + 1 || Present(next, w, n);
      }
    }
  }

  lemma PresentAlike(s: State, t: State, w: World, n: nat)
    requires s.epoch == t.epoch && s.typ == t.typ
    ensures Present(s, w, n) == Present(t, w, n)
  {
  }

  lemma GoesThroughOne(sip: Sip, s: State, upto: nat, w: World)
    requires s.num < upto && Pulled(sip, s, upto, w).1
    ensures Present(s, w, s.num + 1) && s.num + 1 < 0x1_0000_0000_0000_0000
    ensures var next := Reached(s, w, s.num + 1);
            && next.num == s.num + 1 && next.epoch == s.epoch && next.typ == s.typ
            && Pulled(sip, s, upto, w) == Pulled(sip, next, upto, w)
  {
    hide Decode, HashOf, AppliedAll, RecordsBetween, AfterSnapshot;
    if Present(s, w, s.num + 1) {
      OnePackage(sip, s, w);
    }
  }

  /** What stops a catch-up just past a number, and what it leaves: a missing or foreign package ends in
      an attempt to take a snapshot; so does a package after which the hashes differ, which itself has
      been applied. After a bad snapshot that attempt leaves the mirror as it is. */
  ghost predicate StopsPast(sip: Sip, s: State, w: World, m: u64, t: State)
    requires s.num <= m
  {
    if !Present(s, w, m + 1) then t == AfterSnapshot(sip, Reached(s, w, m), w)
    else
      var h := Decode(w.slot(m + 1).value).value.0;
      var next := Reached(s, w, h.num);
      && h.hash != Num(HashOf(sip, s.key, next.members))
      && t == AfterSnapshot(sip, next, w)
  }

  /** A catch-up that does not go through has applied the packages up to a first gap, in order, and nothing
      beyond it, and attempted a snapshot there. */
  lemma {:induction false} StopsAtGap(sip: Sip, s: State, upto: nat, w: World) returns (m: u64)
    requires s.num <= upto && !Pulled(sip, s, upto, w).1
    ensures s.num <= m < upto && forall n | s.num < n <= m :: Present(s, w, n)
    ensures StopsPast(sip, s, w, m, Pulled(sip, s, upto, w).0)
    decreases upto - s.num
  {
    hide Pulled, Reached, StopsPast, Present;
    m := s.num;
    if s.num == upto {
      PulledNothing(sip, s, upto, w);
    }
    StopsOrGoesOn(sip, s, upto, w);
    var t := Pulled(sip, s, upto, w).0;
    if !StopsPast(sip, s, w, s.num, t) {
      m := StopsAtGap(sip, Reached(s, w, s.num + 1), upto, w);
      SeenFromHalfway(sip, s, s.num + 1, m, w, t);
    }
  }

  lemma StopsOrGoesOn(sip: Sip, s: State, upto: nat, w: World)
    requires s.num < upto && !Pulled(sip, s, upto, w).1
    ensures || StopsPast(sip, s, w, s.num, Pulled(sip, s, upto, w).0)
            || (&& Present(s, w, s.num + 1) && s.num + 1 < 0x1_0000_0000_0000_0000
                && Reached(s, w, s.num + 1).num == s.num + 1
                && Pulled(sip, s, upto, w) == Pulled(sip, Reached(s, w, s.num + 1), upto, w))
  {
    hide Decode, HashOf, AppliedAll, RecordsBetween;
    ReachedNothing(s, w);
    if Present(s, w, s.num + 1) {
      OnePackage(sip, s, w);
    }
  }

  /** The same through batched reads, one of which may err: then the mirror stays where it had got to. */
  lemma {:induction false} CatchUpStops(sip: Sip, s: State, upto: nat, w: World, batch: nat) returns (m: u64)
    requires batch > 0 && s.num <= upto && !PulledInBatches(sip, s, upto, w, batch).1
    ensures s.num <= m < upto && forall n | s.num < n <= m :: Present(s, w, n)
    ensures var t := PulledInBatches(sip, s, upto, w, batch).0;
            (w.readFails(m + 1) && t == Reached(s, w, m)) || StopsPast(sip, s, w, m, t)
    decreases upto - s.num
  {
    hide Pulled, Reached, StopsPast, Present;
    if w.readFails(s.num + 1) {
      m := s.num;
      ReachedNothing(s, w);
    } else {
      var mid := s.num + Min(upto - s.num, batch);
      var next := Pulled(sip, s, mid, w);
      if next.1 {
        NoPackageSkipped(sip, s, mid, w);
        m := CatchUpStops(sip, next.0, upto, w, batch);
        SeenFromHalfway(sip, s, mid, m, w, PulledInBatches(sip, s, upto, w, batch).0);
      } else {
        m := StopsAtGap(sip, s, mid, w);
      }
    }
  }

  /** What holds of a point beyond, seen from halfway, holds seen from the start. */
  lemma SeenFromHalfway(sip: Sip, s: State, mid: u64, m: u64, w: World, t: State)
    requires s.num <= mid <= m && forall n | s.num < n <= mid :: Present(s, w, n)
    requires var half := Reached(s, w, mid); forall n | mid < n <= m :: Present(half, w, n)
    ensures forall n | s.num < n <= m :: Present(s, w, n)
    ensures Reached(Reached(s, w, mid), w, m) == Reached(s, w, m)
    ensures StopsPast(sip, Reached(s, w, mid), w, m, t) ==> StopsPast(sip, s, w, m, t)
  {
    hide Decode, HashOf, AppliedAll, RecordsBetween, AfterSnapshot;
    var half := Reached(s, w, mid);
    assert forall n {:trigger Present(s, w, n)} :: Present(half, w, n) == Present(s, w, n);
    ReachedTwice(s, w, mid, m);
    if Present(s, w, m + 1) {
      ReachedTwice(s, w, mid, m + 1);
    }
  }

  lemma OnePackage(sip: Sip, s: State, w: World)
    requires Present(s, w, s.num + 1)
    ensures s.num + 1 < 0x1_0000_0000_0000_0000
    ensures Reached(s, w, s.num + 1) == s.(num := s.num + 1, members := AppliedAll(s.members, RecordsOf(w, s.num + 1)))
    ensures AfterPackage(sip, s, w.slot(s.num + 1).value, s.num + 1, w) ==
            AfterVerify(sip, Reached(s, w, s.num + 1), Hex(Decode(w.slot(s.num + 1).value).value.0.hash), w)
  {
    hide Decode, HashOf, AppliedAll;
    assert RecordsBetween(w, s.num + 1, s.num + 1) == [];
    assert RecordsBetween(w, s.num, s.num + 1) == RecordsOf(w, s.num + 1) + [] == RecordsOf(w, s.num + 1);
  }

  // ---- an honest keeper ----

  /** Per epoch: the key, the type, the starting set and the numbered packages. */
  datatype Keeper = Keeper(
    key: u64 -> bytes, typ: u64 -> byte, start: u64 -> Members, package: (u64, nat) -> seq<Rec>)

  /** The keeper's set at a point of its history. */
  ghost function Kept(k: Keeper, epoch: u64, n: nat): Members {
    if n == 0 then k.start(epoch) else AppliedAll(Kept(k, epoch, n - 1), k.package(epoch, n))
  }

  ghost function KeptHash(sip: Sip, k: Keeper, epoch: u64, n: nat): u64 {
    Num(HashOf(sip, k.key(epoch), Kept(k, epoch, n)))
  }

  /** What the keeper writes: a package of its history, or a listing of a set of its history. */
  ghost predicate Written(sip: Sip, k: Keeper, h: Head, recs: seq<Rec>) {
    && PrefixesInRange(recs)
    && h.typ == k.typ(h.epoch) && h.key == k.key(h.epoch) && h.hash == KeptHash(sip, k, h.epoch, h.num)
    && (h.kind == KIND_PACKAGE ==> recs == k.package(h.epoch, h.num))
    && (h.kind == KIND_SNAPSHOT ==> Lists(recs, Kept(k, h.epoch, h.num)))
  }

  /** An object the keeper wrote, at whatever time and under whatever key it is found now;
      or bytes the reader refuses. */
  ghost predicate Authentic(sip: Sip, k: Keeper, data: bytes) {
    var got := Decode(data);
    got.Ok? ==> Written(sip, k, got.value.0, got.value.1)
  }

  ghost predicate AuthenticFrame(sip: Sip, k: Keeper, f: Frame) {
    f.inl.Inline? ==> Authentic(sip, k, f.inl.data)
  }

  ghost predicate AuthenticWorld(sip: Sip, k: Keeper, w: World) {
    && (w.snap.Some? ==> Authentic(sip, k, w.snap.value))
    && (forall n | w.slot(n).Some? :: Authentic(sip, k, w.slot(n).value))
  }

  /** A ready mirror holds the keeper's set, members, expiries and reasons, at the mirror's own
      epoch and number. */
  ghost predicate Agrees(k: Keeper, s: State) {
    && !s.snapBad
    && (s.ready ==>
         && s.typ == k.typ(s.epoch) && s.key == k.key(s.epoch)
         && s.members == Kept(k, s.epoch, s.num))
  }

  lemma SnapshotAgrees(sip: Sip, k: Keeper, s: State, w: World)
    requires Agrees(k, s) && AuthenticWorld(sip, k, w)
    ensures Agrees(k, AfterSnapshot(sip, s, w))
  {
    hide Decode, Lists, HashOf;
    if w.snap.Some? && Decode(w.snap.value).Ok? {
      var (h, recs) := Decode(w.snap.value).value;
      if h.kind == KIND_SNAPSHOT {
        LoadListing(recs, Kept(k, h.epoch, h.num));
      }
    }
  }

  lemma VerifyAgrees(sip: Sip, k: Keeper, s: State, want: HashText, w: World)
    requires Agrees(k, s) && AuthenticWorld(sip, k, w)
    ensures Agrees(k, AfterVerify(sip, s, want, w).0)
  {
    SnapshotAgrees(sip, k, s, w);
  }

  lemma PackageAgrees(sip: Sip, k: Keeper, s: State, data: bytes, w: World)
    requires s.ready && Agrees(k, s) && AuthenticWorld(sip, k, w) && Authentic(sip, k, data)
    ensures Agrees(k, AfterPackage(sip, s, data, s.num + 1, w).0)
  {
    hide Decode, HashOf, AppliedAll, AfterVerify, AfterSnapshot;
    SnapshotAgrees(sip, k, s, w);
    if Decode(data).Ok? && Fits(s, Decode(data).value.0, s.num + 1) {
      var (h, recs) := Decode(data).value;
      var next := s.(members := AppliedAll(s.members, recs), num := h.num);
      assert next.members == Kept(k, s.epoch, h.num);
      VerifyAgrees(sip, k, next, Hex(h.hash), w);
    }
  }

  lemma PackageStaysReady(sip: Sip, s: State, data: bytes, want: nat, w: World)
    requires s.ready
    ensures AfterPackage(sip, s, data, want, w).0.ready
  {
    hide Decode, HashOf, AppliedAll;
  }

  lemma {:induction false} PulledAgrees(sip: Sip, k: Keeper, s: State, upto: nat, w: World)
    requires s.ready && Agrees(k, s) && AuthenticWorld(sip, k, w)
    ensures Pulled(sip, s, upto, w).0.ready && Agrees(k, Pulled(sip, s, upto, w).0)
    decreases upto - s.num
  {
    hide AfterPackage, Authentic, Agrees;
    SnapshotAgrees(sip, k, s, w);
    if s.num < upto && w.slot(s.num + 1).Some? {
      var data := w.slot(s.num + 1).value;
      PackageAgrees(sip, k, s, data, w);
      PackageStaysReady(sip, s, data, s.num + 1, w);
      var next := AfterPackage(sip, s, data, s.num + 1, w);
      if next.1 {
        PulledAgrees(sip, k, next.0, upto, w);
      }
    }
  }

  lemma {:induction false} BatchesAgree(sip: Sip, k: Keeper, s: State, upto: nat, w: World, batch: nat)
    requires batch > 0 && s.ready && Agrees(k, s) && AuthenticWorld(sip, k, w)
    ensures Agrees(k, PulledInBatches(sip, s, upto, w, batch).0)
    decreases upto - s.num
  {
    hide Pulled, Agrees, AuthenticWorld;
    if s.num < upto && !w.readFails(s.num + 1) {
      var mid := s.num + Min(upto - s.num, batch);
      PulledAgrees(sip, k, s, mid, w);
      var next := Pulled(sip, s, mid, w);
      if next.1 {
        BatchesAgree(sip, k, next.0, upto, w, batch);
      }
    }
  }

  /** One frame, whatever its header claims and whatever the store answers. */
  lemma FrameAgrees(sip: Sip, k: Keeper, s: State, f: Frame, w: World)
    requires Agrees(k, s) && AuthenticFrame(sip, k, f) && AuthenticWorld(sip, k, w)
    ensures Agrees(k, AfterFrame(sip, s, f, w))
  {
    hide PulledInBatches, AfterPackage, AfterSnapshot, AuthenticWorld, Authentic;
    SnapshotAgrees(sip, k, s, w);
    VerifyAgrees(sip, k, s, f.hash, w);
    if s.ready {
      if f.inl.Inline? {
        PackageAgrees(sip, k, s, f.inl.data, w);
      }
      BatchesAgree(sip, k, s, f.num, w, PACKAGES_PER_READ);
      VerifyAgrees(sip, k, PulledInBatches(sip, s, f.num, w, PACKAGES_PER_READ).0, f.hash, w);
      SnapshotAgrees(sip, k, s.(snapBad := false), w);
    }
  }

  ghost predicate AuthenticSteps(sip: Sip, k: Keeper, steps: seq<(Frame, World)>) {
    forall i | 0 <= i < |steps| :: AuthenticFrame(sip, k, steps[i].0) && AuthenticWorld(sip, k, steps[i].1)
  }

  ghost predicate AuthenticRun(sip: Sip, k: Keeper, first: World, steps: seq<(Frame, World)>) {
    AuthenticWorld(sip, k, first) && AuthenticSteps(sip, k, steps)
  }

  /** For every stream of frames, dropped, repeated, reordered or stale ones included, and every
      choice of authentic object under every key, a ready mirror equals the keeper. */
  lemma MirrorEqualsKeeper(sip: Sip, k: Keeper, first: World, steps: seq<(Frame, World)>)
    requires AuthenticRun(sip, k, first, steps)
    ensures Agrees(k, AfterRun(sip, first, steps))
  {
    hide AuthenticWorld;
    SnapshotAgrees(sip, k, NOT_READY, first);
    FramesAgree(sip, k, AfterSnapshot(sip, NOT_READY, first), steps);
  }

  lemma {:induction false} FramesAgree(sip: Sip, k: Keeper, s: State, steps: seq<(Frame, World)>)
    requires Agrees(k, s) && AuthenticSteps(sip, k, steps)
    ensures Agrees(k, AfterFrames(sip, s, steps))
  {
    hide AfterFrame, AuthenticWorld, AuthenticFrame;
    if steps != [] {
      FramesAgree(sip, k, s, steps[..|steps| - 1]);
      var (f, w) := steps[|steps| - 1];
      FrameAgrees(sip, k, AfterFrames(sip, s, steps[..|steps| - 1]), f, w);
    }
  }

  // ---- every state a lookup can meet ----

  ghost predicate AllAgree(k: Keeper, seen: seq<State>) {
    forall i | 0 <= i < |seen| :: Agrees(k, seen[i])
  }

  lemma AllAgreeConcat(k: Keeper, a: seq<State>, b: seq<State>)
    requires AllAgree(k, a) && AllAgree(k, b)
    ensures AllAgree(k, a + b)
  {
    hide Agrees;
  }

  lemma SnapshotSeenAgrees(sip: Sip, k: Keeper, s: State, w: World)
    requires Agrees(k, s) && AuthenticWorld(sip, k, w)
    ensures AllAgree(k, SnapshotSeen(sip, s, w))
  {
    hide Agrees, AuthenticWorld, Loads, AfterSnapshot;
    SnapshotAgrees(sip, k, s, w);
  }

  lemma PackageSeenAgrees(sip: Sip, k: Keeper, s: State, data: bytes, w: World)
    requires s.ready && Agrees(k, s) && AuthenticWorld(sip, k, w) && Authentic(sip, k, data)
    ensures AllAgree(k, PackageSeen(sip, s, data, s.num + 1, w))
  {
    hide Decode, HashOf, AppliedAll, AfterVerify, AfterSnapshot, Loads, SnapshotSeen, AuthenticWorld, Lists;
    SnapshotSeenAgrees(sip, k, s, w);
    if Decode(data).Ok? && Fits(s, Decode(data).value.0, s.num + 1) {
      var (h, recs) := Decode(data).value;
      var next := s.(members := AppliedAll(s.members, recs), num := h.num);
      assert next.members == Kept(k, s.epoch, h.num);
      SnapshotSeenAgrees(sip, k, next, w);
    }
  }

  lemma {:induction false} PulledSeenAgrees(sip: Sip, k: Keeper, s: State, upto: nat, w: World)
    requires s.ready && Agrees(k, s) && AuthenticWorld(sip, k, w)
    ensures AllAgree(k, PulledSeen(sip, s, upto, w))
    decreases upto - s.num
  {
    hide AfterPackage, Authentic, Agrees, PackageSeen, SnapshotSeen;
    SnapshotSeenAgrees(sip, k, s, w);
    if s.num < upto && w.slot(s.num + 1).Some? {
      var data := w.slot(s.num + 1).value;
      PackageAgrees(sip, k, s, data, w);
      PackageSeenAgrees(sip, k, s, data, w);
      PackageStaysReady(sip, s, data, s.num + 1, w);
      var next := AfterPackage(sip, s, data, s.num + 1, w);
      if next.1 {
        PulledSeenAgrees(sip, k, next.0, upto, w);
        AllAgreeConcat(k, PackageSeen(sip, s, data, s.num + 1, w), PulledSeen(sip, next.0, upto, w));
      }
    }
  }

  lemma {:induction false} BatchesSeenAgree(sip: Sip, k: Keeper, s: State, upto: nat, w: World, batch: nat)
    requires batch > 0 && s.ready && Agrees(k, s) && AuthenticWorld(sip, k, w)
    ensures AllAgree(k, BatchesSeen(sip, s, upto, w, batch))
    decreases upto - s.num
  {
    hide Pulled, PulledSeen, Agrees, AuthenticWorld;
    if s.num < upto && !w.readFails(s.num + 1) {
      var mid := s.num + Min(upto - s.num, batch);
      PulledAgrees(sip, k, s, mid, w);
      PulledSeenAgrees(sip, k, s, mid, w);
      var next := Pulled(sip, s, mid, w);
      if next.1 {
        BatchesSeenAgree(sip, k, next.0, upto, w, batch);
        AllAgreeConcat(k, PulledSeen(sip, s, mid, w), BatchesSeen(sip, next.0, upto, w, batch));
      }
    }
  }

  lemma CatchUpSeenAgrees(sip: Sip, k: Keeper, s: State, upto: nat, hash: HashText, w: World, batch: nat)
    requires batch > 0 && s.ready && Agrees(k, s) && AuthenticWorld(sip, k, w)
    ensures AllAgree(k, CatchUpSeen(sip, s, upto, hash, w, batch))
  {
    hide PulledInBatches, BatchesSeen, Agrees, AuthenticWorld, SnapshotSeen, AfterVerify;
    BatchesAgree(sip, k, s, upto, w, batch);
    BatchesSeenAgree(sip, k, s, upto, w, batch);
    var got := PulledInBatches(sip, s, upto, w, batch).0;
    SnapshotSeenAgrees(sip, k, got, w);
    AllAgreeConcat(k, BatchesSeen(sip, s, upto, w, batch), SnapshotSeen(sip, got, w));
  }

  /** Not only after a frame, but after every change made while it is handled. */
  lemma FrameSeenAgrees(sip: Sip, k: Keeper, s: State, f: Frame, w: World)
    requires Agrees(k, s) && AuthenticFrame(sip, k, f) && AuthenticWorld(sip, k, w)
    ensures AllAgree(k, FrameSeen(sip, s, f, w))
  {
    hide PackageSeen, SnapshotSeen, CatchUpSeen, AfterVerify, AuthenticWorld, Authentic;
    SnapshotSeenAgrees(sip, k, s, w);
    if s.ready {
      if f.inl.Inline? {
        PackageSeenAgrees(sip, k, s, f.inl.data, w);
      }
      CatchUpSeenAgrees(sip, k, s, f.num, f.hash, w, PACKAGES_PER_READ);
      SnapshotSeenAgrees(sip, k, s.(snapBad := false), w);
    }
  }

  lemma {:induction false} FramesSeenAgree(sip: Sip, k: Keeper, s: State, steps: seq<(Frame, World)>)
    requires Agrees(k, s) && AuthenticSteps(sip, k, steps)
    ensures AllAgree(k, FramesSeen(sip, s, steps))
  {
    hide AfterFrame, FrameSeen, AuthenticWorld, AuthenticFrame, Agrees;
    if steps != [] {
      var front := steps[..|steps| - 1];
      var (f, w) := steps[|steps| - 1];
      FramesSeenAgree(sip, k, s, front);
      FramesAgree(sip, k, s, front);
      FrameSeenAgrees(sip, k, AfterFrames(sip, s, front), f, w);
      AllAgreeConcat(k, FramesSeen(sip, s, front), FrameSeen(sip, AfterFrames(sip, s, front), f, w));
    }
  }

  /** Whatever state a lookup meets, between frames or in the middle of one, it is the keeper's. */
  lemma EverySeenAgrees(sip: Sip, k: Keeper, first: World, steps: seq<(Frame, World)>)
    requires AuthenticRun(sip, k, first, steps)
    ensures AllAgree(k, RunSeen(sip, first, steps))
  {
    hide AuthenticWorld, AuthenticFrame, AfterSnapshot, SnapshotSeen, FramesSeen;
    SnapshotAgrees(sip, k, NOT_READY, first);
    SnapshotSeenAgrees(sip, k, NOT_READY, first);
    FramesSeenAgree(sip, k, AfterSnapshot(sip, NOT_READY, first), steps);
    AllAgreeConcat(k, [NOT_READY], SnapshotSeen(sip, NOT_READY, first));
    AllAgreeConcat(k, [NOT_READY] + SnapshotSeen(sip, NOT_READY, first),
                   FramesSeen(sip, AfterSnapshot(sip, NOT_READY, first), steps));
  }

  // ---- catching up gets there ----

  /** The store holds every package of the mirror's epoch up to a number. */
  ghost predicate AllPresent(s: State, w: World, upto: nat) {
    forall n | s.num < n <= upto :: Present(s, w, n)
  }

  lemma HonestPackage(sip: Sip, k: Keeper, s: State, w: World)
    requires s.ready && Agrees(k, s) && AuthenticWorld(sip, k, w) && Present(s, w, s.num + 1)
    ensures AfterPackage(sip, s, w.slot(s.num + 1).value, s.num + 1, w) ==
            (s.(num := s.num + 1, members := Kept(k, s.epoch, s.num + 1)), true)
  {
    hide Decode, HashOf, AppliedAll;
    assert Authentic(sip, k, w.slot(s.num + 1).value);
  }

  lemma {:induction false} PulledReaches(sip: Sip, k: Keeper, s: State, upto: u64, w: World)
    requires s.ready && Agrees(k, s) && AuthenticWorld(sip, k, w)
    requires s.num <= upto && AllPresent(s, w, upto)
    ensures Pulled(sip, s, upto, w) == (s.(num := upto, members := Kept(k, s.epoch, upto)), true)
    decreases upto - s.num
  {
    hide AfterPackage, Authentic, Kept, Decode;
    if s.num < upto {
      assert Present(s, w, s.num + 1);
      HonestPackage(sip, k, s, w);
      var next := AfterPackage(sip, s, w.slot(s.num + 1).value, s.num + 1, w).0;
      assert forall n | s.num + 1 < n <= upto :: Present(s, w, n) ==> Present(next, w, n);
      PulledReaches(sip, k, next, upto, w);
    }
  }

  /** With every package there and no read failing, a later frame of the epoch brings the mirror
      to the keeper's set at that frame, without a snapshot. */
  lemma CatchUpReaches(sip: Sip, k: Keeper, s: State, upto: u64, hash: HashText, w: World, batch: nat)
    requires s.ready && Agrees(k, s) && AuthenticWorld(sip, k, w)
    requires s.num <= upto && AllPresent(s, w, upto)
    requires batch > 0 && w.blobs && forall n :: !w.readFails(n)
    requires hash == NoHash || hash == Hex(KeptHash(sip, k, s.epoch, upto))
    ensures AfterCatchUp(sip, s, upto, hash, w, batch) == s.(num := upto, members := Kept(k, s.epoch, upto))
  {
    hide PulledInBatches, Pulled;
    BatchSizeInvisible(sip, s, upto, w, batch);
    PulledReaches(sip, k, s, upto, w);
  }

  // ---- what a frame does ----

  /** A frame of another version; to a ready mirror a resync, an unreadable epoch, a number gone by, or the number
      it is at with no hash, its own hash, or an op that is neither a tick nor a diff. */
  ghost predicate SaysNothing(sip: Sip, s: State, f: Frame) {
    || f.v != 3
    || (&& s.ready
        && (|| f.op == Resync || f.epoch == None
            || (f.epoch == Some(s.epoch) &&
                (|| f.num < s.num
                 || (f.num == s.num &&
                     (|| f.op == OtherOp || f.hash == NoHash
                      || f.hash == Hex(Num(HashOf(sip, s.key, s.members)))))))))
  }

  /** Such frames leave the mirror alone. */
  lemma FrameIgnored(sip: Sip, s: State, f: Frame, w: World)
    requires SaysNothing(sip, s, f)
    ensures AfterFrame(sip, s, f, w) == s && FrameSeen(sip, s, f, w) == []
  {
    hide HashOf, AfterSnapshot, SnapshotSeen, AfterPackage, PackageSeen, AfterCatchUp, CatchUpSeen;
  }

  /** A frame that calls for a snapshot: any of this version while the mirror is not ready; a ready one's, of another
      epoch; or a tick or diff at the mirror's own number with another hash. */
  ghost predicate CallsForSnapshot(sip: Sip, s: State, f: Frame) {
    && f.v == 3
    && (|| !s.ready
        || (f.op != Resync && f.epoch.Some? && f.epoch.value != s.epoch)
        || (&& (f.op == Tick || f.op == Diff) && f.epoch == Some(s.epoch) && f.num == s.num
            && f.hash != NoHash && f.hash != Hex(Num(HashOf(sip, s.key, s.members)))))
  }

  /** The keeper's set at a point, with nothing held against the snapshot. */
  ghost predicate At(k: Keeper, s: State, epoch: u64, n: nat) {
    && s.ready && !s.snapBad && s.epoch == epoch && s.num == n
    && s.key == k.key(epoch) && s.typ == k.typ(epoch) && s.members == Kept(k, epoch, n)
  }

  /** The answer to a snapshot request is an object that can be read, is a snapshot, and is of this point. */
  predicate BringsSnapshot(w: World, epoch: u64, n: u64) {
    && w.snap.Some? && Decode(w.snap.value).Ok?
    && var h := Decode(w.snap.value).value.0; h.kind == KIND_SNAPSHOT && h.epoch == epoch && h.num == n
  }

  lemma SnapshotReaches(sip: Sip, k: Keeper, s: State, w: World, epoch: u64, n: u64)
    requires !s.snapBad && AuthenticWorld(sip, k, w) && BringsSnapshot(w, epoch, n)
    ensures At(k, AfterSnapshot(sip, s, w), epoch, n)
  {
    hide Decode, Lists, HashOf, AppliedAll, Kept;
    var (h, recs) := Decode(w.snap.value).value;
    LoadListing(recs, Kept(k, epoch, n));
  }

  /** A frame that calls for a snapshot gets the mirror to the keeper's set at the point of the object it is given. A
      frame of another epoch does so even after a bad snapshot. */
  lemma FrameResyncs(sip: Sip, k: Keeper, s: State, f: Frame, w: World, epoch: u64, n: u64)
    requires CallsForSnapshot(sip, s, f) && AuthenticWorld(sip, k, w) && BringsSnapshot(w, epoch, n)
    requires !s.snapBad || (s.ready && f.epoch != Some(s.epoch))
    ensures At(k, AfterFrame(sip, s, f, w), epoch, n)
  {
    hide AfterSnapshot, HashOf, AuthenticWorld, BringsSnapshot, At, AfterPackage, AfterCatchUp;
    SnapshotReaches(sip, k, s.(snapBad := false), w, epoch, n);
    assert !s.snapBad ==> s.(snapBad := false) == s;
  }

  /** A diff one ahead brings its package with it. */
  predicate BringsPackage(s: State, f: Frame) {
    && f.v == 3 && f.op == Diff && f.epoch == Some(s.epoch) && f.num == s.num + 1 && f.inl.Inline?
  }

  /** The keeper's package riding in its frame takes the mirror one further, with no read and no snapshot, whatever
      the frame's own hash and the store say. */
  lemma FrameApplies(sip: Sip, k: Keeper, s: State, f: Frame, w: World)
    requires s.ready && Agrees(k, s) && AuthenticFrame(sip, k, f) && BringsPackage(s, f)
    requires IsPackage(f.inl.data, s.epoch, s.typ, f.num)
    ensures var next := s.(num := f.num, members := Kept(k, s.epoch, f.num));
            AfterFrame(sip, s, f, w) == next && FrameSeen(sip, s, f, w) == [next]
  {
    hide Decode, HashOf, AppliedAll, AfterPackage, PackageSeen, AfterCatchUp, CatchUpSeen;
    PackageDecides(sip, s, f.inl.data, f.num, w);
  }

  /** Another object in its place makes the mirror try a snapshot, though the right one may be in the store. */
  lemma FrameMisfits(sip: Sip, s: State, f: Frame, w: World)
    requires s.ready && BringsPackage(s, f) && !IsPackage(f.inl.data, s.epoch, s.typ, f.num)
    ensures AfterFrame(sip, s, f, w) == AfterSnapshot(sip, s, w)
  {
    hide Decode, AfterPackage, AfterSnapshot, AfterCatchUp;
    PackageDecides(sip, s, f.inl.data, f.num, w);
  }

  /** A frame ahead of the mirror, whose package has to be read from the store. */
  predicate Ahead(s: State, f: Frame) {
    && f.v == 3 && f.op != Resync && f.epoch == Some(s.epoch) && s.num < f.num
    && !(f.op == Diff && f.inl.Inline? && f.num == s.num + 1)
  }

  /** Every package passed on the way is a state a lookup can meet. */
  ghost predicate StepByStep(k: Keeper, s: State, upto: u64, seen: seq<State>)
    requires s.num <= upto
  {
    && |seen| == upto - s.num
    && forall i | 0 <= i < |seen| ::
         seen[i] == s.(num := s.num + 1 + i, members := Kept(k, s.epoch, s.num + 1 + i))
  }

  /** With the packages in the store, such a frame brings the mirror to the keeper's set at its number, package
      by package and without a snapshot. Should the frame announce another hash than that set's, a snapshot is tried
      from there. */
  lemma FrameCatchesUp(sip: Sip, k: Keeper, s: State, f: Frame, w: World)
    requires s.ready && Agrees(k, s) && AuthenticWorld(sip, k, w) && Ahead(s, f)
    requires AllPresent(s, w, f.num) && w.blobs && forall n :: !w.readFails(n)
    ensures var next := s.(num := f.num, members := Kept(k, s.epoch, f.num));
            if f.hash == NoHash || f.hash == Hex(KeptHash(sip, k, s.epoch, f.num))
            then AfterFrame(sip, s, f, w) == next && StepByStep(k, s, f.num, FrameSeen(sip, s, f, w))
            else AfterFrame(sip, s, f, w) == AfterSnapshot(sip, next, w)
  {
    hide PulledInBatches, BatchesSeen, Pulled, CatchUpSeen, HashOf, Kept, AllPresent, AuthenticWorld, StepByStep,
      AfterSnapshot;
    if f.hash == NoHash || f.hash == Hex(KeptHash(sip, k, s.epoch, f.num)) {
      CatchUpReaches(sip, k, s, f.num, f.hash, w, PACKAGES_PER_READ);
      CatchUpSteps(sip, k, s, f.num, f.hash, w, PACKAGES_PER_READ);
    } else {
      BatchSizeInvisible(sip, s, f.num, w, PACKAGES_PER_READ);
      PulledReaches(sip, k, s, f.num, w);
    }
  }

  /** Without a store such a frame does nothing. */
  lemma FrameUnread(sip: Sip, s: State, f: Frame, w: World)
    requires s.ready && Ahead(s, f) && !w.blobs
    ensures AfterFrame(sip, s, f, w) == s && FrameSeen(sip, s, f, w) == []
  {
    hide PulledInBatches, BatchesSeen;
  }

  /** The first of the reads, of 256 packages each, that errs leaves the mirror where the reads before it had
      brought it. */
  lemma FrameReadErrs(sip: Sip, k: Keeper, s: State, f: Frame, w: World, i: nat)
    requires s.ready && Agrees(k, s) && AuthenticWorld(sip, k, w) && Ahead(s, f) && w.blobs
    requires s.num + 256 * i < f.num && AllPresent(s, w, s.num + 256 * i)
    requires w.readFails(s.num + 256 * i + 1) && forall j | 0 <= j < i :: !w.readFails(s.num + 256 * j + 1)
    ensures var m := s.num + 256 * i;
            AfterFrame(sip, s, f, w) == s.(num := m, members := Kept(k, s.epoch, m))
  {
    hide PulledInBatches, HashOf, Kept, AllPresent, AuthenticWorld;
    BatchesErr(sip, k, s, f.num, w, i);
  }

  lemma {:induction false} BatchesErr(sip: Sip, k: Keeper, s: State, upto: u64, w: World, i: nat)
    requires s.ready && Agrees(k, s) && AuthenticWorld(sip, k, w)
    requires s.num + 256 * i < upto && AllPresent(s, w, s.num + 256 * i)
    requires w.readFails(s.num + 256 * i + 1) && forall j | 0 <= j < i :: !w.readFails(s.num + 256 * j + 1)
    ensures PulledInBatches(sip, s, upto, w, PACKAGES_PER_READ) ==
            var m := s.num + 256 * i; (s.(num := m, members := Kept(k, s.epoch, m)), false)
    decreases i
  {
    hide Pulled, Kept, Present, AuthenticWorld;
    if i > 0 {
      assert !w.readFails(s.num + 256 * 0 + 1);
      var mid := s.num + 256;
      PulledReaches(sip, k, s, mid, w);
      var next := Pulled(sip, s, mid, w).0;
      forall n | mid < n <= s.num + 256 * i ensures Present(next, w, n) {
        PresentAlike(s, next, w, n);
      }
      forall j | 0 <= j < i - 1 ensures !w.readFails(next.num + 256 * j + 1) {
        assert !w.readFails(s.num + 256 * (j + 1) + 1);
      }
      BatchesErr(sip, k, next, upto, w, i - 1);
    }
  }

  lemma CatchUpSteps(sip: Sip, k: Keeper, s: State, upto: u64, hash: HashText, w: World, batch: nat)
    requires s.ready && Agrees(k, s) && AuthenticWorld(sip, k, w)
    requires s.num <= upto && AllPresent(s, w, upto)
    requires batch > 0 && w.blobs && forall n :: !w.readFails(n)
    requires hash == NoHash || hash == Hex(KeptHash(sip, k, s.epoch, upto))
    ensures StepByStep(k, s, upto, CatchUpSeen(sip, s, upto, hash, w, batch))
  {
    hide PulledInBatches, BatchesSeen, Pulled, PulledSeen, Kept, StepByStep, HashOf, AllPresent, AuthenticWorld;
    BatchSizeInvisible(sip, s, upto, w, batch);
    BatchSizeUnseen(sip, s, upto, w, batch);
    PulledReaches(sip, k, s, upto, w);
    PulledSteps(sip, k, s, upto, w);
    var seen := PulledSeen(sip, s, upto, w);
    assert seen + [] == seen;
  }

  lemma {:induction false} PulledSteps(sip: Sip, k: Keeper, s: State, upto: u64, w: World)
    requires s.ready && Agrees(k, s) && AuthenticWorld(sip, k, w)
    requires s.num <= upto && AllPresent(s, w, upto)
    ensures StepByStep(k, s, upto, PulledSeen(sip, s, upto, w))
    decreases upto - s.num
  {
    hide AfterPackage, PackageSeen, Authentic, Kept, Decode, HashOf, AppliedAll;
    if s.num < upto {
      assert Present(s, w, s.num + 1);
      HonestPackage(sip, k, s, w);
      var data := w.slot(s.num + 1).value;
      PackageDecides(sip, s, data, s.num + 1, w);
      var next := AfterPackage(sip, s, data, s.num + 1, w).0;
      assert PackageSeen(sip, s, data, s.num + 1, w) == [next];
      assert forall n | s.num + 1 < n <= upto :: Present(s, w, n) ==> Present(next, w, n);
      PulledSteps(sip, k, next, upto, w);
    }
  }

  lemma {:induction false} SeenSplit(sip: Sip, s: State, mid: nat, upto: nat, w: World)
    requires s.num <= mid <= upto
    ensures PulledSeen(sip, s, upto, w) ==
            var half := Pulled(sip, s, mid, w);
            PulledSeen(sip, s, mid, w) + if half.1 then PulledSeen(sip, half.0, upto, w) else []
    decreases mid - s.num
  {
    hide AfterPackage, AfterSnapshot, PackageSeen, SnapshotSeen;
    if s.num < mid && w.slot(s.num + 1).Some? {
      var data := w.slot(s.num + 1).value;
      var next := AfterPackage(sip, s, data, s.num + 1, w);
      if next.1 {
        SeenSplit(sip, next.0, mid, upto, w);
      }
    }
  }

  lemma {:induction false} BatchSizeUnseen(sip: Sip, s: State, upto: nat, w: World, batch: nat)
    requires batch > 0 && forall n :: !w.readFails(n)
    ensures BatchesSeen(sip, s, upto, w, batch) == PulledSeen(sip, s, upto, w)
    decreases upto - s.num
  {
    hide Pulled, PulledSeen, BatchesSeen;
    if s.num >= upto {
      SeenNothing(sip, s, upto, w, batch);
    } else {
      var mid := s.num + Min(upto - s.num, batch);
      SeenSplit(sip, s, mid, upto, w);
      OneMoreBatch(sip, s, upto, w, batch);
      var next := Pulled(sip, s, mid, w);
      if next.1 {
        BatchSizeUnseen(sip, next.0, upto, w, batch);
      }
    }
  }

  lemma SeenNothing(sip: Sip, s: State, upto: nat, w: World, batch: nat)
    requires batch > 0 && s.num >= upto
    ensures BatchesSeen(sip, s, upto, w, batch) == [] == PulledSeen(sip, s, upto, w)
  {
  }

  /** Where a package on the way is missing or foreign, the frame takes the mirror to just before the first such, and
      makes it try a snapshot from there; a read that errs leaves it where it had got to. */
  lemma FrameMeetsGap(sip: Sip, s: State, f: Frame, w: World) returns (m: u64)
    requires s.ready && Ahead(s, f) && w.blobs && !AllPresent(s, w, f.num)
    ensures s.num <= m < f.num && forall n | s.num < n <= m :: Present(s, w, n)
    ensures var t := AfterFrame(sip, s, f, w);
            (w.readFails(m + 1) && t == Reached(s, w, m)) || StopsPast(sip, s, w, m, t)
  {
    hide PulledInBatches, Present, Reached, StopsPast;
    if PulledInBatches(sip, s, f.num, w, PACKAGES_PER_READ).1 {
      BatchesFindAll(sip, s, f.num, w, PACKAGES_PER_READ);
    }
    m := CatchUpStops(sip, s, f.num, w, PACKAGES_PER_READ);
  }

  lemma {:induction false} BatchesFindAll(sip: Sip, s: State, upto: nat, w: World, batch: nat)
    requires batch > 0 && s.num <= upto && PulledInBatches(sip, s, upto, w, batch).1
    ensures AllPresent(s, w, upto)
    decreases upto - s.num
  {
    hide Pulled, Present, Reached;
    if s.num < upto {
      var mid := s.num + Min(upto - s.num, batch);
      NoPackageSkipped(sip, s, mid, w);
      var next := Pulled(sip, s, mid, w).0;
      BatchesFindAll(sip, next, upto, w, batch);
      SameSet(s, w, mid);
      forall n | s.num < n <= upto ensures Present(s, w, n) {
        PresentAlike(s, next, w, n);
        assert mid < n ==> Present(next, w, n);
      }
    }
  }

  lemma SameSet(s: State, w: World, m: u64)
    requires s.num <= m
    ensures Reached(s, w, m).epoch == s.epoch && Reached(s, w, m).typ == s.typ && Reached(s, w, m).num == m
  {
  }

  /** The store can be read and holds all the packages of an epoch up to a number, and a snapshot of the epoch that
      is no later. */
  ghost predicate Serves(k: Keeper, w: World, epoch: u64, upto: u64, n: u64) {
    && w.blobs && (forall m :: !w.readFails(m)) && n <= upto && BringsSnapshot(w, epoch, n)
    && forall m | 1 <= m <= upto :: w.slot(m).Some? && IsPackage(w.slot(m).value, epoch, k.typ(epoch), m)
  }

  lemma TickReaches(sip: Sip, k: Keeper, s: State, f: Frame, w: World, epoch: u64, n: u64)
    requires Agrees(k, s) && AuthenticWorld(sip, k, w) && f.v == 3 && f.op == Tick && f.epoch == Some(epoch)
    requires Serves(k, w, epoch, f.num, n) && f.hash == Hex(KeptHash(sip, k, epoch, f.num))
    requires s.ready && s.epoch == epoch ==> s.num <= f.num
    ensures var t := AfterFrame(sip, s, f, w);
            At(k, t, epoch, f.num) || ((!s.ready || s.epoch != epoch) && At(k, t, epoch, n))
  {
    hide AfterFrame, AuthenticWorld, Kept, HashOf, Decode, IsPackage, BringsSnapshot;
    if !s.ready || s.epoch != epoch {
      FrameResyncs(sip, k, s, f, w, epoch, n);
    } else if s.num == f.num {
      FrameIgnored(sip, s, f, w);
    } else {
      forall m | s.num < m <= f.num ensures Present(s, w, m) {
        IsPresent(s, w, m);
      }
      FrameCatchesUp(sip, k, s, f, w);
    }
  }

  lemma IsPresent(s: State, w: World, m: nat)
    requires w.slot(m).Some? && IsPackage(w.slot(m).value, s.epoch, s.typ, m)
    ensures Present(s, w, m)
  {
    hide Decode;
  }

  /** Whatever has happened, lost frames, other epochs, no snapshot yet: the keeper's tick, heard twice while the
      store serves, has the mirror at the keeper's set of that moment. */
  lemma TwoTicksReach(sip: Sip, k: Keeper, first: World, steps: seq<(Frame, World)>, f: Frame, w: World, n: u64)
    requires AuthenticRun(sip, k, first, steps) && AuthenticWorld(sip, k, w)
    requires f.v == 3 && f.op == Tick && f.epoch.Some? && f.hash == Hex(KeptHash(sip, k, f.epoch.value, f.num))
    requires Serves(k, w, f.epoch.value, f.num, n)
    requires var s := AfterRun(sip, first, steps); s.ready && s.epoch == f.epoch.value ==> s.num <= f.num
    ensures At(k, AfterRun(sip, first, steps + [(f, w), (f, w)]), f.epoch.value, f.num)
  {
    hide AfterFrame, AuthenticWorld, AuthenticRun, AfterSnapshot, Kept, HashOf, Serves;
    var s, start := AfterRun(sip, first, steps), AfterSnapshot(sip, NOT_READY, first);
    MirrorEqualsKeeper(sip, k, first, steps);
    TickReaches(sip, k, s, f, w, f.epoch.value, n);
    var t := AfterFrame(sip, s, f, w);
    ServesNoLater(k, w, f.epoch.value, f.num, n);
    TickReaches(sip, k, t, f, w, f.epoch.value, n);
    assert (steps + [(f, w), (f, w)])[..|steps| + 1] == steps + [(f, w)];
    assert (steps + [(f, w)])[..|steps|] == steps;
    assert AfterFrames(sip, start, steps + [(f, w)]) == t;
  }

  lemma ServesNoLater(k: Keeper, w: World, epoch: u64, upto: u64, n: u64)
    requires Serves(k, w, epoch, upto, n)
    ensures n <= upto
  {
  }

  /** A package that rides in its frame does what the same package read from the store does,
      where the frame's own hash is empty or the package's. */
  lemma InlineEqualsRead(sip: Sip, s: State, data: bytes, hash: HashText, w: World)
    requires w.blobs && !w.readFails(s.num + 1) && w.slot(s.num + 1) == Some(data)
    requires hash == NoHash || (Decode(data).Ok? && hash == Hex(Decode(data).value.0.hash))
    ensures AfterCatchUp(sip, s, s.num + 1, hash, w, PACKAGES_PER_READ) ==
            AfterPackage(sip, s, data, s.num + 1, w).0
  {
    hide Decode, HashOf, AppliedAll, Applied;
    var next := AfterPackage(sip, s, data, s.num + 1, w);
    assert next.1 ==> Pulled(sip, next.0, s.num + 1, w) == (next.0, true);
    assert Pulled(sip, s, s.num + 1, w) == next;
    assert next.1 ==> PulledInBatches(sip, next.0, s.num + 1, w, PACKAGES_PER_READ) == (next.0, true);
  }

  /** A frame that makes a ready mirror of an epoch look for another. */
  predicate Releases(epoch: u64, f: Frame) {
    f.v == VERSION && !f.op.Resync? && f.epoch.Some? && f.epoch.value != epoch
  }

  /** A mirror that only follows packages: it stays in its epoch, under its key, and goes no way but on. */
  predicate FollowsOn(s: State, t: State) {
    t.ready && t.snapBad && t.epoch == s.epoch && t.key == s.key && t.typ == s.typ && t.num >= s.num
  }

  /** After a snapshot whose hash could not be reproduced, no frame of any kind makes the mirror resync,
      until one of another epoch does. */
  lemma BadSnapshotFrame(sip: Sip, s: State, f: Frame, w: World)
    requires s.ready && s.snapBad
    ensures !Releases(s.epoch, f) ==> FollowsOn(s, AfterFrame(sip, s, f, w))
    ensures Releases(s.epoch, f) ==> AfterFrame(sip, s, f, w) == AfterSnapshot(sip, s.(snapBad := false), w)
  {
    hide Decode, HashOf, AppliedAll, PulledInBatches;
    BadPull(sip, s, f.num, w, PACKAGES_PER_READ);
  }

  /** Over any run of frames: the mirror is stuck with its bad snapshot up to the first frame of another
      epoch, which takes a snapshot from wherever the mirror then is. */
  lemma {:induction false} BadSnapshotSticks(sip: Sip, s: State, steps: seq<(Frame, World)>)
    requires s.ready && s.snapBad
    requires forall i | 0 <= i < |steps| - 1 :: !Releases(s.epoch, steps[i].0)
    ensures steps == [] || !Releases(s.epoch, steps[|steps| - 1].0) ==> FollowsOn(s, AfterFrames(sip, s, steps))
    ensures steps != [] && Releases(s.epoch, steps[|steps| - 1].0) ==>
              var before := AfterFrames(sip, s, steps[..|steps| - 1]);
              && FollowsOn(s, before)
              && AfterFrames(sip, s, steps) ==
                 AfterSnapshot(sip, before.(snapBad := false), steps[|steps| - 1].1)
  {
    hide AfterFrame, AfterSnapshot, Releases;
    if steps != [] {
      var n := |steps| - 1;
      BadSnapshotSticks(sip, s, steps[..n]);
      BadSnapshotFrame(sip, AfterFrames(sip, s, steps[..n]), steps[n].0, steps[n].1);
    }
  }

  lemma {:induction false} BadPull(sip: Sip, s: State, upto: nat, w: World, batch: nat)
    requires s.ready && s.snapBad && batch > 0
    ensures FollowsOn(s, PulledInBatches(sip, s, upto, w, batch).0)
    decreases upto - s.num
  {
    hide Pulled;
    if s.num < upto && !w.readFails(s.num + 1) {
      var mid := s.num + Min(upto - s.num, batch);
      BadPullOne(sip, s, mid, w);
      var next := Pulled(sip, s, mid, w);
      if next.1 {
        BadPull(sip, next.0, upto, w, batch);
      }
    }
  }

  lemma {:induction false} BadPullOne(sip: Sip, s: State, upto: nat, w: World)
    requires s.ready && s.snapBad
    ensures FollowsOn(s, Pulled(sip, s, upto, w).0)
    decreases upto - s.num
  {
    hide Decode, HashOf, AppliedAll;
    if s.num < upto && w.slot(s.num + 1).Some? {
      var next := AfterPackage(sip, s, w.slot(s.num + 1).value, s.num + 1, w);
      if next.1 {
        BadPullOne(sip, next.0, upto, w);
      }
    }
  }

  // ---- the set as the program keeps it ----

  /** Prefix lengths in a readable object are in range; the program's index has no slot for others. */
  predicate Indexable(data: bytes) {
    var got := Decode(data);
    got.Ok? ==> PrefixesInRange(got.value.1)
  }

  ghost predicate IndexableWorld(w: World) {
    (w.snap.Some? ==> Indexable(w.snap.value)) && forall n | w.slot(n).Some? :: Indexable(w.slot(n).value)
  }

  predicate IndexableFrame(f: Frame) {
    f.inl.Inline? ==> Indexable(f.inl.data)
  }

  /** A value asked about: the text, and the address or prefix it parses as, if any. */
  datatype Query = IsAddr(a: Addr) | IsPrefix(p: Prefix) | NeitherNet

  /** What a ready set answers; the stored prefix itself is looked up for a prefix. */
  ghost predicate Holds(s: State, value: bytes, q: Query, now: i64)
    requires GoodMembers(s.members)
  {
    if s.typ == TYPE_CIDR then
      match q
      case IsAddr(a) => Listed(s.members, Unmap(a), now)
      case IsPrefix(p) =>
        var own := PrefixFrom(Unmap(Addr(p.fam, p.ip)), p.bits);
        InRange(own) && Masked(own) in s.members.nets && Alive(s.members.nets[Masked(own)], now)
      case NeitherNet => false
    else value in s.members.entries && Alive(s.members.entries[value].exp, now)
  }

  /** The keeper publishes masked prefixes of valid length. */
  ghost predicate MaskedKeeper(k: Keeper) {
    forall e, n :: AllMasked(Kept(k, e, n))
  }

  /** The answer about an address is the one the keeper's own set at that point calls for. */
  ghost predicate Answers(k: Keeper, s: State, a: Addr, now: i64) {
    var kept := Kept(k, s.epoch, s.num);
    && GoodMembers(s.members)
    && (Holds(s, [], IsAddr(a), now) <==>
        exists p | p in kept.nets ::
          InRange(p) && (kept.nets[p] == 0 || kept.nets[p] > now) && Covers(p, Unmap(a)))
  }

  lemma AgreeingAnswers(k: Keeper, s: State, a: Addr, now: i64)
    requires Agrees(k, s) && MaskedKeeper(k) && s.ready && s.typ == TYPE_CIDR
    ensures Answers(k, s, a, now)
  {
    hide Kept;
    assert AllMasked(Kept(k, s.epoch, s.num));
  }

  /** A prefix is found exactly if the keeper's set has, unexpired, the prefix of its length that covers the address
      it is written with, once that is unmapped: not a shorter or a longer one. A length beyond the unmapped
      family's is never found. */
  lemma AgreeingPrefix(k: Keeper, s: State, value: bytes, q: Prefix, now: i64)
    requires Agrees(k, s) && MaskedKeeper(k) && s.ready && s.typ == TYPE_CIDR && InRange(q)
    ensures var own := Unmap(Addr(q.fam, q.ip));
            var kept := Kept(k, s.epoch, s.num);
            && GoodMembers(s.members)
            && (Holds(s, value, IsPrefix(q), now) <==>
                exists p | p in kept.nets ::
                  InRange(p) && p.bits == q.bits && (kept.nets[p] == 0 || kept.nets[p] > now) && Covers(p, own))
  {
    hide Kept;
    assert AllMasked(Kept(k, s.epoch, s.num));
    var own := Unmap(Addr(q.fam, q.ip));
    UnmapGood(Addr(q.fam, q.ip));
    forall p | p in s.members.nets && p.fam == own.fam && p.bits == q.bits
      ensures Covers(p, own) <==> p == Masked(PrefixFrom(own, q.bits))
    {
      CoversIffOwnPrefix(p, own);
    }
    if InRange(PrefixFrom(own, q.bits)) {
      OwnPrefixCovers(own, q.bits);
    }
  }

  /** A string is found exactly if the keeper's set has it, unexpired; what is neither address nor prefix is in no set
      of prefixes. */
  lemma AgreeingText(k: Keeper, s: State, value: bytes, q: Query, now: i64)
    requires Agrees(k, s) && s.ready && GoodMembers(s.members)
    ensures s.typ == 1 && q == NeitherNet ==> !Holds(s, value, q, now)
    ensures var kept := Kept(k, s.epoch, s.num).entries;
            s.typ != 1 ==> (Holds(s, value, q, now) <==>
                            value in kept && (kept[value].exp == 0 || kept[value].exp > now))
  {
    hide Kept;
  }

  /** End to end: over any stream of frames, whenever it is asked, a ready mirror of a CIDR set finds an
      address exactly when some unexpired prefix of the keeper's set at the mirror's point covers it,
      whatever its length; an expired longer one hides nothing. */
  lemma AnswersAsKeeper(sip: Sip, k: Keeper, first: World, steps: seq<(Frame, World)>, a: Addr, now: i64)
    requires AuthenticRun(sip, k, first, steps) && MaskedKeeper(k)
    ensures forall s <- RunSeen(sip, first, steps) :: s.ready && s.typ == TYPE_CIDR ==> Answers(k, s, a, now)
  {
    hide AuthenticRun, RunSeen, Answers, Agrees, MaskedKeeper;
    EverySeenAgrees(sip, k, first, steps);
    forall s <- RunSeen(sip, first, steps) | s.ready && s.typ == TYPE_CIDR ensures Answers(k, s, a, now) {
      AgreeingAnswers(k, s, a, now);
    }
  }

  // ---- the loops, halfway ----

  /** Having left states `so`, the rest from t on is what is still to come from s. */
  ghost predicate HalfPulled(sip: Sip, s: State, t: State, upto: nat, w: World, was: seq<State>, so: seq<State>) {
    && Pulled(sip, s, upto, w) == Pulled(sip, t, upto, w)
    && was + PulledSeen(sip, s, upto, w) == so + PulledSeen(sip, t, upto, w)
  }

  lemma PulledFromStart(sip: Sip, s: State, upto: nat, w: World, was: seq<State>)
    ensures HalfPulled(sip, s, s, upto, w, was, was)
  {
  }

  lemma PulledToEnd(sip: Sip, s: State, t: State, upto: nat, w: World, was: seq<State>, so: seq<State>)
    requires HalfPulled(sip, s, t, upto, w, was, so) && t.num >= upto
    ensures Pulled(sip, s, upto, w) == (t, true) && so == was + PulledSeen(sip, s, upto, w)
  {
  }

  lemma Gap(sip: Sip, t: State, upto: nat, w: World)
    requires t.num < upto && w.slot(t.num + 1).None?
    ensures Pulled(sip, t, upto, w) == (AfterSnapshot(sip, t, w), false)
    ensures PulledSeen(sip, t, upto, w) == SnapshotSeen(sip, t, w)
  {
    hide AfterSnapshot, SnapshotSeen, AfterPackage, PackageSeen;
  }

  lemma HalfPulledMeans(sip: Sip, s: State, t: State, upto: nat, w: World, was: seq<State>, so: seq<State>)
    requires HalfPulled(sip, s, t, upto, w, was, so)
    ensures Pulled(sip, s, upto, w) == Pulled(sip, t, upto, w)
    ensures was + PulledSeen(sip, s, upto, w) == so + PulledSeen(sip, t, upto, w)
  {
    hide Pulled, PulledSeen;
  }

  lemma PulledOneMore(sip: Sip, s: State, t: State, upto: nat, w: World, was: seq<State>, so: seq<State>, data: bytes)
    requires HalfPulled(sip, s, t, upto, w, was, so) && t.num < upto && w.slot(t.num + 1) == Some(data)
    ensures var next, now' := AfterPackage(sip, t, data, t.num + 1, w), so + PackageSeen(sip, t, data, t.num + 1, w);
            if next.1 then HalfPulled(sip, s, next.0, upto, w, was, now')
            else Pulled(sip, s, upto, w) == next && now' == was + PulledSeen(sip, s, upto, w)
  {
    hide AfterPackage, PackageSeen;
    var next, more := AfterPackage(sip, t, data, t.num + 1, w), PackageSeen(sip, t, data, t.num + 1, w);
    if next.1 {
      assert so + (more + PulledSeen(sip, next.0, upto, w)) == so + more + PulledSeen(sip, next.0, upto, w);
    } else {
      assert so + (more + []) == so + more;
    }
  }

  ghost predicate HalfCaughtUp(sip: Sip, s: State, t: State, upto: nat, w: World, batch: nat, was: seq<State>,
                               so: seq<State>)
    requires batch > 0
  {
    && PulledInBatches(sip, s, upto, w, batch) == PulledInBatches(sip, t, upto, w, batch)
    && was + BatchesSeen(sip, s, upto, w, batch) == so + BatchesSeen(sip, t, upto, w, batch)
  }

  lemma CatchUpFromStart(sip: Sip, s: State, upto: nat, w: World, batch: nat, was: seq<State>)
    requires batch > 0
    ensures HalfCaughtUp(sip, s, s, upto, w, batch, was, was)
  {
    hide PulledInBatches, BatchesSeen;
  }

  lemma BatchesOver(sip: Sip, t: State, upto: nat, w: World, batch: nat)
    requires batch > 0 && (t.num >= upto || w.readFails(t.num + 1))
    ensures PulledInBatches(sip, t, upto, w, batch) == (t, t.num >= upto) && BatchesSeen(sip, t, upto, w, batch) == []
  {
  }

  lemma CatchUpToEnd(sip: Sip, s: State, t: State, upto: nat, w: World, batch: nat, was: seq<State>, so: seq<State>)
    requires batch > 0
    requires HalfCaughtUp(sip, s, t, upto, w, batch, was, so) && (t.num >= upto || w.readFails(t.num + 1))
    ensures PulledInBatches(sip, s, upto, w, batch) == (t, t.num >= upto)
    ensures so == was + BatchesSeen(sip, s, upto, w, batch)
  {
    hide PulledInBatches, BatchesSeen;
    BatchesOver(sip, t, upto, w, batch);
  }

  lemma OneMoreBatch(sip: Sip, t: State, upto: nat, w: World, batch: nat)
    requires batch > 0 && t.num < upto && !w.readFails(t.num + 1)
    ensures var mid := t.num + Min(upto - t.num, batch);
            var next := Pulled(sip, t, mid, w);
            && PulledInBatches(sip, t, upto, w, batch) ==
               (if next.1 then PulledInBatches(sip, next.0, upto, w, batch) else next)
            && BatchesSeen(sip, t, upto, w, batch) ==
               PulledSeen(sip, t, mid, w) + if next.1 then BatchesSeen(sip, next.0, upto, w, batch) else []
  {
    hide Pulled, PulledSeen;
  }

  lemma CatchUpOneMore(sip: Sip, s: State, t: State, upto: nat, w: World, batch: nat, was: seq<State>, so: seq<State>)
    requires batch > 0
    requires HalfCaughtUp(sip, s, t, upto, w, batch, was, so) && t.num < upto && !w.readFails(t.num + 1)
    ensures var mid := t.num + Min(upto - t.num, batch);
            var next, now' := Pulled(sip, t, mid, w), so + PulledSeen(sip, t, mid, w);
            if next.1 then HalfCaughtUp(sip, s, next.0, upto, w, batch, was, now')
            else PulledInBatches(sip, s, upto, w, batch) == next && now' == was + BatchesSeen(sip, s, upto, w, batch)
  {
    hide Pulled, PulledSeen, PulledInBatches, BatchesSeen;
    OneMoreBatch(sip, t, upto, w, batch);
    var mid := t.num + Min(upto - t.num, batch);
    var next, more := Pulled(sip, t, mid, w), PulledSeen(sip, t, mid, w);
    if next.1 {
      var rest := BatchesSeen(sip, next.0, upto, w, batch);
      assert so + (more + rest) == so + more + rest;
    } else {
      assert so + (more + []) == so + more;
    }
  }

  lemma NoFrames(sip: Sip, s: State)
    ensures AfterFrames(sip, s, []) == s && FramesSeen(sip, s, []) == []
  {
  }

  lemma OneMoreFrame(sip: Sip, s: State, steps: seq<(Frame, World)>, i: nat, was: seq<State>, so: seq<State>)
    requires i < |steps| && so == was + FramesSeen(sip, s, steps[..i])
    ensures var (f, w) := steps[i];
            var t := AfterFrames(sip, s, steps[..i]);
            && AfterFrames(sip, s, steps[..i + 1]) == AfterFrame(sip, t, f, w)
            && so + FrameSeen(sip, t, f, w) == was + FramesSeen(sip, s, steps[..i + 1])
  {
    hide AfterFrame, FrameSeen;
    assert steps[..i + 1][..i] == steps[..i];
  }

  class MirrorSet {
    const sip: Sip
    var ready: bool
    var epoch: u64
    var num: u64
    var key: bytes
    var typ: byte
    var comp: Composition
    var syncing: bool
    var snapBad: bool

    /** The states the set was left in so far, each recorded where the program gives up the set. */
    ghost var seen: seq<State>

    ghost predicate Valid()
      reads this, comp, comp.lens
    {
      comp.sip == sip && comp.Valid(key) && !syncing && seen != [] && seen[|seen| - 1] == View()
    }

    ghost function View(): State
      reads this, comp
    {
      State(ready, epoch, num, key, typ, comp.View(), snapBad)
    }

    ghost function Footprint(): set<object>
      reads this, comp
    {
      {this, comp, comp.lens}
    }

    constructor (sip: Sip)
      ensures Valid() && View() == NOT_READY && this.sip == sip && seen == [NOT_READY]
      ensures fresh(Footprint())
    {
      this.sip := sip;
      ready, epoch, num, key, typ, syncing, snapBad := false, 0, 0, NOT_READY.key, 0, false, false;
      comp := new Composition(sip, NOT_READY.key);
      seen := [NOT_READY];
    }

    /** Replaces the whole set by the snapshot object's, if one can be had. */
    method Snapshot(w: World)
      requires Valid() && IndexableWorld(w)
      modifies this
      ensures Valid() && View() == AfterSnapshot(sip, old(View()), w)
      ensures seen == old(seen) + SnapshotSeen(sip, old(View()), w)
      ensures fresh(Footprint() - old(Footprint()))
    {
      hide HashOf, AppliedAll, Decode, Lists, Loaded;
      if syncing || snapBad || w.snap.None? { return; }
      syncing := true;
      var got := Unpack(w.snap.value);
      if got.Err? || got.value.0.kind != KIND_SNAPSHOT {
        syncing := false;
        return;
      }
      var (head, recs) := got.value;
      DecodedKinds(w.snap.value);
      Load(head, recs);
      syncing := false;
    }

    /** Builds the snapshot's set aside, then puts it in place at once. */
    method Load(head: Head, recs: seq<Rec>)
      requires PrefixesInRange(recs) && forall i | 0 <= i < |recs| :: recs[i].NetRec? <==> head.typ == TYPE_CIDR
      modifies this`epoch, this`key, this`num, this`typ, this`comp, this`ready, this`snapBad, this`seen
      ensures View() == Loaded(sip, head, recs) && seen == old(seen) + [View()]
      ensures comp.sip == sip && comp.Valid(key) && fresh(comp) && fresh(comp.lens)
    {
      hide HashOf, AppliedAll;
      var built := Build(sip, head.key, head.typ, recs);
      var bad := Num(built.hash) != head.hash;
      epoch, key, num, typ, comp := head.epoch, head.key, head.num, head.typ, built;
      ready := true;
      snapBad := bad;
      seen := seen + [View()];
    }

    /** Compares the running hash with an announced one; a difference takes a snapshot. */
    method Verify(want: HashText, w: World) returns (ok: bool)
      requires Valid() && IndexableWorld(w)
      modifies this
      ensures Valid() && (View(), ok) == AfterVerify(sip, old(View()), want, w)
      ensures seen == old(seen) + VerifySeen(sip, old(View()), want, w)
      ensures fresh(Footprint() - old(Footprint()))
    {
      hide HashOf, AppliedAll, Decode;
      var got := Num(comp.hash);
      if want == NoHash || Hex(got) == want { return true; }
      if snapBad { return false; }
      Snapshot(w);
      return false;
    }

    method ApplyPackage(data: bytes, want: nat, w: World) returns (ok: bool)
      requires Valid() && IndexableWorld(w) && Indexable(data)
      modifies Footprint()
      ensures Valid() && (View(), ok) == AfterPackage(sip, old(View()), data, want, w)
      ensures seen == old(seen) + PackageSeen(sip, old(View()), data, want, w)
      ensures fresh(Footprint() - old(Footprint()))
    {
      hide HashOf, AppliedAll, Decode, AfterSnapshot, AfterVerify, SnapshotSeen, VerifySeen, IndexableWorld,
        PrefixesInRange, Counts, GoodMembers;
      var got := Unpack(data);
      if got.Err? {
        Snapshot(w);
        return false;
      }
      var (head, recs) := got.value;
      if head.kind != KIND_PACKAGE || head.epoch != epoch || head.num != want || head.typ != typ {
        Snapshot(w);
        return false;
      }
      DecodedKinds(data);
      ApplyAll(comp, key, head.typ, recs, comp.View());
      num := head.num;
      seen := seen + [View()];
      ok := Verify(Hex(head.hash), w);
    }

    /** One batched read and the packages it brought, in order. */
    method ReadBatch(n: nat, w: World) returns (ok: bool)
      requires Valid() && IndexableWorld(w)
      modifies Footprint()
      ensures Valid() && (View(), ok) == Pulled(sip, old(View()), old(num) + n, w)
      ensures seen == old(seen) + PulledSeen(sip, old(View()), old(num) + n, w)
      ensures fresh(Footprint() - old(Footprint()))
    {
      hide AfterPackage, AfterSnapshot, HashOf, Pulled, PulledSeen, PackageSeen, SnapshotSeen, HalfPulled;
      var from := num;
      ghost var s, was := View(), seen;
      PulledFromStart(sip, s, from + n, w, was);
      var objs := seq(n, i requires 0 <= i < n => w.slot(from + 1 + i));
      for i := 0 to n
        invariant Valid() && fresh(Footprint() - old(Footprint()))
        invariant num == from + i
        invariant HalfPulled(sip, s, View(), from + n, w, was, seen)
      {
        if objs[i].None? {
          Gap(sip, View(), from + n, w);
          HalfPulledMeans(sip, s, View(), from + n, w, was, seen);
          Snapshot(w);
          return false;
        }
        PulledOneMore(sip, s, View(), from + n, w, was, seen, objs[i].value);
        var applied := ApplyPackage(objs[i].value, from + 1 + i, w);
        if !applied { return false; }
      }
      PulledToEnd(sip, s, View(), from + n, w, was, seen);
      return true;
    }

    /** Reads packages in batches up to a number, then compares hashes. */
    method CatchUp(upto: u64, hash: HashText, w: World)
      requires Valid() && IndexableWorld(w)
      modifies Footprint()
      ensures Valid() && View() == AfterCatchUp(sip, old(View()), upto, hash, w, PACKAGES_PER_READ)
      ensures seen == old(seen) + CatchUpSeen(sip, old(View()), upto, hash, w, PACKAGES_PER_READ)
      ensures fresh(Footprint() - old(Footprint()))
    {
      hide Pulled, PulledSeen, PulledInBatches, BatchesSeen, HalfCaughtUp, AfterVerify, VerifySeen, HashOf,
        IndexableWorld;
      if !w.blobs { return; }
      ghost var s, was := View(), seen;
      CatchUpFromStart(sip, s, upto, w, PACKAGES_PER_READ, was);
      while num < upto
        invariant Valid() && fresh(Footprint() - old(Footprint()))
        invariant HalfCaughtUp(sip, s, View(), upto, w, PACKAGES_PER_READ, was, seen)
        decreases upto - num
      {
        if w.readFails(num + 1) {
          CatchUpToEnd(sip, s, View(), upto, w, PACKAGES_PER_READ, was, seen);
          return;
        }
        CatchUpOneMore(sip, s, View(), upto, w, PACKAGES_PER_READ, was, seen);
        var ok := ReadBatch(Min(upto - num, PACKAGES_PER_READ), w);
        if !ok { return; }
      }
      CatchUpToEnd(sip, s, View(), upto, w, PACKAGES_PER_READ, was, seen);
      var _ := Verify(hash, w);
    }

    method OnFrame(f: Frame, w: World)
      requires Valid() && IndexableWorld(w) && IndexableFrame(f)
      modifies Footprint()
      ensures Valid() && View() == AfterFrame(sip, old(View()), f, w)
      ensures seen == old(seen) + FrameSeen(sip, old(View()), f, w)
      ensures fresh(Footprint() - old(Footprint()))
    {
      hide AfterPackage, AfterSnapshot, AfterVerify, AfterCatchUp, PackageSeen, SnapshotSeen, VerifySeen, CatchUpSeen;
      if f.v != VERSION { return; }
      if !ready {
        Snapshot(w);
        return;
      }
      if f.op.Resync? || f.epoch.None? { return; }
      if f.epoch.value != epoch {
        snapBad := false;
        seen := seen + [View()];
        Snapshot(w);
        return;
      }
      if f.num < num { return; }
      if f.num == num {
        if f.op.Tick? || f.op.Diff? {
          var _ := Verify(f.hash, w);
        }
        return;
      }
      if f.op.Diff? && f.inl != NoInline && f.num == num + 1 {
        if f.inl.Inline? {
          var _ := ApplyPackage(f.inl.data, f.num, w);
          return;
        }
      }
      CatchUp(f.num, f.hash, w);
    }

    /** The set's goroutine over the frames it is handed. */
    method Run(first: World, steps: seq<(Frame, World)>)
      requires Valid() && View() == NOT_READY && seen == [NOT_READY] && IndexableWorld(first)
      requires forall i | 0 <= i < |steps| :: IndexableFrame(steps[i].0) && IndexableWorld(steps[i].1)
      modifies Footprint()
      ensures Valid() && View() == AfterRun(sip, first, steps) && seen == RunSeen(sip, first, steps)
    {
      hide AfterFrame, AfterSnapshot, FrameSeen, SnapshotSeen, AfterFrames, FramesSeen;
      Snapshot(first);
      ghost var start, was := View(), seen;
      NoFrames(sip, start);
      for i := 0 to |steps|
        invariant Valid() && fresh(Footprint() - old(Footprint()))
        invariant View() == AfterFrames(sip, start, steps[..i])
        invariant seen == was + FramesSeen(sip, start, steps[..i])
      {
        OneMoreFrame(sip, start, steps, i, was, seen);
        OnFrame(steps[i].0, steps[i].1);
      }
      assert steps[..|steps|] == steps;
    }

    /** Membership of a value: (answer, whether the set can answer). */
    method Contains(value: bytes, q: Query, now: i64) returns (ok: bool, usable: bool)
      requires Valid()
      requires match q case IsAddr(a) => GoodAddr(a) case IsPrefix(p) => InRange(p) case NeitherNet => true
      ensures usable == (ready && value != [])
      ensures ok == (usable && Holds(View(), value, q, now))
    {
      hide Listed;
      if value == [] || !ready { return false, false; }
      if typ == TYPE_CIDR {
        match q {
          case IsAddr(a) =>
            ok := comp.ContainsAddr(a, now, key);
            return ok, true;
          case IsPrefix(p) =>
            UnmapGood(Addr(p.fam, p.ip));
            var own := PrefixFrom(Unmap(Addr(p.fam, p.ip)), p.bits);
            if own.bits < 0 { return false, true; }
            var m := Masked(own);
            return m in comp.nets && Alive(comp.nets[m], now), true;
          case NeitherNet => return false, true;
        }
      }
      return value in comp.entries && Alive(comp.entries[value].exp, now), true;
    }
  }

  /** A fresh set with the records of a snapshot applied. */
  method Build(sip: Sip, key: bytes, typ: byte, recs: seq<Rec>) returns (comp: Composition)
    requires PrefixesInRange(recs) && forall i | 0 <= i < |recs| :: recs[i].NetRec? <==> typ == TYPE_CIDR
    ensures comp.Valid(key) && comp.View() == AppliedAll(NO_MEMBERS, recs) && comp.sip == sip
    ensures fresh(comp) && fresh(comp.lens)
  {
    hide Applied, HashOf, OfLength;
    comp := new Composition(sip, key);
    ApplyAll(comp, key, typ, recs, NO_MEMBERS);
  }

  /** The records of a readable object are of the object's own type. */
  lemma DecodedKinds(data: bytes)
    requires Decode(data).Ok?
    ensures var (h, recs) := Decode(data).value;
            |h.key| == 16 && forall i | 0 <= i < |recs| :: recs[i].NetRec? <==> h.typ == TYPE_CIDR
  {
    var (h, recs) := Decode(data).value;
    RecKinds(data[PACK_HEADER..], h.count, h.typ, h.flags);
  }

  lemma {:induction false} RecKinds(s: bytes, n: nat, typ: byte, flags: byte)
    requires DecodeRecs(s, n, typ, flags).Ok?
    ensures forall i | 0 <= i < n :: DecodeRecs(s, n, typ, flags).value[i].NetRec? <==> typ == TYPE_CIDR
  {
    if n > 0 {
      RecKinds(s[DecodeRec(s, typ, flags).value.1..], n - 1, typ, flags);
    }
  }

  /** The record loop of applyPackage and snapshot. */
  method ApplyAll(comp: Composition, key: bytes, typ: byte, recs: seq<Rec>, ghost start: Members)
    requires comp.Valid(key) && comp.View() == start
    requires PrefixesInRange(recs) && forall i | 0 <= i < |recs| :: recs[i].NetRec? <==> typ == TYPE_CIDR
    modifies comp`entries, comp`nets, comp`hash, comp.lens
    ensures comp.Valid(key) && comp.View() == AppliedAll(start, recs)
  {
    hide Applied, HashOf, OfLength;
    for i := 0 to |recs|
      invariant comp.Valid(key) && comp.View() == AppliedAll(start, recs[..i])
    {
      comp.Apply(key, typ, recs[i]);
      assert recs[..i + 1][..i] == recs[..i];
    }
    assert recs[..|recs|] == recs;
  }
}
