/** The bucket store's own code: which accounts a call touches, the ledger's loop with its
    eviction, and the two Redis pipelines (internal/buckets/buckets.go). */
module BucketStore {
  import opened Bytes
  import opened Seqs
  import opened Buckets

  // ---- the accounts of a call ----

  /** Go's order on strings. */
  predicate Before(a: string, b: string) {
    if b == "" then false
    else if a == "" then true
    else if a[0] != b[0] then a[0] < b[0]
    else Before(a[1..], b[1..])
  }

  /** One comes before another where they first differ, or where it ends. */
  lemma {:induction false} BeforeIff(a: string, b: string)
    ensures Before(a, b) <==>
            exists k: nat :: k <= |a| && k < |b| && a[..k] == b[..k] && (k == |a| || (k < |a| && a[k] < b[k]))
  {
    if a == "" || b == "" {
      assert a[..0] == b[..0];
    } else if a[0] != b[0] {
      assert a[..0] == b[..0];
      assert forall k: nat | 0 < k <= |a| && k <= |b| :: a[..k][0] == a[0] && b[..k][0] == b[0];
    } else {
      BeforeIff(a[1..], b[1..]);
      if k: nat :| k <= |a[1..]| && k < |b[1..]| && a[1..][..k] == b[1..][..k]
                  && (k == |a[1..]| || (k < |a[1..]| && a[1..][k] < b[1..][k]))
      {
        assert a[..k + 1] == [a[0]] + a[1..][..k] && b[..k + 1] == [b[0]] + b[1..][..k];
      }
      if k: nat :| k <= |a| && k < |b| && a[..k] == b[..k] && (k == |a| || (k < |a| && a[k] < b[k])) {
        assert a[1..][..k - 1] == a[..k][1..] && b[1..][..k - 1] == b[..k][1..];
      }
    }
  }

  predicate RefBefore(a: Ref, b: Ref) {
    if a.kind != b.kind then Before(a.kind, b.kind) else Before(a.key, b.key)
  }

  lemma {:induction false} BeforeTotal(a: string, b: string)
    ensures a != b ==> (Before(a, b) <==> !Before(b, a))
    ensures a == b ==> !Before(a, b)
  {
    if a != "" && b != "" && a[0] == b[0] {
      BeforeTotal(a[1..], b[1..]);
      assert a == [a[0]] + a[1..] && b == [b[0]] + b[1..];
    }
  }

  lemma {:induction false} BeforeTransitive(a: string, b: string, c: string)
    requires Before(a, b) && Before(b, c)
    ensures Before(a, c)
  {
    if a != "" && b != "" && c != "" && a[0] == b[0] == c[0] {
      BeforeTransitive(a[1..], b[1..], c[1..]);
    }
  }

  lemma RefBeforeTotal(a: Ref, b: Ref)
    ensures a != b ==> RefBefore(a, b) || RefBefore(b, a)
    ensures RefBefore(a, b) ==> !RefBefore(b, a) && a != b
  {
    BeforeTotal(a.kind, b.kind);
    BeforeTotal(a.key, b.key);
  }

  lemma RefBeforeTransitive(a: Ref, b: Ref, c: Ref)
    requires RefBefore(a, b) && RefBefore(b, c)
    ensures RefBefore(a, c)
  {
    BeforeTotal(a.kind, b.kind);
    BeforeTotal(b.kind, c.kind);
    if a.kind == b.kind == c.kind {
      BeforeTransitive(a.key, b.key, c.key);
    } else if a.kind != b.kind && b.kind != c.kind {
      BeforeTransitive(a.kind, b.kind, c.kind);
      BeforeTotal(a.kind, c.kind);
    }
  }

  /** By kind, and within a kind by key. */
  lemma RefBeforeIff(a: Ref, b: Ref)
    ensures RefBefore(a, b) <==> Before(a.kind, b.kind) || (a.kind == b.kind && Before(a.key, b.key))
  {
    BeforeTotal(a.kind, b.kind);
  }

  ghost predicate InOrder(s: seq<Ref>) {
    forall i, j | 0 <= i < j < |s| :: RefBefore(s[i], s[j])
  }

  /** sort.Slice, on distinct refs. */
  function Inserted(r: Ref, s: seq<Ref>): seq<Ref> {
    if s == [] then [r]
    else if RefBefore(r, s[0]) then [r] + s
    else [s[0]] + Inserted(r, s[1..])
  }

  function SortRefs(s: seq<Ref>): seq<Ref> {
    if s == [] then [] else Inserted(s[|s| - 1], SortRefs(s[..|s| - 1]))
  }

  lemma {:induction false} InsertedInOrder(r: Ref, s: seq<Ref>)
    requires InOrder(s) && r !in s
    ensures InOrder(Inserted(r, s)) && forall x :: x in Inserted(r, s) <==> x == r || x in s
  {
    if s != [] {
      RefBeforeTotal(r, s[0]);
      if RefBefore(r, s[0]) {
        forall j | 0 <= j < |s| ensures RefBefore(r, s[j]) {
          if j > 0 { RefBeforeTransitive(r, s[0], s[j]); }
        }
      } else {
        var rest := Inserted(r, s[1..]);
        InsertedInOrder(r, s[1..]);
        assert s == [s[0]] + s[1..];
        forall x <- rest ensures RefBefore(s[0], x) {
          if x != r {
            var j :| 0 <= j < |s[1..]| && s[1..][j] == x;
            assert s[j + 1] == x;
          }
        }
      }
    }
  }

  lemma {:induction false} Sorting(s: seq<Ref>)
    requires NoRepeat(s)
    ensures InOrder(SortRefs(s)) && forall x :: x in SortRefs(s) <==> x in s
  {
    if s != [] {
      var before, last := s[..|s| - 1], s[|s| - 1];
      Sorting(before);
      assert s == before + [last];
      assert last !in before;
      InsertedInOrder(last, SortRefs(before));
    }
  }

  predicate Wanted(tiers: Tiers, r: Ref) {
    Enabled(TierFor(tiers, r.kind)) && r.key != ""
  }

  /** The accounts a call touches: each wanted one once, in order. */
  method RefUnion(charges: seq<Charge>, asked: seq<Ref>, tiers: Tiers) returns (out: seq<Ref>)
    ensures InOrder(out)
    ensures forall r :: r in out <==> Wanted(tiers, r) && (r in asked || exists c :: c in charges && c.ref == r)
  {
    var seen: set<Ref> := {};
    var kept: seq<Ref> := [];
    for i := 0 to |charges|
      invariant NoRepeat(kept) && forall r :: r in kept <==> r in seen
      invariant forall r :: r in seen <==> Wanted(tiers, r) && exists c :: c in charges[..i] && c.ref == r
    {
      var r := charges[i].ref;
      assert charges[..i + 1] == charges[..i] + [charges[i]];
      if Wanted(tiers, r) && r !in seen {
        seen, kept := seen + {r}, kept + [r];
      }
    }
    assert charges[..|charges|] == charges;
    ghost var charged := seen;
    for i := 0 to |asked|
      invariant NoRepeat(kept) && forall r :: r in kept <==> r in seen
      invariant forall r :: r in seen <==> r in charged || (Wanted(tiers, r) && r in asked[..i])
    {
      var r := asked[i];
      assert asked[..i + 1] == asked[..i] + [asked[i]];
      if Wanted(tiers, r) && r !in seen {
        seen, kept := seen + {r}, kept + [r];
      }
    }
    assert asked[..|asked|] == asked;
    Sorting(kept);
    out := SortRefs(kept);
  }

  lemma InOrderNoRepeat(s: seq<Ref>)
    requires InOrder(s)
    ensures NoRepeat(s)
  {
    forall i, j | 0 <= i < j < |s| ensures s[i] != s[j] {
      RefBeforeTotal(s[i], s[j]);
    }
  }

  // ---- charges summed ----

  function Sums(charges: seq<Charge>): map<Ref, real> {
    if charges == [] then map[]
    else
      var before, c := Sums(charges[..|charges| - 1]), charges[|charges| - 1];
      before[c.ref := c.add + if c.ref in before then before[c.ref] else 0.0]
  }

  /** All that the charges add to one account. */
  function Added(charges: seq<Charge>, r: Ref): real {
    if charges == [] then 0.0
    else
      var last := charges[|charges| - 1];
      Added(charges[..|charges| - 1], r) + if last.ref == r then last.add else 0.0
  }

  /** Each account charged at all has one sum, the total of its own charges; the others have none. */
  lemma {:induction false} SumsAreTotals(charges: seq<Charge>, r: Ref)
    ensures r in Sums(charges) <==> exists i :: 0 <= i < |charges| && charges[i].ref == r
    ensures r in Sums(charges) ==> Sums(charges)[r] == Added(charges, r)
    ensures r !in Sums(charges) ==> Added(charges, r) == 0.0
  {
    if charges != [] {
      var n := |charges| - 1;
      SumsAreTotals(charges[..n], r);
      assert forall i | 0 <= i < n :: charges[..n][i] == charges[i];
    }
  }

  method SumUp(charges: seq<Charge>) returns (sums: map<Ref, real>)
    ensures sums == Sums(charges)
    ensures forall r :: r in sums <==> exists i :: 0 <= i < |charges| && charges[i].ref == r
    ensures forall r | r in sums :: sums[r] == Added(charges, r)
  {
    sums := map[];
    for i := 0 to |charges|
      invariant sums == Sums(charges[..i])
    {
      var c := charges[i];
      assert charges[..i + 1][..i] == charges[..i];
      sums := sums[c.ref := c.add + if c.ref in sums then sums[c.ref] else 0.0];
    }
    assert charges[..|charges|] == charges;
    forall r {
      SumsAreTotals(charges, r);
    }
  }

  predicate Lives(tiers: Tiers, c: Charge) {
    Enabled(TierFor(tiers, c.ref.kind)) && c.add != 0.0
  }

  function Liveness(tiers: Tiers): Charge -> bool {
    c => Lives(tiers, c)
  }

  function LevelOf(r: Ref, t: Tier, e: real): Level {
    Level(r, e, if t.max > 0.0 then e / t.max * 100.0 else 0.0)
  }

  function LevelsOf(tiers: Tiers, refs: seq<Ref>, e: seq<real>): (r: seq<Level>)
    requires |e| == |refs|
    ensures |r| == |refs|
  {
    seq(|refs|, i requires 0 <= i < |refs| => LevelOf(refs[i], TierFor(tiers, refs[i].kind), e[i]))
  }

  /** What the caller is told: each account's level, and its share of the tier's maximum in percent. */
  ghost predicate Tells(tiers: Tiers, refs: seq<Ref>, e: seq<real>, levels: seq<Level>) {
    && |levels| == |refs| == |e|
    && forall i | 0 <= i < |refs| ::
         && levels[i].ref == refs[i] && levels[i].score == e[i]
         && levels[i].percent * TierFor(tiers, refs[i].kind).max == 100.0 * e[i]
  }

  lemma LevelsTell(tiers: Tiers, refs: seq<Ref>, e: seq<real>)
    requires |e| == |refs| && forall r <- refs :: Enabled(TierFor(tiers, r.kind))
    ensures Tells(tiers, refs, e, LevelsOf(tiers, refs, e))
  {
    forall i | 0 <= i < |refs|
      ensures LevelsOf(tiers, refs, e)[i].percent * TierFor(tiers, refs[i].kind).max == 100.0 * e[i]
    {
      assert refs[i] in refs;
      Percent(e[i], TierFor(tiers, refs[i].kind).max);
    }
  }

  lemma Percent(e: real, max: real)
    requires max > 0.0
    ensures e / max * 100.0 * max == 100.0 * e
  {
    assert e / max * max == e;
  }

  // ---- the Redis commands ----

  type Db = map<string, Stored>

  function SetNX(db: Db, k: string, v: real, ttl: real, now: real): Db {
    if Alive(Get(db, k), now) then db else db[k := Stored(v, now + ttl)]
  }

  /** On an absent key the number starts from zero and never expires; the pipeline sets it first. */
  function IncrByFloat(db: Db, k: string, d: real, now: real): Db
    requires Alive(Get(db, k), now)
  {
    db[k := Stored(db[k].v + d, db[k].expires)]
  }

  function PExpire(db: Db, k: string, ttl: real, now: real): Db {
    if Alive(Get(db, k), now) then db[k := Stored(db[k].v, now + ttl)] else db
  }

  function SetKey(db: Db, k: string, s: Stored): Db {
    db[k := s]
  }

  function SetAll(db: Db, fixes: seq<(string, Stored)>): Db {
    if fixes == [] then db
    else
      var last := fixes[|fixes| - 1];
      SetKey(SetAll(db, fixes[..|fixes| - 1]), last.0, last.1)
  }

  lemma SetOneMore(db: Db, fixes: seq<(string, Stored)>, more: (string, Stored))
    ensures SetAll(db, fixes + [more]) == SetAll(db, fixes)[more.0 := more.1]
  {
    assert (fixes + [more])[..|fixes|] == fixes;
  }

  // ---- a pass over distinct accounts, seen account by account ----

  function KeyAt(profile: string, refs: seq<Ref>, i: nat): string
    requires i < |refs|
  {
    Key(Account(profile, refs[i]))
  }

  ghost predicate KeysDistinct(profile: string, refs: seq<Ref>) {
    forall i, j | 0 <= i < j < |refs| :: KeyAt(profile, refs, i) != KeyAt(profile, refs, j)
  }

  ghost predicate Untouched(profile: string, refs: seq<Ref>, n: nat, k: string)
    requires n <= |refs|
  {
    forall i | 0 <= i < n :: KeyAt(profile, refs, i) != k
  }

  lemma KeyHere(profile: string, refs: seq<Ref>, i: nat)
    requires i < |refs|
    ensures KeyAt(profile, refs, i) == Key(Account(profile, refs[i]))
  {
  }

  /** The next account's key has not been met. */
  lemma KeyIsNew(profile: string, refs: seq<Ref>, i: nat)
    requires KeysDistinct(profile, refs) && i < |refs|
    ensures Untouched(profile, refs, i, KeyAt(profile, refs, i))
    ensures forall k :: Untouched(profile, refs, i + 1, k) <==>
                        Untouched(profile, refs, i, k) && KeyAt(profile, refs, i) != k
    ensures forall j | 0 <= j < i :: KeyAt(profile, refs, j) != KeyAt(profile, refs, i)
  {
    hide KeyAt;
  }

  /** An access is the first pipeline's commands and the fix they call for. */
  lemma AccessInTwo(t: Tier, s: Option<Stored>, charge: Option<real>, now: real)
    requires Enabled(t)
    ensures var (after, raw) := Commands(t, s, charge, now);
            var (e, fix) := Fixed(t, raw, charge, now);
            RedisAccess(t, s, charge, now) ==
            (if fix.Some? then Some(Stored(fix.value, now + Lifetime(t))) else after, e)
  {
    hide Virtual, Lifetime, Commands, Fixed;
  }

  /** With the fixes met so far set, the accounts read so far are as one access each leaves them, and no
      other key has changed. */
  ghost predicate SetRight(db: Db, fixes: seq<(string, Stored)>, m0: Db, profile: string, tiers: Tiers,
                           sums: map<Ref, real>, refs: seq<Ref>, now: real, e: seq<real>)
    requires |e| <= |refs|
  {
    && (forall j | 0 <= j < |e| ::
          (Get(SetAll(db, fixes), KeyAt(profile, refs, j)), e[j]) ==
          RedisAccess(TierFor(tiers, refs[j].kind), Get(m0, KeyAt(profile, refs, j)), Get(sums, refs[j]), now))
    && (forall k | Untouched(profile, refs, |e|, k) :: Get(SetAll(db, fixes), k) == Get(db, k))
  }

  lemma NothingSetRight(db: Db, m0: Db, profile: string, tiers: Tiers, sums: map<Ref, real>, refs: seq<Ref>, now: real)
    ensures SetRight(db, [], m0, profile, tiers, sums, refs, now, [])
  {
  }

  lemma AllSetRight(db: Db, fixes: seq<(string, Stored)>, m0: Db, profile: string, tiers: Tiers,
                    sums: map<Ref, real>, refs: seq<Ref>, now: real, e: seq<real>)
    requires |e| == |refs| && SetRight(db, fixes, m0, profile, tiers, sums, refs, now, e)
    ensures forall i | 0 <= i < |refs| ::
              (Get(SetAll(db, fixes), KeyAt(profile, refs, i)), e[i]) ==
              RedisAccess(TierFor(tiers, refs[i].kind), Get(m0, KeyAt(profile, refs, i)), Get(sums, refs[i]), now)
    ensures forall k | Untouched(profile, refs, |refs|, k) :: Get(SetAll(db, fixes), k) == Get(db, k)
  {
  }

  lemma OneMoreSetRight(db: Db, fixes: seq<(string, Stored)>, m0: Db, profile: string, tiers: Tiers,
                        sums: map<Ref, real>, refs: seq<Ref>, now: real, e: seq<real>, raw: Option<real>,
                        more: seq<(string, Stored)>)
    requires KeysDistinct(profile, refs) && |e| < |refs| && SetRight(db, fixes, m0, profile, tiers, sums, refs, now, e)
    requires var i, tier := |e|, TierFor(tiers, refs[|e|].kind);
             var key := KeyAt(profile, refs, i);
             && Enabled(tier) && (Get(db, key), raw) == Commands(tier, Get(m0, key), Get(sums, refs[i]), now)
             && (var fix := Fixed(tier, raw, Get(sums, refs[i]), now).1;
                 more == if fix.Some? then [(key, Stored(fix.value, now + Lifetime(tier)))] else [])
    ensures var level := Fixed(TierFor(tiers, refs[|e|].kind), raw, Get(sums, refs[|e|]), now).0;
            SetRight(db, fixes + more, m0, profile, tiers, sums, refs, now, e + [level])
  {
    hide KeyAt, KeysDistinct, Untouched, Commands, Fixed, Lifetime, RedisAccess, SetAll;
    var i, tier := |e|, TierFor(tiers, refs[|e|].kind);
    var key := KeyAt(profile, refs, i);
    KeyIsNew(profile, refs, i);
    AccessInTwo(tier, Get(m0, key), Get(sums, refs[i]), now);
    if more != [] {
      SetOneMore(db, fixes, more[0]);
    } else {
      assert fixes + more == fixes;
    }
  }

  lemma DistinctKeys(profile: string, refs: seq<Ref>)
    requires NoRepeat(refs) && forall r <- refs :: Plain(r.kind)
    ensures KeysDistinct(profile, refs)
  {
    forall i, j | 0 <= i < j < |refs| ensures KeyAt(profile, refs, i) != KeyAt(profile, refs, j) {
      var a, b := refs[i], refs[j];
      var front := PREFIX + profile + ":";
      if KeyAt(profile, refs, i) == KeyAt(profile, refs, j) {
        assert KeyAt(profile, refs, i) == front + (a.kind + ":" + a.key);
        assert KeyAt(profile, refs, j) == front + (b.kind + ":" + b.key);
        assert a.kind + ":" + a.key == KeyAt(profile, refs, i)[|front|..] == b.kind + ":" + b.key;
        FirstColon(a.kind, a.key, b.kind, b.key);
      }
    }
  }

  /** A pass leaves every other account alone. */
  lemma {:induction false} PassLeaves<C>(access: Access<C>, tiers: Tiers, profile: string, m: map<string, C>,
                                         sums: map<Ref, real>, refs: seq<Ref>, now: real, k: string)
    requires Untouched(profile, refs, |refs|, k)
    ensures Get(Pass(Keys(), access, tiers, profile, m, sums, refs, now).0, k) == Get(m, k)
  {
    hide Key, TierFor;
    if refs != [] {
      var n := |refs| - 1;
      assert forall i | 0 <= i < n :: KeyAt(profile, refs[..n], i) == KeyAt(profile, refs, i);
      PassLeaves(access, tiers, profile, m, sums, refs[..n], now, k);
      assert KeyAt(profile, refs, n) != k;
    }
  }

  /** Over distinct accounts, each one's turn starts from what the pass began with and is not disturbed later. */
  lemma {:induction false} PassAt<C>(access: Access<C>, tiers: Tiers, profile: string, m: map<string, C>,
                                     sums: map<Ref, real>, refs: seq<Ref>, now: real, i: nat)
    requires KeysDistinct(profile, refs) && i < |refs|
    ensures var (r, e) := Pass(Keys(), access, tiers, profile, m, sums, refs, now);
            var k := KeyAt(profile, refs, i);
            access(TierFor(tiers, refs[i].kind), Get(m, k), Get(sums, refs[i]), now) == (Get(r, k), e[i])
  {
    hide Key, TierFor;
    var n := |refs| - 1;
    var front := refs[..n];
    assert forall j | 0 <= j < n :: KeyAt(profile, front, j) == KeyAt(profile, refs, j);
    if i == n {
      PassLeaves(access, tiers, profile, m, sums, front, now, KeyAt(profile, refs, n));
    } else {
      PassAt(access, tiers, profile, m, sums, front, now, i);
      assert KeyAt(profile, refs, i) != KeyAt(profile, refs, n);
    }
  }

  lemma PassByAccount<C>(access: Access<C>, tiers: Tiers, profile: string, m: map<string, C>,
                         sums: map<Ref, real>, refs: seq<Ref>, now: real)
    requires KeysDistinct(profile, refs)
    ensures var (r, e) := Pass(Keys(), access, tiers, profile, m, sums, refs, now);
            && (forall i | 0 <= i < |refs| ::
                  var k := KeyAt(profile, refs, i);
                  access(TierFor(tiers, refs[i].kind), Get(m, k), Get(sums, refs[i]), now) == (Get(r, k), e[i]))
            && (forall k | Untouched(profile, refs, |refs|, k) :: Get(r, k) == Get(m, k))
  {
    hide Key, TierFor, Pass, Untouched, KeysDistinct;
    forall i | 0 <= i < |refs| {
      PassAt(access, tiers, profile, m, sums, refs, now, i);
    }
    forall k | Untouched(profile, refs, |refs|, k) {
      PassLeaves(access, tiers, profile, m, sums, refs, now, k);
    }
  }

  /** One more account in a pass. */
  lemma PassStep<C>(access: Access<C>, tiers: Tiers, profile: string, m: map<string, C>,
                    sums: map<Ref, real>, refs: seq<Ref>, i: nat, now: real)
    requires i < |refs|
    ensures var (before, e) := Pass(Keys(), access, tiers, profile, m, sums, refs[..i], now);
            var k := KeyAt(profile, refs, i);
            var (c, level) := access(TierFor(tiers, refs[i].kind), Get(before, k), Get(sums, refs[i]), now);
            && Pass(Keys(), access, tiers, profile, m, sums, refs[..i + 1], now) == (Put(before, k, c), e + [level])
            && LevelsOf(tiers, refs[..i + 1], e + [level]) ==
               LevelsOf(tiers, refs[..i], e) + [LevelOf(refs[i], TierFor(tiers, refs[i].kind), level)]
  {
    assert refs[..i + 1][..i] == refs[..i];
  }

  class Store {
    const localMax: nat
    const hasClient: bool
    var ledger: map<string, real>
    var db: Db

    constructor (localMax: nat, hasClient: bool)
      ensures ledger == map[] && db == map[] && this.localMax == localMax && this.hasClient == hasClient
    {
      this.localMax, this.hasClient := localMax, hasClient;
      ledger, db := map[], map[];
    }

    /** Every access of the call in turn, then eviction of arbitrary entries down to half the
        maximum, only when there are too many. */
    method ApplyLocal(profile: string, tiers: Tiers, charges: seq<Charge>, refs: seq<Ref>, now: real)
      returns (levels: seq<Level>)
      modifies this`ledger
      ensures var (m, e) := Pass(Keys(), LedgerAccess, tiers, profile, old(ledger), Sums(charges), refs, now);
              && levels == LevelsOf(tiers, refs, e)
              && ledger.Keys <= m.Keys && (forall k <- ledger :: ledger[k] == m[k])
              && |ledger| <= localMax && (|m| <= localMax ==> ledger == m)
    {
      hide LevelsOf, LevelOf;
      var sums := SumUp(charges);
      ghost var m0 := ledger;
      levels := [];
      assert LevelsOf(tiers, refs[..0], []) == [];
      for i := 0 to |refs|
        invariant var (m, e) := Pass(Keys(), LedgerAccess, tiers, profile, m0, sums, refs[..i], now);
                  ledger == m && levels == LevelsOf(tiers, refs[..i], e)
      {
        PassStep(LedgerAccess, tiers, profile, m0, sums, refs, i, now);
        hide Pass;
        var tier := TierFor(tiers, refs[i].kind);
        var e := AccessLedger(Key(Account(profile, refs[i])), tier, Get(sums, refs[i]), now);
        levels := levels + [LevelOf(refs[i], tier, e)];
      }
      assert refs[..|refs|] == refs;
      if |ledger| > localMax {
        Evict();
      }
    }

    /** One account's turn in the ledger's loop. */
    method AccessLedger(key: string, tier: Tier, charge: Option<real>, now: real) returns (e: real)
      modifies this`ledger
      ensures var (c, level) := LedgerAccess(tier, Get(old(ledger), key), charge, now);
              e == level && ledger == Put(old(ledger), key, c)
    {
      hide Virtual;
      var leak := Virtual(tier, now);
      var had := key in ledger;
      e := 0.0;
      if had {
        e := Clamp(ledger[key] - leak, 0.0, tier.max);
      }
      if charge.Some? {
        e := Clamp(e + charge.value, 0.0, tier.max);
        ledger := ledger[key := e + leak];
      } else if had {
        if e <= 0.0 {
          ledger := ledger - {key};
        } else {
          assert ledger[key := ledger[key]] == ledger;
        }
      } else {
        assert ledger - {key} == ledger;
      }
    }

    /** The eviction loop: keys in no particular order. */
    method Evict()
      requires |ledger| > localMax
      modifies this`ledger
      ensures ledger.Keys <= old(ledger.Keys) && (forall k <- ledger :: ledger[k] == old(ledger)[k])
      ensures |ledger| <= localMax / 2
    {
      while |ledger| > 0
        invariant ledger.Keys <= old(ledger.Keys) && forall k <- ledger :: ledger[k] == old(ledger)[k]
        decreases |ledger|
      {
        var k :| k in ledger;
        assert (ledger - {k}).Keys == ledger.Keys - {k};
        ledger := ledger - {k};
        if |ledger| <= localMax / 2 { break; }
      }
    }

    /** One account's commands in the first pipeline. */
    method RunCommands(key: string, tier: Tier, charge: Option<real>, now: real) returns (raw: Option<real>)
      requires Enabled(tier)
      modifies this`db
      ensures (Get(db, key), raw) == Commands(tier, Get(old(db), key), charge, now)
      ensures forall k | k != key :: Get(db, k) == Get(old(db), k)
    {
      LifetimePositive(tier);
      hide Virtual, Lifetime;
      if charge.Some? {
        db := SetNX(db, key, Virtual(tier, now), Lifetime(tier), now);
        db := IncrByFloat(db, key, charge.value, now);
        raw := Some(db[key].v);
        db := PExpire(db, key, Lifetime(tier), now);
      } else {
        raw := if Alive(Get(db, key), now) then Some(db[key].v) else None;
      }
    }

    method FirstPipeline(profile: string, tiers: Tiers, sums: map<Ref, real>, refs: seq<Ref>, now: real)
      returns (stored: seq<Option<real>>)
      requires KeysDistinct(profile, refs) && forall r <- refs :: Enabled(TierFor(tiers, r.kind))
      modifies this`db
      ensures |stored| == |refs|
      ensures forall i | 0 <= i < |refs| ::
                (Get(db, KeyAt(profile, refs, i)), stored[i]) ==
                Commands(TierFor(tiers, refs[i].kind), Get(old(db), KeyAt(profile, refs, i)), Get(sums, refs[i]), now)
      ensures forall k | Untouched(profile, refs, |refs|, k) :: Get(db, k) == Get(old(db), k)
    {
      hide Rate, Lifetime, Commands, Key;
      stored := [];
      for i := 0 to |refs|
        invariant |stored| == i
        invariant forall j | 0 <= j < i ::
                    (Get(db, KeyAt(profile, refs, j)), stored[j]) ==
                    Commands(TierFor(tiers, refs[j].kind), Get(old(db), KeyAt(profile, refs, j)),
                             Get(sums, refs[j]), now)
        invariant forall k | Untouched(profile, refs, i, k) :: Get(db, k) == Get(old(db), k)
      {
        ghost var key := KeyAt(profile, refs, i);
        assert Untouched(profile, refs, i, key);
        assert refs[i] in refs;
        var raw := RunCommands(Key(Account(profile, refs[i])), TierFor(tiers, refs[i].kind), Get(sums, refs[i]), now);
        stored := stored + [raw];
        forall k | Untouched(profile, refs, i + 1, k) ensures Get(db, k) == Get(old(db), k) {
          assert KeyAt(profile, refs, i) != k;
          assert Untouched(profile, refs, i, k);
        }
      }
    }

    /** What the answers mean, and the numbers to set right, in the order met. */
    method ReadLevels(profile: string, tiers: Tiers, sums: map<Ref, real>, refs: seq<Ref>,
                      stored: seq<Option<real>>, ghost m0: Db, now: real)
      returns (levels: seq<Level>, fixes: seq<(string, Stored)>, ghost e: seq<real>)
      requires KeysDistinct(profile, refs) && |stored| == |refs|
      requires forall r <- refs :: Enabled(TierFor(tiers, r.kind))
      requires forall i | 0 <= i < |refs| ::
                 (Get(db, KeyAt(profile, refs, i)), stored[i]) ==
                 Commands(TierFor(tiers, refs[i].kind), Get(m0, KeyAt(profile, refs, i)), Get(sums, refs[i]), now)
      ensures |e| == |refs| && levels == LevelsOf(tiers, refs, e)
      ensures forall i | 0 <= i < |refs| ::
                (Get(SetAll(db, fixes), KeyAt(profile, refs, i)), e[i]) ==
                RedisAccess(TierFor(tiers, refs[i].kind), Get(m0, KeyAt(profile, refs, i)), Get(sums, refs[i]), now)
      ensures forall k | Untouched(profile, refs, |refs|, k) :: Get(SetAll(db, fixes), k) == Get(db, k)
    {
      hide Virtual, Lifetime, Commands, Fixed, Key, KeyAt, KeysDistinct, LevelOf, RedisAccess, SetAll, SetRight,
        Untouched;
      levels, fixes, e := [], [], [];
      NothingSetRight(db, m0, profile, tiers, sums, refs, now);
      for i := 0 to |refs|
        invariant |e| == i == |levels|
        invariant forall j | 0 <= j < i :: levels[j] == LevelOf(refs[j], TierFor(tiers, refs[j].kind), e[j])
        invariant SetRight(db, fixes, m0, profile, tiers, sums, refs, now, e)
      {
        assert refs[i] in refs;
        var tier := TierFor(tiers, refs[i].kind);
        var (level, fix) := Fixed(tier, stored[i], Get(sums, refs[i]), now);
        KeyHere(profile, refs, i);
        var more := [];
        if fix.Some? {
          more := [(Key(Account(profile, refs[i])), Stored(fix.value, now + Lifetime(tier)))];
        }
        OneMoreSetRight(db, fixes, m0, profile, tiers, sums, refs, now, e, stored[i], more);
        fixes := fixes + more;
        levels := levels + [LevelOf(refs[i], tier, level)];
        e := e + [level];
      }
      AllSetRight(db, fixes, m0, profile, tiers, sums, refs, now, e);
    }

    /** Two pipelines: one command group per account, then the numbers that must be set right. */
    method ApplyRedis(profile: string, tiers: Tiers, charges: seq<Charge>, refs: seq<Ref>, now: real)
      returns (levels: seq<Level>)
      requires InOrder(refs) && forall r <- refs :: Plain(r.kind) && Enabled(TierFor(tiers, r.kind))
      modifies this`db
      ensures var (m, e) := Pass(Keys(), RedisAccess, tiers, profile, old(db), Sums(charges), refs, now);
              db == m && levels == LevelsOf(tiers, refs, e)
    {
      hide Virtual, Lifetime, Commands, Fixed, Key, LevelOf, Pass, RedisAccess, SetAll;
      var sums := SumUp(charges);
      InOrderNoRepeat(refs);
      DistinctKeys(profile, refs);
      ghost var m0 := db;
      var stored := FirstPipeline(profile, tiers, sums, refs, now);
      var fixes;
      ghost var e;
      levels, fixes, e := ReadLevels(profile, tiers, sums, refs, stored, m0, now);
      SecondPipeline(fixes);
      PassByAccount(RedisAccess, tiers, profile, m0, sums, refs, now);
      ghost var (m, e') := Pass(Keys(), RedisAccess, tiers, profile, m0, sums, refs, now);
      assert e == e';
      forall k ensures Get(db, k) == Get(m, k) {
        if j :| 0 <= j < |refs| && KeyAt(profile, refs, j) == k {
        } else {
          assert Untouched(profile, refs, |refs|, k);
        }
      }
      SameEntries(db, m);
    }

    method SecondPipeline(fixes: seq<(string, Stored)>)
      modifies this`db
      ensures db == SetAll(old(db), fixes)
    {
      for i := 0 to |fixes|
        invariant db == SetAll(old(db), fixes[..i])
      {
        assert fixes[..i + 1][..i] == fixes[..i];
        db := SetKey(db, fixes[i].0, fixes[i].1);
      }
      assert fixes[..|fixes|] == fixes;
    }

    /** A call: charges that are live, the accounts they and the reads name, then the store. */
    method Apply(profile: string, tiers: Tiers, charges: seq<Charge>, asked: seq<Ref>, now: real)
      returns (levels: seq<Level>, ghost refs: seq<Ref>)
      requires forall k <- tiers :: Plain(k)
      modifies this`ledger, this`db
      ensures Touched(tiers, charges, asked, refs)
      ensures hasClient ==>
                var sums := LiveSums(tiers, charges);
                var (m, e) := Pass(Keys(), RedisAccess, tiers, profile, old(db), sums, refs, now);
                db == m && ledger == old(ledger) && Tells(tiers, refs, e, levels)
      ensures !hasClient ==>
                var sums := LiveSums(tiers, charges);
                var (m, e) := Pass(Keys(), LedgerAccess, tiers, profile, old(ledger), sums, refs, now);
                && db == old(db) && Tells(tiers, refs, e, levels)
                && ledger.Keys <= m.Keys && (forall k <- ledger :: ledger[k] == m[k])
                && (|old(ledger)| <= localMax ==> |ledger| <= localMax) && (|m| <= localMax ==> ledger == m)
    {
      hide Pass, LevelsOf, Tells;
      var live := [];
      for i := 0 to |charges|
        invariant live == Filter(charges[..i], Liveness(tiers))
      {
        assert charges[..i + 1][..i] == charges[..i];
        if Enabled(TierFor(tiers, charges[i].ref.kind)) && charges[i].add != 0.0 {
          live := live + [charges[i]];
        }
      }
      assert charges[..|charges|] == charges;
      var touched := RefUnion(live, asked, tiers);
      refs := touched;
      TouchedByUnion(tiers, charges, asked, refs);
      if |touched| == 0 {
        PassNothing(LedgerAccess, tiers, profile, ledger, Sums(live), now);
        PassNothing(RedisAccess, tiers, profile, db, Sums(live), now);
        NoLevels(tiers);
        LevelsTell(tiers, [], []);
        levels := [];
        return;
      }
      TouchedEnabled(tiers, charges, asked, refs);
      if !hasClient {
        LevelsTell(tiers, refs, Pass(Keys(), LedgerAccess, tiers, profile, ledger, Sums(live), refs, now).1);
        levels := ApplyLocal(profile, tiers, live, touched, now);
      } else {
        LevelsTell(tiers, refs, Pass(Keys(), RedisAccess, tiers, profile, db, Sums(live), refs, now).1);
        forall r <- refs ensures Plain(r.kind) && Enabled(TierFor(tiers, r.kind)) {
          assert r.kind in tiers;
        }
        levels := ApplyRedis(profile, tiers, live, touched, now);
      }
    }

    /** One call of a run. */
    method ServeOne(cfg: Profiles, u: Use, ghost calls: seq<Call>, ghost e: seq<seq<real>>,
                    ghost evicted: seq<set<string>>)
      returns (out: seq<Level>, ghost c: Call, ghost more: seq<real>, ghost gone: set<string>)
      requires PlainNames(cfg) && u.profile in cfg
      requires StandsAt(hasClient, db, ledger, cfg, calls, e, evicted)
      modifies this`ledger, this`db
      ensures StandsAt(hasClient, db, ledger, cfg, calls + [c], e + [more], evicted + [gone])
      ensures GoodCall(cfg, c) && Reported(cfg, u, c, more, out)
    {
      hide Pass, Touched, LiveSums, Charged, Tells, StandsAt, PlainNames;
      var tiers := cfg[u.profile];
      PlainKinds(cfg, u.profile);
      ghost var db0, ledger0 := db, ledger;
      ghost var refs;
      out, refs := Apply(u.profile, tiers, u.charges, u.asked, u.now);
      c := Call(u.profile, LiveSums(tiers, u.charges), refs, u.now);
      TouchedEnabled(tiers, u.charges, u.asked, refs);
      LiveSumsCharge(tiers, u.charges);
      if hasClient {
        more, gone := Pass(Keys(), RedisAccess, tiers, u.profile, db0, c.sums, refs, u.now).1, {};
        RedisStands(db0, ledger0, cfg, calls, e, evicted, c);
      } else {
        ghost var (m, levels) := Pass(Keys(), LedgerAccess, tiers, u.profile, ledger0, c.sums, refs, u.now);
        more, gone := levels, m.Keys - ledger.Keys;
        LedgerStands(db0, ledger0, cfg, calls, e, evicted, c, ledger);
      }
    }

    /** Calls one after another, against a store that starts empty. What each call comes to is the plain leaky
        buckets' levels: exactly with Redis, and exactly in memory as long as nothing is evicted; where
        something is, the levels in memory are no higher. */
    method Serve(cfg: Profiles, uses: seq<Use>)
      returns (levels: seq<seq<Level>>, ghost calls: seq<Call>, ghost e: seq<seq<real>>,
               ghost evicted: seq<set<string>>)
      requires ledger == map[] && db == map[] && PlainNames(cfg) && GoodUses(cfg, uses)
      modifies this`ledger, this`db
      ensures GoodCalls(cfg, calls) && Reports(cfg, uses, calls, e, levels) && |evicted| == |calls|
      ensures var plain := Run(Accounts(), PlainAccess, cfg, calls, NoEviction(|calls|)).1;
              forall i | 0 <= i < |calls| ::
                && |levels[i]| == |plain[i]| == |calls[i].refs|
                && forall j | 0 <= j < |plain[i]| ::
                     && levels[i][j].ref == calls[i].refs[j] && levels[i][j].score <= plain[i][j]
                     && (hasClient || evicted == NoEviction(|calls|) ==> levels[i][j].score == plain[i][j])
                     && levels[i][j].percent * TierFor(cfg[calls[i].profile], calls[i].refs[j].kind).max ==
                        100.0 * levels[i][j].score
    {
      hide StandsAt, Reports, Reported, GoodCalls, GoodCall, PlainNames, Run;
      levels, calls, e, evicted := [], [], [], [];
      NothingStands(hasClient, cfg);
      NothingReported(cfg);
      for i := 0 to |uses|
        invariant StandsAt(hasClient, db, ledger, cfg, calls, e, evicted)
        invariant GoodCalls(cfg, calls) && Reports(cfg, uses[..i], calls, e, levels)
      {
        var out;
        ghost var c, more, gone;
        out, c, more, gone := ServeOne(cfg, uses[i], calls, e, evicted);
        OneMoreReported(cfg, uses, i, calls, e, levels, c, more, out);
        levels, calls, e, evicted := levels + [out], calls + [c], e + [more], evicted + [gone];
      }
      assert uses[..|uses|] == uses;
      LevelsBounded(hasClient, db, ledger, cfg, calls, e, evicted);
      ScoresTold(cfg, uses, calls, e, levels);
    }
  }

  /** A call as its caller makes it. */
  datatype Use = Use(profile: string, charges: seq<Charge>, asked: seq<Ref>, now: real)

  /** Known profiles, in time order. */
  ghost predicate GoodUses(cfg: Profiles, uses: seq<Use>) {
    && (forall i | 0 <= i < |uses| :: uses[i].profile in cfg)
    && (forall i, j | 0 <= i < j < |uses| :: uses[i].now <= uses[j].now)
  }

  /** The charges that count: to tiers that are on, and not of nothing. */
  function LiveSums(tiers: Tiers, charges: seq<Charge>): map<Ref, real> {
    Sums(Filter(charges, Liveness(tiers)))
  }

  /** The use touched the accounts of the call, with its charges summed, and was answered with their
      levels, in order. */
  ghost predicate Reported(cfg: Profiles, u: Use, c: Call, e: seq<real>, levels: seq<Level>) {
    && u.profile in cfg && |e| == |c.refs|
    && c.profile == u.profile && c.now == u.now && Charged(cfg[u.profile], u.charges, c.sums)
    && Touched(cfg[u.profile], u.charges, u.asked, c.refs)
    && Tells(cfg[u.profile], c.refs, e, levels)
  }

  ghost predicate Reports(cfg: Profiles, uses: seq<Use>, calls: seq<Call>, e: seq<seq<real>>,
                          levels: seq<seq<Level>>) {
    && |uses| == |calls| == |e| == |levels|
    && forall i | 0 <= i < |uses| :: Reported(cfg, uses[i], calls[i], e[i], levels[i])
  }

  lemma NothingReported(cfg: Profiles)
    ensures Reports(cfg, [], [], [], []) && GoodCalls(cfg, [])
  {
  }

  lemma OneMoreReported(cfg: Profiles, uses: seq<Use>, i: nat, calls: seq<Call>, e: seq<seq<real>>,
                        levels: seq<seq<Level>>, c: Call, more: seq<real>, out: seq<Level>)
    requires i < |uses| && GoodUses(cfg, uses)
    requires Reports(cfg, uses[..i], calls, e, levels) && Reported(cfg, uses[i], c, more, out)
    requires GoodCalls(cfg, calls) && GoodCall(cfg, c)
    ensures Reports(cfg, uses[..i + 1], calls + [c], e + [more], levels + [out])
    ensures GoodCalls(cfg, calls + [c])
  {
    hide Touched, Tells, Charged, GoodCall;
    forall j | 0 <= j < i ensures calls[j].now <= c.now {
      assert Reported(cfg, uses[..i][j], calls[j], e[j], levels[j]);
      assert uses[..i][j] == uses[j];
    }
  }

  /** Where a run of calls has brought the store in use. */
  ghost predicate StandsAt(hasClient: bool, db: Db, ledger: map<string, real>, cfg: Profiles, calls: seq<Call>,
                           e: seq<seq<real>>, evicted: seq<set<string>>) {
    && |evicted| == |calls| && (forall i | 0 <= i < |calls| :: calls[i].profile in cfg)
    && (hasClient ==> evicted == NoEviction(|calls|) && (db, e) == Run(Keys(), RedisAccess, cfg, calls, evicted))
    && (!hasClient ==> (ledger, e) == Run(Keys(), LedgerAccess, cfg, calls, evicted))
  }

  lemma NothingStands(hasClient: bool, cfg: Profiles)
    ensures StandsAt(hasClient, map[], map[], cfg, [], [], [])
  {
    NothingRun(Keys(), RedisAccess, cfg);
    NothingRun(Keys(), LedgerAccess, cfg);
  }

  lemma PlainKinds(cfg: Profiles, profile: string)
    requires PlainNames(cfg) && profile in cfg
    ensures forall k <- cfg[profile] :: Plain(k)
  {
  }

  lemma RedisStands(db: Db, ledger: map<string, real>, cfg: Profiles, calls: seq<Call>, e: seq<seq<real>>,
                    evicted: seq<set<string>>, c: Call)
    requires c.profile in cfg && StandsAt(true, db, ledger, cfg, calls, e, evicted)
    ensures var (m, more) := Pass(Keys(), RedisAccess, cfg[c.profile], c.profile, db, c.sums, c.refs, c.now);
            StandsAt(true, m, ledger, cfg, calls + [c], e + [more], evicted + [{}])
  {
    hide Pass, Run;
    OneMoreCall(Keys(), RedisAccess, cfg, calls, evicted, c, {});
    var m := Pass(Keys(), RedisAccess, cfg[c.profile], c.profile, db, c.sums, c.refs, c.now).0;
    assert m - {} == m;
  }

  /** Whatever the ledger has given up of what the call left in it. */
  lemma LedgerStands(db: Db, ledger: map<string, real>, cfg: Profiles, calls: seq<Call>, e: seq<seq<real>>,
                     evicted: seq<set<string>>, c: Call, left: map<string, real>)
    requires c.profile in cfg && StandsAt(false, db, ledger, cfg, calls, e, evicted)
    requires var m := Pass(Keys(), LedgerAccess, cfg[c.profile], c.profile, ledger, c.sums, c.refs, c.now).0;
             left.Keys <= m.Keys && forall k <- left :: left[k] == m[k]
    ensures var (m, more) := Pass(Keys(), LedgerAccess, cfg[c.profile], c.profile, ledger, c.sums, c.refs, c.now);
            StandsAt(false, db, left, cfg, calls + [c], e + [more], evicted + [m.Keys - left.Keys])
  {
    hide Pass, Run;
    var m := Pass(Keys(), LedgerAccess, cfg[c.profile], c.profile, ledger, c.sums, c.refs, c.now).0;
    OneMoreCall(Keys(), LedgerAccess, cfg, calls, evicted, c, m.Keys - left.Keys);
    assert m - (m.Keys - left.Keys) == left;
  }

  lemma NothingRun<K, C>(name: Account -> K, access: Access<C>, cfg: Profiles)
    ensures Run(name, access, cfg, [], []) == (map[], [])
  {
  }

  lemma OneMoreCall<K, C>(name: Account -> K, access: Access<C>, cfg: Profiles, calls: seq<Call>,
                          evicted: seq<set<K>>, c: Call, gone: set<K>)
    requires |evicted| == |calls| && c.profile in cfg && forall i | 0 <= i < |calls| :: calls[i].profile in cfg
    ensures var (m, e) := Run(name, access, cfg, calls, evicted);
            var (m', more) := Pass(name, access, cfg[c.profile], c.profile, m, c.sums, c.refs, c.now);
            Run(name, access, cfg, calls + [c], evicted + [gone]) == (m' - gone, e + [more])
  {
    hide Pass;
    assert (calls + [c])[..|calls|] == calls && (evicted + [gone])[..|evicted|] == evicted;
  }

  lemma TouchedEnabled(tiers: Tiers, charges: seq<Charge>, asked: seq<Ref>, refs: seq<Ref>)
    requires Touched(tiers, charges, asked, refs)
    ensures forall r <- refs :: Enabled(TierFor(tiers, r.kind))
  {
  }

  /** What was told of every call, account by account. */
  lemma ScoresTold(cfg: Profiles, uses: seq<Use>, calls: seq<Call>, e: seq<seq<real>>, levels: seq<seq<Level>>)
    requires GoodCalls(cfg, calls) && Reports(cfg, uses, calls, e, levels)
    ensures |levels| == |e| == |calls|
    ensures forall i | 0 <= i < |calls| ::
              && |levels[i]| == |e[i]| == |calls[i].refs|
              && forall j | 0 <= j < |e[i]| ::
                   && levels[i][j].ref == calls[i].refs[j] && levels[i][j].score == e[i][j]
                   && levels[i][j].percent * TierFor(cfg[calls[i].profile], calls[i].refs[j].kind).max ==
                      100.0 * levels[i][j].score
  {
    hide Touched, Charged, TierFor;
    forall i | 0 <= i < |calls| ensures Reported(cfg, uses[i], calls[i], e[i], levels[i]) {
    }
  }

  lemma LevelsBounded(hasClient: bool, db: Db, ledger: map<string, real>, cfg: Profiles, calls: seq<Call>,
                      e: seq<seq<real>>, evicted: seq<set<string>>)
    requires PlainNames(cfg) && GoodCalls(cfg, calls) && StandsAt(hasClient, db, ledger, cfg, calls, e, evicted)
    ensures var plain := Run(Accounts(), PlainAccess, cfg, calls, NoEviction(|calls|)).1;
            && |evicted| == |calls| == |e| && (hasClient || evicted == NoEviction(|calls|) ==> e == plain)
            && forall i | 0 <= i < |calls| ::
                 |e[i]| == |plain[i]| && forall j | 0 <= j < |e[i]| :: e[i][j] <= plain[i][j]
  {
    hide Run, PlainNames;
    StoresAgree(cfg, calls);
    LedgerNeverOver(cfg, calls, evicted);
  }

  /** The accounts a call touches, in order: those with a key and a tier that is on which it asks about, or
      charges with something. */
  ghost predicate Touched(tiers: Tiers, charges: seq<Charge>, asked: seq<Ref>, refs: seq<Ref>) {
    && InOrder(refs)
    && forall r :: r in refs <==>
         && r.kind in tiers && tiers[r.kind].max > 0.0 && tiers[r.kind].loss > 0.0 && r.key != ""
         && (r in asked || exists i :: 0 <= i < |charges| && charges[i].ref == r && charges[i].add != 0.0)
  }

  lemma TouchedByUnion(tiers: Tiers, charges: seq<Charge>, asked: seq<Ref>, refs: seq<Ref>)
    requires InOrder(refs)
    requires var live := Filter(charges, Liveness(tiers));
             forall r :: r in refs <==> Wanted(tiers, r) && (r in asked || exists c :: c in live && c.ref == r)
    ensures Touched(tiers, charges, asked, refs)
  {
    hide Filter;
    FilterMembers(charges, Liveness(tiers));
    forall r | Wanted(tiers, r)
      ensures (exists c :: c in Filter(charges, Liveness(tiers)) && c.ref == r) <==>
              exists i :: 0 <= i < |charges| && charges[i].ref == r && charges[i].add != 0.0
    {
      if i :| 0 <= i < |charges| && charges[i].ref == r && charges[i].add != 0.0 {
        assert charges[i] in Filter(charges, Liveness(tiers));
      }
    }
  }

  /** The sums of a call: one for each account of a tier that is on which it charges with something, the
      total of all its charges to that account. */
  ghost predicate Charged(tiers: Tiers, charges: seq<Charge>, sums: map<Ref, real>) {
    && (forall r :: r in sums <==>
          && r.kind in tiers && tiers[r.kind].max > 0.0 && tiers[r.kind].loss > 0.0
          && exists i :: 0 <= i < |charges| && charges[i].ref == r && charges[i].add != 0.0)
    && (forall r | r in sums :: sums[r] == Added(charges, r))
  }

  lemma {:induction false} AddedByLive(tiers: Tiers, charges: seq<Charge>, r: Ref)
    requires Enabled(TierFor(tiers, r.kind))
    ensures Added(Filter(charges, Liveness(tiers)), r) == Added(charges, r)
  {
    if charges != [] {
      var (front, last) := (charges[..|charges| - 1], charges[|charges| - 1]);
      AddedByLive(tiers, front, r);
      var live := Filter(front, Liveness(tiers));
      assert (live + [last])[..|live|] == live;
      assert live + [] == live;
    }
  }

  lemma LiveSumsCharge(tiers: Tiers, charges: seq<Charge>)
    ensures Charged(tiers, charges, LiveSums(tiers, charges))
  {
    hide Filter, Sums, Added;
    var live := Filter(charges, Liveness(tiers));
    FilterMembers(charges, Liveness(tiers));
    forall r
      ensures r in Sums(live) <==>
              && r.kind in tiers && tiers[r.kind].max > 0.0 && tiers[r.kind].loss > 0.0
              && exists i :: 0 <= i < |charges| && charges[i].ref == r && charges[i].add != 0.0
      ensures r in Sums(live) ==> Sums(live)[r] == Added(charges, r)
    {
      SumsAreTotals(live, r);
      if r in Sums(live) {
        var i :| 0 <= i < |live| && live[i].ref == r;
        assert live[i] in charges && Lives(tiers, live[i]);
        AddedByLive(tiers, charges, r);
      }
      if i :| 0 <= i < |charges| && charges[i].ref == r && charges[i].add != 0.0 && Enabled(TierFor(tiers, r.kind)) {
        assert charges[i] in live;
      }
    }
  }

  lemma PassNothing<C>(access: Access<C>, tiers: Tiers, profile: string, m: map<string, C>,
                       sums: map<Ref, real>, now: real)
    ensures Pass(Keys(), access, tiers, profile, m, sums, [], now) == (m, [])
  {
  }

  lemma NoLevels(tiers: Tiers)
    ensures LevelsOf(tiers, [], []) == []
  {
  }

  lemma SameEntries<K, C>(a: map<K, C>, b: map<K, C>)
    requires forall k :: Get(a, k) == Get(b, k)
    ensures a == b
  {
    assert forall k :: k in a <==> Get(a, k).Some?;
    assert forall k :: k in b <==> Get(b, k).Some?;
    forall k | k in a ensures a[k] == b[k] {
      assert Get(a, k) == Get(b, k);
    }
  }

  lemma LifetimePositive(t: Tier)
    requires Enabled(t)
    ensures Lifetime(t) > 0.0
  {
  }
}
