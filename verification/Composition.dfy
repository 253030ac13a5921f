/** One dataset's members, its per-length prefix index and its incremental hash
    (`composition` in internal/livelist/livelist.go). */
module Composition {
  import opened Bytes
  import opened Net
  import opened Wafs

  /** SipHash under a key; nothing is assumed about it. */
  type Sip = (bytes, bytes) -> bv64

  datatype Record = Record(exp: i64, reason: bytes)

  /** What a set holds: string members, or prefixes with their expiries. */
  datatype Members = Members(entries: map<bytes, Record>, nets: map<Prefix, i64>)

  const NO_MEMBERS := Members(map[], map[])

  predicate Alive(exp: i64, now: i64) {
    exp == 0 || exp > now
  }

  function PrefixMaterial(p: Prefix): bytes {
    [FamilyByte(p.fam), p.bits % 256] + ToBig(p.ip, ByteLen(p.fam))
  }

  // ---- records as a fold ----

  /** Adding overwrites expiry and reason; any other op removes; both are idempotent. */
  function Applied(c: Members, r: Rec): Members {
    match r
    case NetRec(op, p, exp) =>
      c.(nets := if op == REC_ADD then c.nets[p := exp] else c.nets - {p})
    case TextRec(op, value, exp, reason) =>
      c.(entries := if op == REC_ADD then c.entries[value := Record(exp, reason)] else c.entries - {value})
  }

  function AppliedAll(c: Members, recs: seq<Rec>): Members {
    if recs == [] then c else Applied(AppliedAll(c, recs[..|recs| - 1]), recs[|recs| - 1])
  }

  predicate GoodMembers(c: Members) {
    forall p <- c.nets :: InRange(p)
  }

  // ---- the last record about a member decides ----

  ghost predicate LastAbout(recs: seq<Rec>, i: nat, about: Rec -> bool) {
    i < |recs| && about(recs[i]) && forall j | i < j < |recs| :: !about(recs[j])
  }

  function OfValue(value: bytes): Rec -> bool {
    (r: Rec) => r.TextRec? && r.value == value
  }

  function OfPrefix(p: Prefix): Rec -> bool {
    (r: Rec) => r.NetRec? && r.prefix == p
  }

  lemma AboutOneMore(recs: seq<Rec>, i: nat, about: Rec -> bool)
    requires recs != [] && i < |recs| - 1
    ensures LastAbout(recs, i, about) <==> LastAbout(recs[..|recs| - 1], i, about) && !about(recs[|recs| - 1])
  {
    assert forall j | 0 <= j < |recs| - 1 :: recs[..|recs| - 1][j] == recs[j];
    assert LastAbout(recs, i, about) ==> !about(recs[|recs| - 1]);
  }

  /** A string is in the set if the last record about it adds it, with what that record says of it, and not if it
      removes it; one no record is about is as it was. */
  lemma {:induction false} LastRecordOfValue(c: Members, recs: seq<Rec>, value: bytes)
    ensures var d := AppliedAll(c, recs).entries;
            && (forall i: nat | LastAbout(recs, i, OfValue(value)) ::
                  var r := recs[i];
                  if r.op == 1 then value in d && d[value] == Record(r.exp, r.reason) else value !in d)
            && ((forall i | 0 <= i < |recs| :: !OfValue(value)(recs[i])) ==> Get(d, value) == Get(c.entries, value))
  {
    hide LastAbout, Applied;
    if recs == [] {
      NoneAbout(OfValue(value));
    } else {
      var n := |recs| - 1;
      LastRecordOfValue(c, recs[..n], value);
      ValueApplied(AppliedAll(c, recs[..n]), recs[n], value);
      LastOfMore(recs, OfValue(value));
    }
  }

  lemma NoneAbout(about: Rec -> bool)
    ensures forall i: nat :: !LastAbout([], i, about)
  {
  }

  lemma LastOfMore(recs: seq<Rec>, about: Rec -> bool)
    requires recs != []
    ensures var n := |recs| - 1;
            forall i: nat :: LastAbout(recs, i, about) <==>
              if about(recs[n]) then i == n else i < n && LastAbout(recs[..n], i, about)
  {
    var n := |recs| - 1;
    forall i: nat
      ensures LastAbout(recs, i, about) <==>
              if about(recs[n]) then i == n else i < n && LastAbout(recs[..n], i, about)
    {
      if i < n {
        AboutOneMore(recs, i, about);
      }
    }
  }

  lemma ValueApplied(c: Members, r: Rec, value: bytes)
    ensures var d := Applied(c, r).entries;
            if !OfValue(value)(r) then Get(d, value) == Get(c.entries, value)
            else if r.op == 1 then value in d && d[value] == Record(r.exp, r.reason)
            else value !in d
  {
  }

  lemma PrefixApplied(c: Members, r: Rec, p: Prefix)
    ensures var d := Applied(c, r).nets;
            if !OfPrefix(p)(r) then Get(d, p) == Get(c.nets, p)
            else if r.op == 1 then p in d && d[p] == r.exp
            else p !in d
  {
  }

  /** So is a prefix. */
  lemma {:induction false} LastRecordOfPrefix(c: Members, recs: seq<Rec>, p: Prefix)
    ensures var d := AppliedAll(c, recs).nets;
            && (forall i: nat | LastAbout(recs, i, OfPrefix(p)) ::
                  var r := recs[i]; if r.op == 1 then p in d && d[p] == r.exp else p !in d)
            && ((forall i | 0 <= i < |recs| :: !OfPrefix(p)(recs[i])) ==> Get(d, p) == Get(c.nets, p))
  {
    hide LastAbout, Applied;
    if recs == [] {
      NoneAbout(OfPrefix(p));
    } else {
      var n := |recs| - 1;
      LastRecordOfPrefix(c, recs[..n], p);
      PrefixApplied(AppliedAll(c, recs[..n]), recs[n], p);
      LastOfMore(recs, OfPrefix(p));
    }
  }

  // ---- the hash of a set ----

  function Xor(a: bv64, b: bv64): bv64 {
    a ^ b
  }

  lemma XorSwap(a: bv64, b: bv64, c: bv64)
    ensures Xor(a, Xor(b, c)) == Xor(b, Xor(a, c))
  {
  }

  lemma XorGroup(a: bv64, b: bv64, c: bv64)
    ensures Xor(Xor(a, b), c) == Xor(a, Xor(b, c))
  {
  }

  lemma XorTwice(a: bv64, b: bv64)
    ensures Xor(a, b) == Xor(b, a) && Xor(Xor(a, b), a) == b && Xor(a, Xor(a, b)) == b
  {
  }

  ghost function XorOver<T>(f: T -> bv64, s: set<T>): bv64 {
    if s == {} then 0
    else
      var x :| x in s;
      Xor(f(x), XorOver(f, s - {x}))
  }

  lemma {:induction false} XorTake<T>(f: T -> bv64, s: set<T>, x: T)
    requires x in s
    ensures XorOver(f, s) == Xor(f(x), XorOver(f, s - {x}))
    decreases s
  {
    hide Xor;
    var y :| y in s && XorOver(f, s) == Xor(f(y), XorOver(f, s - {y}));
    if y != x {
      XorTake(f, s - {y}, x);
      XorTake(f, s - {x}, y);
      assert s - {y} - {x} == s - {x} - {y};
      XorSwap(f(x), f(y), XorOver(f, s - {x} - {y}));
    }
  }

  /** Taking a member in or out of a set toggles its hash in the set's. */
  lemma XorToggle<T>(f: T -> bv64, s: set<T>, x: T)
    ensures XorOver(f, if x in s then s - {x} else s + {x}) == Xor(XorOver(f, s), f(x))
  {
    hide Xor;
    var out := s - {x};
    XorTake(f, out + {x}, x);
    assert out + {x} - {x} == out;
    XorTwice(f(x), XorOver(f, out));
    if x in s {
      assert out + {x} == s;
    } else {
      assert out == s;
    }
  }

  function ValueHash(sip: Sip, key: bytes): bytes -> bv64 {
    value => sip(key, value)
  }

  function PrefixHash(sip: Sip, key: bytes): Prefix -> bv64 {
    p => sip(key, PrefixMaterial(p))
  }

  /** The XOR of the members' hashes: expiries and reasons do not enter it. */
  ghost function HashOf(sip: Sip, key: bytes, c: Members): bv64 {
    Xor(XorOver(ValueHash(sip, key), c.entries.Keys), XorOver(PrefixHash(sip, key), c.nets.Keys))
  }

  /** The hash of one record's member. */
  function MemberHash(sip: Sip, key: bytes, r: Rec): bv64 {
    if r.NetRec? then sip(key, PrefixMaterial(r.prefix)) else sip(key, r.value)
  }

  predicate Has(c: Members, r: Rec) {
    if r.NetRec? then r.prefix in c.nets else r.value in c.entries
  }

  /** A record moves the hash exactly when it changes membership. */
  lemma HashAfterApply(sip: Sip, key: bytes, c: Members, r: Rec)
    ensures HashOf(sip, key, Applied(c, r)) ==
            if (r.op == REC_ADD) == Has(c, r) then HashOf(sip, key, c)
            else Xor(HashOf(sip, key, c), MemberHash(sip, key, r))
  {
    hide Xor, XorOver;
    var d := Applied(c, r);
    var texts, nets := XorOver(ValueHash(sip, key), c.entries.Keys), XorOver(PrefixHash(sip, key), c.nets.Keys);
    if (r.op == REC_ADD) == Has(c, r) {
      assert d.entries.Keys == c.entries.Keys && d.nets.Keys == c.nets.Keys;
    } else if r.NetRec? {
      XorToggle(PrefixHash(sip, key), c.nets.Keys, r.prefix);
      assert d.nets.Keys == if r.prefix in c.nets then c.nets.Keys - {r.prefix} else c.nets.Keys + {r.prefix};
      XorOuter(texts, nets, MemberHash(sip, key, r));
    } else {
      XorToggle(ValueHash(sip, key), c.entries.Keys, r.value);
      assert d.entries.Keys == if r.value in c.entries then c.entries.Keys - {r.value} else c.entries.Keys + {r.value};
      XorOuter(texts, nets, MemberHash(sip, key, r));
    }
  }

  lemma XorOuter(a: bv64, b: bv64, m: bv64)
    ensures Xor(a, Xor(b, m)) == Xor(Xor(a, b), m) == Xor(Xor(a, m), b)
  {
    hide Xor;
    XorGroup(a, b, m);
    XorGroup(a, m, b);
    XorTwice(b, m);
  }

  /** The hash a mirror maintains record by record, starting from no members. */
  function RunningHash(sip: Sip, key: bytes, recs: seq<Rec>): bv64 {
    if recs == [] then 0
    else
      var before, r := recs[..|recs| - 1], recs[|recs| - 1];
      var h := RunningHash(sip, key, before);
      if (r.op == REC_ADD) == Has(AppliedAll(NO_MEMBERS, before), r) then h else Xor(h, MemberHash(sip, key, r))
  }

  lemma EmptyHash(sip: Sip, key: bytes)
    ensures HashOf(sip, key, NO_MEMBERS) == 0
  {
  }

  /** A set of one string hashes to the string's own hash under the key; a set of one prefix to that of six bytes, or
      eighteen, that say its family, its length and its address in network order. */
  lemma HashOfOne(sip: Sip, key: bytes, value: bytes, what: Record, p: Prefix, exp: i64)
    ensures HashOf(sip, key, Members(map[value := what], map[])) == sip(key, value)
    ensures HashOf(sip, key, Members(map[], map[p := exp])) == sip(key, PrefixMaterial(p))
  {
    hide HashOf, Xor, XorOver, PrefixMaterial;
    EmptyHash(sip, key);
    HashAfterApply(sip, key, NO_MEMBERS, TextRec(REC_ADD, value, what.exp, what.reason));
    HashAfterApply(sip, key, NO_MEMBERS, NetRec(REC_ADD, p, exp));
    XorNothing(sip(key, value));
    XorNothing(sip(key, PrefixMaterial(p)));
    assert NO_MEMBERS.entries[value := what] == map[value := what] && NO_MEMBERS.nets[p := exp] == map[p := exp];
  }

  lemma XorNothing(a: bv64)
    ensures Xor(0, a) == a
  {
  }

  lemma MaterialBytes(p: Prefix)
    requires InRange(p)
    ensures var m := PrefixMaterial(p);
            && |m| == (if p.fam == V4 then 6 else 18) && m[0] == (if p.fam == V4 then 4 else 6) && m[1] == p.bits
            && FromBig(m[2..]) == p.ip
  {
    BigOfNumber(p.ip, ByteLen(p.fam));
    assert PrefixMaterial(p)[2..] == ToBig(p.ip, ByteLen(p.fam));
  }

  /** So no two prefixes are told apart by less than their hashes. */
  lemma MaterialsApart(p: Prefix, q: Prefix)
    requires InRange(p) && InRange(q) && PrefixMaterial(p) == PrefixMaterial(q)
    ensures p == q
  {
    hide PrefixMaterial;
    MaterialBytes(p);
    MaterialBytes(q);
  }

  lemma {:induction false} RunningHashIsHash(sip: Sip, key: bytes, recs: seq<Rec>)
    ensures RunningHash(sip, key, recs) == HashOf(sip, key, AppliedAll(NO_MEMBERS, recs))
  {
    hide Xor, MemberHash;
    if recs == [] {
      EmptyHash(sip, key);
    } else {
      RunningHashIsHash(sip, key, recs[..|recs| - 1]);
      HashAfterApply(sip, key, AppliedAll(NO_MEMBERS, recs[..|recs| - 1]), recs[|recs| - 1]);
    }
  }

  /** Whatever records led there, in whatever order: equal member sets have equal hashes,
      even where expiries and reasons differ. */
  lemma HashIgnoresHistory(sip: Sip, key: bytes, a: seq<Rec>, b: seq<Rec>)
    requires AppliedAll(NO_MEMBERS, a).entries.Keys == AppliedAll(NO_MEMBERS, b).entries.Keys
    requires AppliedAll(NO_MEMBERS, a).nets.Keys == AppliedAll(NO_MEMBERS, b).nets.Keys
    ensures RunningHash(sip, key, a) == RunningHash(sip, key, b)
  {
    hide Xor, RunningHash;
    RunningHashIsHash(sip, key, a);
    RunningHashIsHash(sip, key, b);
  }

  // ---- a snapshot's listing ----

  /** Two records about the same member. */
  predicate SameMember(a: Rec, b: Rec) {
    if a.NetRec? then b.NetRec? && a.prefix == b.prefix else b.TextRec? && a.value == b.value
  }

  /** The record says what the set holds about its member. */
  predicate Describes(r: Rec, c: Members) {
    match r
    case NetRec(_, p, exp) => p in c.nets && c.nets[p] == exp
    case TextRec(_, v, exp, reason) => v in c.entries && c.entries[v] == Record(exp, reason)
  }

  ghost function TextNames(recs: seq<Rec>): set<bytes> {
    set i | 0 <= i < |recs| && recs[i].TextRec? :: recs[i].value
  }

  ghost function NetNames(recs: seq<Rec>): set<Prefix> {
    set i | 0 <= i < |recs| && recs[i].NetRec? :: recs[i].prefix
  }

  /** The records list the set: one add per member, in any order. */
  ghost predicate Lists(recs: seq<Rec>, c: Members) {
    && (forall i | 0 <= i < |recs| :: recs[i].op == REC_ADD && Describes(recs[i], c))
    && (forall i, j | 0 <= i < j < |recs| :: !SameMember(recs[i], recs[j]))
    && TextNames(recs) == c.entries.Keys && NetNames(recs) == c.nets.Keys
  }

  lemma NamesGrow(recs: seq<Rec>)
    requires recs != []
    ensures var before, r := recs[..|recs| - 1], recs[|recs| - 1];
            && TextNames(recs) == TextNames(before) + (if r.TextRec? then {r.value} else {})
            && NetNames(recs) == NetNames(before) + (if r.NetRec? then {r.prefix} else {})
  {
    var n := |recs| - 1;
    assert forall i | 0 <= i < n :: recs[..n][i] == recs[i];
  }

  /** Loading some adds that describe `c` brings in exactly the members they name, as `c` has them. */
  lemma {:induction false} LoadPart(recs: seq<Rec>, c: Members)
    requires forall i | 0 <= i < |recs| :: recs[i].op == REC_ADD && Describes(recs[i], c)
    ensures var d := AppliedAll(NO_MEMBERS, recs);
            && d.entries.Keys == TextNames(recs) && d.nets.Keys == NetNames(recs)
            && (forall v <- d.entries :: v in c.entries && d.entries[v] == c.entries[v])
            && (forall p <- d.nets :: p in c.nets && d.nets[p] == c.nets[p])
  {
    hide TextNames, NetNames;
    if recs != [] {
      var before, r := recs[..|recs| - 1], recs[|recs| - 1];
      LoadPart(before, c);
      NamesGrow(recs);
    } else {
      assert TextNames([]) == {} && NetNames([]) == {} by { NoNames(); }
    }
  }

  lemma NoNames()
    ensures TextNames([]) == {} && NetNames([]) == {}
  {
  }

  /** Loading a listing, in any order, reproduces the set, and with it the hash. */
  lemma LoadListing(recs: seq<Rec>, c: Members)
    requires Lists(recs, c)
    ensures AppliedAll(NO_MEMBERS, recs) == c
  {
    LoadPart(recs, c);
    var d := AppliedAll(NO_MEMBERS, recs);
    assert d.entries == c.entries;
    assert d.nets == c.nets;
  }

  // ---- the index ----

  function FamilyIndex(fam: Family): nat {
    if fam.V4? then 0 else 1
  }

  ghost function OfLength(nets: set<Prefix>, fam: Family, bits: int): set<Prefix> {
    set p | p in nets && p.fam == fam && p.bits == bits
  }

  lemma OfLengthGrows(nets: set<Prefix>, p: Prefix)
    requires p !in nets
    ensures forall fam, bits :: |OfLength(nets + {p}, fam, bits)| ==
              |OfLength(nets, fam, bits)| + if fam == p.fam && bits == p.bits then 1 else 0
  {
    forall fam, bits
      ensures |OfLength(nets + {p}, fam, bits)| ==
              |OfLength(nets, fam, bits)| + if fam == p.fam && bits == p.bits then 1 else 0
    {
      if fam == p.fam && bits == p.bits {
        assert OfLength(nets + {p}, fam, bits) == OfLength(nets, fam, bits) + {p};
      } else {
        assert OfLength(nets + {p}, fam, bits) == OfLength(nets, fam, bits);
      }
    }
  }

  /** Some live member prefix covers the address. A prefix stored with host bits set is never
      looked up, so only masked ones count. */
  ghost predicate Listed(c: Members, a: Addr, now: i64)
    requires GoodMembers(c)
  {
    exists p | p in c.nets :: IsMasked(p) && Alive(c.nets[p], now) && Covers(p, a)
  }

  predicate AllMasked(c: Members) {
    forall p <- c.nets :: InRange(p) && IsMasked(p)
  }

  /** Whether a live prefix is found by the addresses it covers, and by no others, depends on one thing: that it
      was stored with its host bits cleared. One that was not is missed even by its own address. */
  lemma HostBitsHide(p: Prefix, exp: i64, now: i64)
    requires InRange(p) && Alive(exp, now)
    ensures (forall a | GoodAddr(a) :: Listed(Members(map[], map[p := exp]), a, now) <==> Covers(p, a)) <==> IsMasked(p)
  {
    var c := Members(map[], map[p := exp]);
    if IsMasked(p) {
      forall a | GoodAddr(a) ensures Listed(c, a, now) <==> Covers(p, a) {
        assert p in c.nets;
      }
    } else {
      var own := Addr(p.fam, p.ip);
      assert GoodAddr(own) && Covers(p, own) && !Listed(c, own, now);
    }
  }

  /** The index counts the stored prefixes per family and length. */
  ghost predicate Counts(lens: array2<int>, nets: set<Prefix>)
    reads lens
  {
    && lens.Length0 == 2 && lens.Length1 == 129
    && forall fam: Family, bits | 0 <= bits <= 128 ::
         lens[FamilyIndex(fam), bits] == |OfLength(nets, fam, bits)|
  }

  class Composition {
    const sip: Sip
    var entries: map<bytes, Record>
    var nets: map<Prefix, i64>
    var lens: array2<int>
    var hash: bv64

    ghost function View(): Members
      reads this
    {
      Members(entries, nets)
    }

    /** The index counts the stored prefixes per family and length, and the hash is the hash
        of the members under the set's key. */
    ghost predicate Valid(key: bytes)
      reads this, lens
    {
      && Counts(lens, nets.Keys)
      && GoodMembers(View())
      && hash == HashOf(sip, key, View())
    }

    constructor (sip: Sip, ghost key: bytes)
      ensures this.sip == sip && View() == NO_MEMBERS && fresh(lens)
      ensures Valid(key)
    {
      this.sip := sip;
      entries, nets, hash := map[], map[], 0;
      lens := new int[2, 129]((i, j) => 0);
      new;
      assert forall fam, bits :: OfLength(nets.Keys, fam, bits) == {};
      EmptyHash(sip, key);
    }

    method Apply(key: bytes, typ: byte, r: Rec)
      requires Valid(key) && (r.NetRec? <==> typ == TYPE_CIDR)
      requires r.NetRec? ==> InRange(r.prefix)
      modifies this`entries, this`nets, this`hash, lens
      ensures Valid(key) && View() == Applied(old(View()), r)
    {
      hide Xor, HashOf, Counts, PrefixMaterial;
      HashAfterApply(sip, key, View(), r);
      if typ == TYPE_CIDR {
        ApplyNet(key, r.op, r.prefix, r.exp);
        return;
      }
      var had := r.value in entries;
      if r.op == REC_ADD {
        if !had {
          hash := Xor(hash, sip(key, r.value));
        }
        entries := entries[r.value := Record(r.exp, r.reason)];
      } else if had {
        hash := Xor(hash, sip(key, r.value));
        entries := entries - {r.value};
      } else {
        assert entries - {r.value} == entries;
      }
    }

    /** The branch for prefixes: the count of the length moves with the set of stored prefixes. */
    method ApplyNet(key: bytes, op: byte, p: Prefix, exp: i64)
      requires Counts(lens, nets.Keys) && InRange(p)
      modifies this`nets, this`hash, lens
      ensures Counts(lens, nets.Keys) && nets == if op == REC_ADD then old(nets)[p := exp] else old(nets) - {p}
      ensures hash == if (op == REC_ADD) == old(p in nets) then old(hash)
                      else Xor(old(hash), sip(key, PrefixMaterial(p)))
    {
      hide Xor, Counts, PrefixMaterial;
      var had := p in nets;
      if op == REC_ADD {
        assert (nets[p := exp]).Keys == nets.Keys + {p};
        if !had {
          hash := Xor(hash, sip(key, PrefixMaterial(p)));
          Count(p, 1, nets.Keys);
        } else {
          assert nets.Keys + {p} == nets.Keys;
        }
        nets := nets[p := exp];
      } else if had {
        hash := Xor(hash, sip(key, PrefixMaterial(p)));
        assert (nets - {p}).Keys == nets.Keys - {p};
        assert nets.Keys - {p} + {p} == nets.Keys;
        Count(p, -1, nets.Keys - {p});
        nets := nets - {p};
      } else {
        assert nets - {p} == nets;
      }
    }

    /** One prefix more than the others, or one less. */
    method Count(p: Prefix, step: int, ghost others: set<Prefix>)
      requires InRange(p) && p !in others && (step == 1 || step == -1)
      requires Counts(lens, if step == 1 then others else others + {p})
      modifies lens
      ensures Counts(lens, if step == 1 then others + {p} else others)
    {
      hide OfLength;
      OfLengthGrows(others, p);
      var f := FamilyIndex(p.fam);
      lens[f, p.bits] := lens[f, p.bits] + step;
    }

    /** Walks the lengths from longest to shortest, skipping the empty ones. */
    method ContainsAddr(a: Addr, now: i64, ghost key: bytes) returns (ok: bool)
      requires Valid(key) && GoodAddr(a)
      ensures ok == Listed(View(), Unmap(a), now)
    {
      UnmapGood(a);
      var ip := Unmap(a);
      var fam := FamilyIndex(ip.fam);
      var bits: int := BitLen(ip.fam);
      while bits >= 0
        invariant -1 <= bits <= BitLen(ip.fam)
        invariant forall p | p in nets && p.fam == ip.fam && bits < p.bits ::
                    !(IsMasked(p) && Alive(nets[p], now) && Covers(p, ip))
      {
        var p := Masked(PrefixFrom(ip, bits));
        assert lens[fam, bits] == |OfLength(nets.Keys, ip.fam, bits)|;
        forall q | q in nets && q.fam == ip.fam && q.bits == bits && IsMasked(q) && Covers(q, ip)
          ensures lens[fam, bits] != 0 && q == p
        {
          assert q in OfLength(nets.Keys, ip.fam, bits);
          CoversIffOwnPrefix(q, ip);
        }
        if lens[fam, bits] != 0 {
          if p in nets && Alive(nets[p], now) {
            OwnPrefixCovers(ip, bits);
            return true;
          }
        }
        bits := bits - 1;
      }
      return false;
    }
  }
}
