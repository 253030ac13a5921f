/** The leaky buckets and their two stores, over real numbers (internal/buckets/buckets.go): a ledger
    in memory, and Redis keys with an expiry. Both keep a level in virtual time: the level plus what
    will have leaked by now. Time is in seconds from the program's epoch. */
module Buckets {
  import opened Bytes

  datatype Tier = Tier(max: real, loss: real)

  predicate Enabled(t: Tier) {
    t.max > 0.0 && t.loss > 0.0
  }

  /** Units leaked per second. */
  function Rate(t: Tier): real {
    t.loss / 100.0 * t.max
  }

  /** Seconds in which a full bucket runs dry. */
  function Lifetime(t: Tier): real
    requires Enabled(t)
  {
    100.0 / t.loss
  }

  /** The virtual clock: what a bucket of the tier leaks from time zero to now. */
  function Virtual(t: Tier, now: real): real {
    Rate(t) * now
  }

  function Clamp(v: real, lo: real, hi: real): real {
    if v < lo then lo else if v > hi then hi else v
  }

  datatype Ref = Ref(kind: string, key: string)
  datatype Charge = Charge(ref: Ref, add: real)
  datatype Level = Level(ref: Ref, score: real, percent: real)

  /** Whose bucket: a profile's, of a kind, for a key. */
  datatype Account = Account(profile: string, ref: Ref)

  type Tiers = map<string, Tier>

  /** A kind without a tier has the zero tier, which is not enabled. */
  function TierFor(tiers: Tiers, kind: string): Tier {
    if kind in tiers then tiers[kind] else Tier(0.0, 0.0)
  }

  // ---- one bucket, three ways ----

  /** What one access does to a bucket: with a charge or without, at a time; and the level it reports. */
  type Access<!C> = (Tier, Option<C>, Option<real>, real) -> (Option<C>, real)

  /** The plain bucket: a level at a time, leaking at the tier's rate. */
  datatype Bucket = Bucket(level: real, at: real)

  function Leaked(t: Tier, b: Option<Bucket>, now: real): real {
    match b
    case None => 0.0
    case Some(b) => Clamp(b.level - Rate(t) * (now - b.at), 0.0, t.max)
  }

  function PlainAccess(t: Tier, b: Option<Bucket>, charge: Option<real>, now: real): (Option<Bucket>, real) {
    var level := Leaked(t, b, now);
    match charge
    case None => (b, level)
    case Some(delta) =>
      var e := Clamp(level + delta, 0.0, t.max);
      (Some(Bucket(e, now)), e)
  }

  /** The ledger's entry: level plus rate times the time of the last charge; dropped once read dry. */
  function LedgerAccess(t: Tier, v: Option<real>, charge: Option<real>, now: real): (Option<real>, real) {
    var e := if v.Some? then Clamp(v.value - Virtual(t, now), 0.0, t.max) else 0.0;
    match charge
    case Some(delta) =>
      var charged := Clamp(e + delta, 0.0, t.max);
      (Some(charged + Virtual(t, now)), charged)
    case None => (if v.Some? && e <= 0.0 then None else v, e)
  }

  /** A Redis key: its number and when it expires. */
  datatype Stored = Stored(v: real, expires: real)

  function Alive(s: Option<Stored>, now: real): bool {
    s.Some? && now < s.value.expires
  }

  /** The first pipeline on one key: SetNX, IncrByFloat and PExpire under a charge, Get without;
      and the number it answers, None for an absent key. */
  function Commands(t: Tier, s: Option<Stored>, charge: Option<real>, now: real): (Option<Stored>, Option<real>)
    requires Enabled(t)
  {
    match charge
    case None => (s, if Alive(s, now) then Some(s.value.v) else None)
    case Some(delta) =>
      var base := if Alive(s, now) then s.value.v else Virtual(t, now);
      (Some(Stored(base + delta, now + Lifetime(t))), Some(base + delta))
  }

  /** What the answer means, and the number the second pipeline sets where one is needed. */
  function Fixed(t: Tier, raw: Option<real>, charge: Option<real>, now: real): (real, Option<real>) {
    match raw
    case None => (0.0, None)
    case Some(raw) =>
      var e := raw - Virtual(t, now);
      if charge.Some? && e < charge.value then
        var f := Clamp(charge.value, 0.0, t.max);
        (f, Some(Virtual(t, now) + f))
      else if e > t.max then (t.max, if charge.Some? then Some(Virtual(t, now) + t.max) else None)
      else if e < 0.0 then (0.0, None)
      else (e, None)
  }

  function RedisAccess(t: Tier, s: Option<Stored>, charge: Option<real>, now: real): (Option<Stored>, real) {
    if !Enabled(t) then (s, 0.0)
    else
      var (after, raw) := Commands(t, s, charge, now);
      var (e, fix) := Fixed(t, raw, charge, now);
      (if fix.Some? then Some(Stored(fix.value, now + Lifetime(t))) else after, e)
  }

  // ---- what a bucket is ----

  /** A bucket loses the tier's percentage of its maximum each second, down to nothing; an access finds what
      is left, and a charge of either sign is added within nothing and the maximum. */
  lemma PlainMeaning(t: Tier, level: real, at: real, charge: Option<real>, now: real)
    requires Enabled(t) && 0.0 <= level <= t.max && at <= now
    ensures var left := level - t.max * t.loss / 100.0 * (now - at);
            var found := if left < 0.0 then 0.0 else left;
            var (b, e) := PlainAccess(t, Some(Bucket(level, at)), charge, now);
            && (charge == None ==> e == found && b == Some(Bucket(level, at)))
            && (charge.Some? ==>
                  && b == Some(Bucket(e, now)) && 0.0 <= e <= t.max
                  && (0.0 <= found + charge.value <= t.max ==> e == found + charge.value)
                  && (found + charge.value < 0.0 ==> e == 0.0) && (found + charge.value > t.max ==> e == t.max))
  {
    LossPerSecond(t, now - at);
    hide Rate;
  }

  lemma LossPerSecond(t: Tier, seconds: real)
    requires Enabled(t) && seconds >= 0.0
    ensures t.max * t.loss / 100.0 * seconds == Rate(t) * seconds >= 0.0
  {
    assert t.max * t.loss / 100.0 == Rate(t) && Rate(t) >= 0.0 by {
      assert t.loss / 100.0 * t.max == t.max * t.loss / 100.0;
    }
    NotNegative(Rate(t), seconds);
    hide Rate;
  }

  lemma NotNegative(x: real, y: real)
    requires x >= 0.0 && y >= 0.0
    ensures x * y >= 0.0
  {
  }

  /** A bucket that was never charged is dry, and a charge starts it. */
  lemma PlainStart(t: Tier, charge: Option<real>, now: real)
    requires Enabled(t)
    ensures var (b, e) := PlainAccess(t, None, charge, now);
            && (charge == None ==> e == 0.0 && b == None)
            && (charge.Some? ==> b == Some(Bucket(e, now)) && 0.0 <= e <= t.max
                                 && (0.0 <= charge.value <= t.max ==> e == charge.value))
  {
  }

  // ---- each store's bucket follows the plain one ----

  /** The plain bucket's leak, read off the virtual clock. */
  lemma LeakedVirtually(t: Tier, b: Bucket, now: real)
    ensures Leaked(t, Some(b), now) == Clamp(b.level + Virtual(t, b.at) - Virtual(t, now), 0.0, t.max)
  {
    Distribute(Rate(t), b.at, now);
  }

  lemma Distribute(rate: real, at: real, now: real)
    ensures rate * (now - at) == rate * now - rate * at
  {
  }

  /** The virtual clock never runs back, and a lifetime empties a full bucket. */
  lemma VirtualGrows(t: Tier, now: real, later: real)
    requires Enabled(t) && now <= later
    ensures Virtual(t, now) <= Virtual(t, later)
    ensures later >= now + Lifetime(t) ==> Virtual(t, now) + t.max <= Virtual(t, later)
  {
    RateOf(t);
    hide Rate, Lifetime;
    Distribute(Rate(t), now, later);
    if later >= now + Lifetime(t) {
      Scale(Rate(t), Lifetime(t), later - now);
    }
  }

  lemma Scale(rate: real, x: real, y: real)
    requires rate > 0.0 && x <= y
    ensures rate * x <= rate * y
  {
    assert rate * (y - x) >= 0.0;
  }

  lemma RateOf(t: Tier)
    requires Enabled(t)
    ensures Rate(t) > 0.0 && Rate(t) * Lifetime(t) == t.max
  {
    var l, m := t.loss, t.max;
    assert l / 100.0 * (100.0 / l) == 1.0;
    assert Rate(t) * Lifetime(t) == (l / 100.0 * (100.0 / l)) * m;
  }

  predicate BucketFits(t: Tier, b: Option<Bucket>, now: real) {
    b.Some? ==> 0.0 <= b.value.level <= t.max && b.value.at <= now
  }

  /** An absent entry stands for a dry bucket; a present one for the level it encodes. */
  predicate LedgerFollows(t: Tier, v: Option<real>, b: Option<Bucket>, now: real) {
    && BucketFits(t, b, now)
    && match v
       case None => Leaked(t, b, now) == 0.0
       case Some(v) => b.Some? && v == b.value.level + Virtual(t, b.value.at)
  }

  /** A key expires one lifetime after the last charge; a number below the leak of its time stands
      for a dry bucket. */
  predicate RedisFollows(t: Tier, s: Option<Stored>, b: Option<Bucket>, now: real) {
    && Enabled(t)
    && BucketFits(t, b, now)
    && match s
       case None => Leaked(t, b, now) == 0.0
       case Some(s) =>
         && b.Some? && s.expires == b.value.at + Lifetime(t)
         && s.v - Virtual(t, b.value.at) <= t.max
         && b.value.level == Clamp(s.v - Virtual(t, b.value.at), 0.0, t.max)
  }

  /** An entry never stands for more than the bucket holds. */
  predicate LedgerUnder(t: Tier, v: Option<real>, b: Option<Bucket>, now: real) {
    && BucketFits(t, b, now)
    && (v.Some? ==> b.Some? && v.value <= b.value.level + Virtual(t, b.value.at))
  }

  lemma LedgerStep(t: Tier, v: Option<real>, b: Option<Bucket>, charge: Option<real>, now: real)
    requires Enabled(t) && LedgerFollows(t, v, b, now)
    ensures var (v', e) := LedgerAccess(t, v, charge, now);
            var (b', e') := PlainAccess(t, b, charge, now);
            e == e' && LedgerFollows(t, v', b', now)
  {
    hide Virtual, Rate, Leaked;
    Dry(t, now);
    if b.Some? {
      LeakedVirtually(t, b.value, now);
    }
  }

  lemma Dry(t: Tier, now: real)
    ensures Leaked(t, None, now) == 0.0
  {
  }

  lemma LeakedLater(t: Tier, b: Option<Bucket>, now: real, later: real)
    requires Enabled(t) && now <= later
    ensures 0.0 <= Leaked(t, b, later) <= Leaked(t, b, now)
  {
    Dry(t, now);
    Dry(t, later);
    if b.Some? {
      LeakedVirtually(t, b.value, now);
      LeakedVirtually(t, b.value, later);
      VirtualGrows(t, now, later);
    }
    hide Virtual, Rate, Leaked;
  }

  lemma LedgerLater(t: Tier, v: Option<real>, b: Option<Bucket>, now: real, later: real)
    requires Enabled(t) && LedgerFollows(t, v, b, now) && now <= later
    ensures LedgerFollows(t, v, b, later)
  {
    hide Virtual, Rate, Leaked;
    LeakedLater(t, b, now, later);
  }

  /** What a live key, an expired one and an absent one stand for. */
  lemma RedisReads(t: Tier, s: Option<Stored>, b: Option<Bucket>, now: real)
    requires RedisFollows(t, s, b, now)
    ensures if Alive(s, now) then Leaked(t, b, now) == Clamp(s.value.v - Virtual(t, now), 0.0, t.max) &&
                                  s.value.v - Virtual(t, now) <= t.max
            else Leaked(t, b, now) == 0.0
  {
    hide Virtual, Rate, Leaked, Lifetime;
    if s.Some? {
      LeakedVirtually(t, b.value, now);
      VirtualGrows(t, b.value.at, now);
    }
  }

  /** One access: a number left below zero and an expired key both read as a dry bucket. */
  lemma RedisStep(t: Tier, s: Option<Stored>, b: Option<Bucket>, charge: Option<real>, now: real)
    requires RedisFollows(t, s, b, now)
    ensures var (s', e) := RedisAccess(t, s, charge, now);
            var (b', e') := PlainAccess(t, b, charge, now);
            e == e' && RedisFollows(t, s', b', now)
  {
    RedisReads(t, s, b, now);
    Dry(t, now);
    hide Virtual, Rate, Leaked, Lifetime;
  }

  lemma RedisLater(t: Tier, s: Option<Stored>, b: Option<Bucket>, now: real, later: real)
    requires RedisFollows(t, s, b, now) && now <= later
    ensures RedisFollows(t, s, b, later)
  {
    hide Virtual, Rate, Leaked, Lifetime;
    LeakedLater(t, b, now, later);
  }

  lemma UnderStep(t: Tier, v: Option<real>, b: Option<Bucket>, charge: Option<real>, now: real)
    requires Enabled(t) && LedgerUnder(t, v, b, now)
    ensures var (v', e) := LedgerAccess(t, v, charge, now);
            var (b', e') := PlainAccess(t, b, charge, now);
            e <= e' && LedgerUnder(t, v', b', now)
  {
    hide Virtual, Rate, Leaked;
    LeakedLater(t, b, now, now);
    if b.Some? {
      LeakedVirtually(t, b.value, now);
    }
  }

  lemma UnderLater(t: Tier, v: Option<real>, b: Option<Bucket>, now: real, later: real)
    requires LedgerUnder(t, v, b, now) && now <= later
    ensures LedgerUnder(t, v, b, later)
  {
  }

  // ---- whole calls ----

  /** What stands for a bucket's account in a store. */
  const PREFIX := "cap:bkt:"

  function Key(a: Account): string {
    PREFIX + a.profile + ":" + a.ref.kind + ":" + a.ref.key
  }

  function Itself(a: Account): Account {
    a
  }

  function Accounts(): Account -> Account {
    a => Itself(a)
  }

  function Keys(): Account -> string {
    a => Key(a)
  }

  /** The accesses of one call, account by account. */
  function Pass<K, C>(name: Account -> K, access: Access<C>, tiers: Tiers, profile: string, m: map<K, C>,
                      sums: map<Ref, real>, refs: seq<Ref>, now: real): (r: (map<K, C>, seq<real>))
    ensures |r.1| == |refs|
  {
    if refs == [] then (m, [])
    else
      var (before, levels) := Pass(name, access, tiers, profile, m, sums, refs[..|refs| - 1], now);
      var ref := refs[|refs| - 1];
      var k := name(Account(profile, ref));
      var (c, e) := access(TierFor(tiers, ref.kind), Get(before, k), Get(sums, ref), now);
      (Put(before, k, c), levels + [e])
  }

  /** A call as it reaches a store: its charges summed, its accounts listed. */
  datatype Call = Call(profile: string, sums: map<Ref, real>, refs: seq<Ref>, now: real)

  type Profiles = map<string, Tiers>

  predicate GoodCall(cfg: Profiles, c: Call) {
    c.profile in cfg && forall r <- c.refs :: Enabled(TierFor(cfg[c.profile], r.kind))
  }

  /** Calls name known profiles and enabled tiers, in time order. */
  ghost predicate GoodCalls(cfg: Profiles, calls: seq<Call>) {
    && (forall i | 0 <= i < |calls| :: GoodCall(cfg, calls[i]))
    && (forall i, j | 0 <= i < j < |calls| :: calls[i].now <= calls[j].now)
  }

  /** A run of calls against one kind of store, with some entries evicted after each, whichever
      they are: its final state and every level reported. */
  function Run<K, C>(name: Account -> K, access: Access<C>, cfg: Profiles, calls: seq<Call>,
                     evicted: seq<set<K>>): (r: (map<K, C>, seq<seq<real>>))
    requires |evicted| == |calls| && forall i | 0 <= i < |calls| :: calls[i].profile in cfg
    ensures |r.1| == |calls|
  {
    if calls == [] then (map[], [])
    else
      var n := |calls| - 1;
      var c := calls[n];
      var (before, out) := Run(name, access, cfg, calls[..n], evicted[..n]);
      var (m, levels) := Pass(name, access, cfg[c.profile], c.profile, before, c.sums, c.refs, c.now);
      (m - evicted[n], out + [levels])
  }

  function NoEviction<K>(n: nat): seq<set<K>> {
    seq(n, i => {})
  }

  // ---- account names ----

  predicate Plain(s: string) {
    ':' !in s
  }

  predicate PlainNames(cfg: Profiles) {
    forall p <- cfg :: Plain(p) && forall k <- cfg[p] :: Plain(k)
  }

  predicate Known(cfg: Profiles, a: Account) {
    a.profile in cfg && Enabled(TierFor(cfg[a.profile], a.ref.kind))
  }

  lemma FirstColon(a: string, x: string, b: string, y: string)
    requires Plain(a) && Plain(b) && a + ":" + x == b + ":" + y
    ensures a == b && x == y
  {
    var s, t := a + ":" + x, b + ":" + y;
    assert s[|a|] == ':' && t[|b|] == ':';
    assert forall i | 0 <= i < |a| :: s[i] == a[i] && a[i] in a;
    assert forall i | 0 <= i < |b| :: t[i] == b[i] && b[i] in b;
    assert |a| == |b|;
    assert a == s[..|a|] == t[..|b|] == b;
    assert x == s[|a| + 1..] == t[|b| + 1..] == y;
  }

  /** No two accounts share a key, as long as profile names and kinds are free of colons. */
  lemma KeysApart(cfg: Profiles, a: Account, b: Account)
    requires PlainNames(cfg) && Known(cfg, a) && Known(cfg, b) && Key(a) == Key(b)
    ensures a == b
  {
    var restA, restB := a.ref.kind + ":" + a.ref.key, b.ref.kind + ":" + b.ref.key;
    assert Key(a) == PREFIX + (a.profile + ":" + restA);
    assert Key(b) == PREFIX + (b.profile + ":" + restB);
    assert a.profile + ":" + restA == Key(a)[|PREFIX|..] == Key(b)[|PREFIX|..] == b.profile + ":" + restB;
    FirstColon(a.profile, restA, b.profile, restB);
    FirstColon(a.ref.kind, a.ref.key, b.ref.kind, b.ref.key);
  }

  // ---- whole runs follow the plain buckets ----

  /** How a store's cell stands to the plain bucket at a time, and its levels to the plain ones. */
  type Follows<!C> = (Tier, Option<C>, Option<Bucket>, real) -> bool

  ghost predicate StepsFollow<C(!new)>(access: Access<C>, follows: Follows<C>, out: (real, real) -> bool) {
    && (forall t, now | Enabled(t) :: follows(t, None, None, now))
    && (forall t, c, b, charge, now | Enabled(t) && follows(t, c, b, now) ::
          var (c', e) := access(t, c, charge, now);
          var (b', e') := PlainAccess(t, b, charge, now);
          out(e, e') && follows(t, c', b', now))
    && (forall t, c, b, now, later | Enabled(t) && follows(t, c, b, now) && now <= later ::
          follows(t, c, b, later))
  }

  ghost predicate Apart<K>(name: Account -> K, cfg: Profiles) {
    forall a, b | Known(cfg, a) && Known(cfg, b) && name(a) == name(b) :: a == b
  }

  ghost predicate Agree<K, C>(follows: Follows<C>, cfg: Profiles, name: Account -> K, m: map<K, C>,
                              plain: map<Account, Bucket>, now: real) {
    forall a | Known(cfg, a) ::
      follows(TierFor(cfg[a.profile], a.ref.kind), Get(m, name(a)), Get(plain, a), now)
  }

  predicate Pairwise(out: (real, real) -> bool, a: seq<real>, b: seq<real>) {
    |a| == |b| && forall i | 0 <= i < |a| :: out(a[i], b[i])
  }

  lemma AgreeOne<K, C(!new)>(access: Access<C>, follows: Follows<C>, out: (real, real) -> bool, cfg: Profiles,
                       name: Account -> K, m: map<K, C>, plain: map<Account, Bucket>,
                       a: Account, charge: Option<real>, now: real)
    requires StepsFollow(access, follows, out) && Apart(name, cfg) && Known(cfg, a)
    requires Agree(follows, cfg, name, m, plain, now)
    ensures var t := TierFor(cfg[a.profile], a.ref.kind);
            var (c, e) := access(t, Get(m, name(a)), charge, now);
            var (b, e') := PlainAccess(t, Get(plain, a), charge, now);
            out(e, e') && Agree(follows, cfg, name, Put(m, name(a), c), Put(plain, a, b), now)
  {
    hide PlainAccess;
    var t := TierFor(cfg[a.profile], a.ref.kind);
    var (c, e) := access(t, Get(m, name(a)), charge, now);
    var (b, e') := PlainAccess(t, Get(plain, a), charge, now);
    assert follows(t, Get(m, name(a)), Get(plain, a), now);
    var m', plain' := Put(m, name(a), c), Put(plain, a, b);
    forall d | Known(cfg, d)
      ensures follows(TierFor(cfg[d.profile], d.ref.kind), Get(m', name(d)), Get(plain', d), now)
    {
      assert follows(TierFor(cfg[d.profile], d.ref.kind), Get(m, name(d)), Get(plain, d), now);
      if d != a {
        assert name(d) != name(a);
      }
    }
  }

  lemma {:induction false} AgreePass<K, C(!new)>(access: Access<C>, follows: Follows<C>, out: (real, real) -> bool,
                                           cfg: Profiles, name: Account -> K, m: map<K, C>,
                                           plain: map<Account, Bucket>, c: Call, refs: seq<Ref>)
    requires StepsFollow(access, follows, out) && Apart(name, cfg) && c.profile in cfg
    requires forall r <- refs :: Enabled(TierFor(cfg[c.profile], r.kind))
    requires Agree(follows, cfg, name, m, plain, c.now)
    ensures var (m', e) := Pass(name, access, cfg[c.profile], c.profile, m, c.sums, refs, c.now);
            var (plain', e') := Pass(Accounts(), PlainAccess, cfg[c.profile], c.profile, plain, c.sums, refs, c.now);
            Pairwise(out, e, e') && Agree(follows, cfg, name, m', plain', c.now)
  {
    hide StepsFollow, Apart, Agree, PlainAccess;
    if refs != [] {
      var front, ref := refs[..|refs| - 1], refs[|refs| - 1];
      AgreePass(access, follows, out, cfg, name, m, plain, c, front);
      var (m', _) := Pass(name, access, cfg[c.profile], c.profile, m, c.sums, front, c.now);
      var (plain', _) := Pass(Accounts(), PlainAccess, cfg[c.profile], c.profile, plain, c.sums, front, c.now);
      assert ref in refs;
      AgreeOne(access, follows, out, cfg, name, m', plain', Account(c.profile, ref), Get(c.sums, ref), c.now);
    }
  }

  ghost predicate Droppable<C(!new)>(follows: Follows<C>) {
    forall t, c, b, now | follows(t, c, b, now) :: follows(t, None, b, now)
  }

  lemma AgreeCall<K, C(!new)>(access: Access<C>, follows: Follows<C>, out: (real, real) -> bool, cfg: Profiles,
                              name: Account -> K, m: map<K, C>, plain: map<Account, Bucket>, at: real,
                              c: Call, evicted: set<K>)
    requires StepsFollow(access, follows, out) && Apart(name, cfg) && GoodCall(cfg, c) && at <= c.now
    requires Agree(follows, cfg, name, m, plain, at) && (evicted == {} || Droppable(follows))
    ensures var (m', e) := Pass(name, access, cfg[c.profile], c.profile, m, c.sums, c.refs, c.now);
            var (plain', e') := Pass(Accounts(), PlainAccess, cfg[c.profile], c.profile, plain, c.sums, c.refs, c.now);
            Pairwise(out, e, e') && Agree(follows, cfg, name, m' - evicted, plain', c.now)
  {
    assert Agree(follows, cfg, name, m, plain, c.now);
    AgreePass(access, follows, out, cfg, name, m, plain, c, c.refs);
    hide StepsFollow, PlainAccess, Pass;
    var m' := Pass(name, access, cfg[c.profile], c.profile, m, c.sums, c.refs, c.now).0;
    if evicted == {} {
      assert m' - evicted == m';
    } else {
      assert forall k :: Get(m' - evicted, k) == if k in evicted then None else Get(m', k);
    }
  }

  lemma {:induction false} AgreeRun<K, C(!new)>(access: Access<C>, follows: Follows<C>, out: (real, real) -> bool,
                                                cfg: Profiles, name: Account -> K, calls: seq<Call>,
                                                evicted: seq<set<K>>)
    requires StepsFollow(access, follows, out) && Apart(name, cfg) && GoodCalls(cfg, calls)
    requires |evicted| == |calls|
    requires Droppable(follows) || forall i | 0 <= i < |evicted| :: evicted[i] == {}
    ensures var (m, e) := Run(name, access, cfg, calls, evicted);
            var (plain, e') := Run(Accounts(), PlainAccess, cfg, calls, NoEviction(|calls|));
            && (forall i | 0 <= i < |calls| :: Pairwise(out, e[i], e'[i]))
            && Agree(follows, cfg, name, m, plain, if calls == [] then 0.0 else calls[|calls| - 1].now)
  {
    hide PlainAccess, Pass, Apart, Droppable, Pairwise;
    if calls != [] {
      var n := |calls| - 1;
      var front, c := calls[..n], calls[n];
      AgreeRun(access, follows, out, cfg, name, front, evicted[..n]);
      assert NoEviction<Account>(n + 1)[..n] == NoEviction<Account>(n);
      var m := Run(name, access, cfg, front, evicted[..n]).0;
      var plain := Run(Accounts(), PlainAccess, cfg, front, NoEviction(n)).0;
      var at := if front == [] then c.now else front[n - 1].now;
      assert Agree(follows, cfg, name, m, plain, at);
      hide StepsFollow, Agree;
      AgreeCall(access, follows, out, cfg, name, m, plain, at, c, evicted[n]);
      var plain' := Pass(Accounts(), PlainAccess, cfg[c.profile], c.profile, plain, c.sums, c.refs, c.now).0;
      assert plain' - {} == plain';
    }
  }

  // ---- the main results ----

  function Same(): (real, real) -> bool {
    (e, e') => e == e'
  }

  function AtMost(): (real, real) -> bool {
    (e, e') => e <= e'
  }

  lemma LedgerStepsFollow()
    ensures StepsFollow(LedgerAccess, LedgerFollows, Same())
  {
    forall t, now | Enabled(t) ensures LedgerFollows(t, None, None, now) { Dry(t, now); }
    forall t, c, b, charge, now | Enabled(t) && LedgerFollows(t, c, b, now)
      ensures var (c', e) := LedgerAccess(t, c, charge, now);
              var (b', e') := PlainAccess(t, b, charge, now);
              Same()(e, e') && LedgerFollows(t, c', b', now)
    {
      LedgerStep(t, c, b, charge, now);
    }
    forall t, c, b, now, later | Enabled(t) && LedgerFollows(t, c, b, now) && now <= later
      ensures LedgerFollows(t, c, b, later)
    {
      LedgerLater(t, c, b, now, later);
    }
  }

  lemma RedisStepsFollow()
    ensures StepsFollow(RedisAccess, RedisFollows, Same())
  {
    forall t, now | Enabled(t) ensures RedisFollows(t, None, None, now) { Dry(t, now); }
    forall t, c, b, charge, now | Enabled(t) && RedisFollows(t, c, b, now)
      ensures var (c', e) := RedisAccess(t, c, charge, now);
              var (b', e') := PlainAccess(t, b, charge, now);
              Same()(e, e') && RedisFollows(t, c', b', now)
    {
      RedisStep(t, c, b, charge, now);
    }
    forall t, c, b, now, later | Enabled(t) && RedisFollows(t, c, b, now) && now <= later
      ensures RedisFollows(t, c, b, later)
    {
      RedisLater(t, c, b, now, later);
    }
  }

  lemma UnderStepsFollow()
    ensures StepsFollow(LedgerAccess, LedgerUnder, AtMost()) && Droppable(LedgerUnder)
  {
    forall t, c, b, charge, now | Enabled(t) && LedgerUnder(t, c, b, now)
      ensures var (c', e) := LedgerAccess(t, c, charge, now);
              var (b', e') := PlainAccess(t, b, charge, now);
              AtMost()(e, e') && LedgerUnder(t, c', b', now)
    {
      UnderStep(t, c, b, charge, now);
    }
    forall t, c, b, now, later | Enabled(t) && LedgerUnder(t, c, b, now) && now <= later
      ensures LedgerUnder(t, c, b, later)
    {
      UnderLater(t, c, b, now, later);
    }
  }

  lemma KeysAreApart(cfg: Profiles)
    requires PlainNames(cfg)
    ensures Apart(Keys(), cfg)
  {
    forall a, b | Known(cfg, a) && Known(cfg, b) && Keys()(a) == Keys()(b) ensures a == b {
      KeysApart(cfg, a, b);
    }
  }

  /** The ledger, the Redis keys and the plain leaky bucket report the same levels, call by call,
      for every sequence of calls in time order and charges of either sign. */
  lemma StoresAgree(cfg: Profiles, calls: seq<Call>)
    requires PlainNames(cfg) && GoodCalls(cfg, calls)
    ensures Run(Keys(), LedgerAccess, cfg, calls, NoEviction(|calls|)).1 ==
            Run(Accounts(), PlainAccess, cfg, calls, NoEviction(|calls|)).1 ==
            Run(Keys(), RedisAccess, cfg, calls, NoEviction(|calls|)).1
  {
    KeysAreApart(cfg);
    LedgerStepsFollow();
    RedisStepsFollow();
    AgreeRun(LedgerAccess, LedgerFollows, Same(), cfg, Keys(), calls, NoEviction(|calls|));
    AgreeRun(RedisAccess, RedisFollows, Same(), cfg, Keys(), calls, NoEviction(|calls|));
    hide StepsFollow, Apart, Agree, Run;
    SameIsEqual(calls, Run(Keys(), LedgerAccess, cfg, calls, NoEviction(|calls|)).1,
                Run(Accounts(), PlainAccess, cfg, calls, NoEviction(|calls|)).1);
    SameIsEqual(calls, Run(Keys(), RedisAccess, cfg, calls, NoEviction(|calls|)).1,
                Run(Accounts(), PlainAccess, cfg, calls, NoEviction(|calls|)).1);
  }

  lemma SameIsEqual(calls: seq<Call>, e: seq<seq<real>>, e': seq<seq<real>>)
    requires |e| == |e'| == |calls| && forall i | 0 <= i < |calls| :: Pairwise(Same(), e[i], e'[i])
    ensures e == e'
  {
    forall i | 0 <= i < |calls| ensures e[i] == e'[i] {
      assert Pairwise(Same(), e[i], e'[i]);
    }
  }

  /** Whatever is evicted after each call, the ledger never reports more than the plain bucket. */
  lemma LedgerNeverOver(cfg: Profiles, calls: seq<Call>, evicted: seq<set<string>>)
    requires PlainNames(cfg) && GoodCalls(cfg, calls) && |evicted| == |calls|
    ensures var e := Run(Keys(), LedgerAccess, cfg, calls, evicted).1;
            var e' := Run(Accounts(), PlainAccess, cfg, calls, NoEviction(|calls|)).1;
            forall i | 0 <= i < |calls| :: |e[i]| == |e'[i]| && forall j | 0 <= j < |e[i]| :: e[i][j] <= e'[i][j]
  {
    KeysAreApart(cfg);
    UnderStepsFollow();
    AgreeRun(LedgerAccess, LedgerUnder, AtMost(), cfg, Keys(), calls, evicted);
    hide StepsFollow, Apart, Agree, Run, Droppable;
    var e := Run(Keys(), LedgerAccess, cfg, calls, evicted).1;
    var e' := Run(Accounts(), PlainAccess, cfg, calls, NoEviction(|calls|)).1;
    forall i | 0 <= i < |calls|
      ensures |e[i]| == |e'[i]| && forall j | 0 <= j < |e[i]| :: e[i][j] <= e'[i][j]
    {
      assert Pairwise(AtMost(), e[i], e'[i]);
    }
  }
}
