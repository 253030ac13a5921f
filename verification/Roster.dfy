/** The roster kept in memory (internal/roster/roster.go): what is revoked, which ids are burned, how
    often a scope has failed, which scopes are locked, and values held for a while. Every entry has a
    time it is good until, and entries past theirs are thrown away: by the periodic refresh, or when
    next looked up. The claim is that throwing away is never seen: every answer is a function of the
    calls made so far, none forgotten. */
module Roster {
  import opened Bytes

  // ---- the calls made so far ----

  datatype Call =
    | Revoke(sid: string, until: int)
    | Burn(key: string, ttl: int)
    | Fail(scope: string, window: int)
    | Clear(scope: string)
    | Lock(scope: string, length: int)
    | Put(key: string, value: bytes, ttl: int)
    | Del(key: string)

  datatype Entry = Entry(at: int, call: Call)

  type Log = seq<Entry>

  ghost predicate InTime(log: Log, clock: int) {
    && (forall i, j | 0 <= i < j < |log| :: log[i].at <= log[j].at)
    && (forall i | 0 <= i < |log| :: log[i].at <= clock)
  }

  function Named(kind: string, id: string): string {
    kind + ":" + id
  }

  datatype Held = Held(value: bytes, until: int)

  datatype Counter = Counter(n: nat, until: int)

  // ---- what the calls say, nothing ever thrown away ----

  function RevokedUntil(log: Log, sid: string): Option<int> {
    if log == [] then None
    else
      var last := log[|log| - 1].call;
      if last.Revoke? && last.sid == sid then Some(last.until) else RevokedUntil(log[..|log| - 1], sid)
  }

  predicate IsRevoked(log: Log, sid: string, now: int) {
    var u := RevokedUntil(log, sid);
    u.Some? && now < u.value
  }

  /** Only a burn that found nothing burned counts. */
  function BurnedUntil(log: Log, key: string): Option<int>
    decreases |log|, 0
  {
    if log == [] then None
    else
      var (front, e) := (log[..|log| - 1], log[|log| - 1]);
      if e.call.Burn? && e.call.key == key && BurnsFirst(front, key, e.at) then Some(e.at + e.call.ttl)
      else BurnedUntil(front, key)
  }

  predicate BurnsFirst(log: Log, key: string, now: int)
    decreases |log|, 1
  {
    var u := BurnedUntil(log, key);
    !(u.Some? && now < u.value)
  }

  function HeldLast(log: Log, key: string): Option<Held> {
    if log == [] then None
    else
      var (front, e) := (log[..|log| - 1], log[|log| - 1]);
      match e.call
      case Put(k, v, ttl) => if k == key then Some(Held(v, e.at + ttl)) else HeldLast(front, key)
      case Del(k) => if k == key then None else HeldLast(front, key)
      case _ => HeldLast(front, key)
  }

  function Found(log: Log, key: string, now: int): Option<bytes> {
    match HeldLast(log, key)
    case Some(h) => if now > h.until then None else Some(h.value)
    case None => None
  }

  function LockedUntil(log: Log, scope: string): Option<int> {
    if log == [] then None
    else
      var (front, e) := (log[..|log| - 1], log[|log| - 1]);
      match e.call
      case Lock(s, d) => if s == scope then Some(e.at + d) else LockedUntil(front, scope)
      case Clear(s) => if s == scope then None else LockedUntil(front, scope)
      case _ => LockedUntil(front, scope)
  }

  function LockLeft(log: Log, scope: string, now: int): int {
    var u := LockedUntil(log, scope);
    if u.Some? && u.value > now then u.value - now else 0
  }

  function Bumped(c: Option<Counter>, now: int, window: int): Counter {
    Counter(if c.None? || now > c.value.until then 1 else c.value.n + 1, now + window)
  }

  function Failures(log: Log, scope: string): Option<Counter> {
    if log == [] then None
    else
      var (front, e) := (log[..|log| - 1], log[|log| - 1]);
      match e.call
      case Fail(s, w) => if s == scope then Some(Bumped(Failures(front, scope), e.at, w)) else Failures(front, scope)
      case Clear(s) => if s == scope then None else Failures(front, scope)
      case Lock(s, _) => if s == scope then None else Failures(front, scope)
      case _ => Failures(front, scope)
  }

  /** The answer to a failure reported now. */
  function FailCount(log: Log, scope: string, now: int, window: int): nat {
    Bumped(Failures(log, scope), now, window).n
  }

  // ---- the count of failures is the length of a run ----

  /** A failure: when, and how long it is remembered. */
  datatype Miss = Miss(at: int, window: int)

  /** The scope's failures since it was last cleared or locked. */
  function Misses(log: Log, scope: string): seq<Miss> {
    if log == [] then []
    else
      var (front, e) := (log[..|log| - 1], log[|log| - 1]);
      match e.call
      case Fail(s, w) => if s == scope then Misses(front, scope) + [Miss(e.at, w)] else Misses(front, scope)
      case Clear(s) => if s == scope then [] else Misses(front, scope)
      case Lock(s, _) => if s == scope then [] else Misses(front, scope)
      case _ => Misses(front, scope)
  }

  /** The i-th came while the one before it was remembered. */
  predicate Follows(s: seq<Miss>, i: nat)
    requires 0 < i < |s|
  {
    s[i].at <= s[i - 1].at + s[i - 1].window
  }

  /** From the i-th on, each came while the one before it was remembered. */
  ghost predicate Linked(s: seq<Miss>, i: nat) {
    forall j: nat | i < j < |s| :: Follows(s, j)
  }

  ghost predicate LongestRun(s: seq<Miss>, n: nat) {
    && n <= |s| && Linked(s, |s| - n)
    && forall i: nat | i < |s| - n :: !Linked(s, i)
  }

  lemma {:induction false} CounterOfMisses(log: Log, scope: string)
    ensures var c, s := Failures(log, scope), Misses(log, scope);
            && (c.None? <==> s == [])
            && (c.Some? ==> c.value.n > 0 && LongestRun(s, c.value.n) &&
                            c.value.until == s[|s| - 1].at + s[|s| - 1].window)
  {
    if log != [] {
      var (front, e) := (log[..|log| - 1], log[|log| - 1]);
      CounterOfMisses(front, scope);
      if e.call.Fail? && e.call.scope == scope {
        OneMoreMiss(Misses(front, scope), Failures(front, scope), e.at, e.call.window);
      }
    }
  }

  lemma OneMoreMiss(s: seq<Miss>, c: Option<Counter>, at: int, window: int)
    requires c.None? <==> s == []
    requires c.Some? ==> c.value.n > 0 && LongestRun(s, c.value.n) &&
                         c.value.until == s[|s| - 1].at + s[|s| - 1].window
    ensures LongestRun(s + [Miss(at, window)], Bumped(c, at, window).n)
  {
    hide LongestRun;
    var t := s + [Miss(at, window)];
    var n := if c.Some? then c.value.n else 0;
    if c.Some? {
      RunParts(s, n);
      assert forall j: nat | 0 < j < |s| :: Follows(t, j) == Follows(s, j);
      assert Follows(t, |s|) <==> at <= c.value.until;
      if at <= c.value.until {
        forall i: nat | i < |s| - n ensures !Linked(t, i) {
          assert !Linked(s, i);
        }
        ARun(t, n + 1);
      } else {
        ARun(t, 1);
      }
    } else {
      ARun(t, 1);
    }
  }

  lemma RunParts(s: seq<Miss>, n: nat)
    requires LongestRun(s, n)
    ensures n <= |s| && Linked(s, |s| - n)
    ensures forall i: nat | i < |s| - n :: !Linked(s, i)
  {
  }

  lemma ARun(s: seq<Miss>, n: nat)
    requires n <= |s| && Linked(s, |s| - n)
    requires forall i: nat | i < |s| - n :: !Linked(s, i)
    ensures LongestRun(s, n)
  {
  }

  /** A reported failure answers with the length of the longest run of the scope's failures, this one
      included, in which each came within the window of the one before; clearing and locking start
      afresh. No failure outside that run counts, however many there were. */
  lemma FailCountsRun(log: Log, scope: string, now: int, window: int)
    ensures LongestRun(Misses(log, scope) + [Miss(now, window)], FailCount(log, scope, now, window))
  {
    CounterOfMisses(log, scope);
    OneMoreMiss(Misses(log, scope), Failures(log, scope), now, window);
  }

  // ---- burning ----

  /** The i-th call burned the key, and was told it was first. */
  predicate Wins(log: Log, key: string, i: nat)
    requires i < |log|
  {
    log[i].call.Burn? && log[i].call.key == key && BurnsFirst(log[..i], key, log[i].at)
  }

  lemma {:induction false} BurnedByWinner(log: Log, key: string)
    ensures BurnedUntil(log, key).Some? ==>
              exists i: nat :: i < |log| && Wins(log, key, i)
                               && BurnedUntil(log, key) == Some(log[i].at + log[i].call.ttl)
                               && forall j: nat | i < j < |log| :: !Wins(log, key, j)
    ensures BurnedUntil(log, key).None? ==> forall j: nat | j < |log| :: !Wins(log, key, j)
  {
    if log != [] {
      var n := |log| - 1;
      var front := log[..n];
      BurnedByWinner(front, key);
      forall j: nat | j < n ensures Wins(front, key, j) == Wins(log, key, j) {
        assert front[..j] == log[..j];
      }
    }
  }

  /** A burn is first exactly when every earlier first burn of the key has run out. */
  lemma {:induction false} WinsIff(log: Log, key: string, clock: int, now: int)
    requires InTime(log, clock) && clock <= now
    ensures BurnsFirst(log, key, now) <==>
            forall i: nat | i < |log| && Wins(log, key, i) :: log[i].at + log[i].call.ttl <= now
    decreases |log|
  {
    BurnedByWinner(log, key);
    if BurnedUntil(log, key).Some? {
      var i: nat :| i < |log| && Wins(log, key, i) && BurnedUntil(log, key) == Some(log[i].at + log[i].call.ttl)
                    && forall j: nat | i < j < |log| :: !Wins(log, key, j);
      WinsIff(log[..i], key, log[i].at, log[i].at);
      forall j: nat | j < i && Wins(log, key, j) ensures log[j].at + log[j].call.ttl <= log[i].at {
        assert log[..i][..j] == log[..j];
        assert Wins(log[..i], key, j);
      }
    }
  }

  // ---- what the last call says ----

  /** Nothing after the i-th call speaks of the same thing. */
  ghost predicate LastOf(log: Log, i: nat, about: Call -> bool) {
    i < |log| && about(log[i].call) && forall j: nat | i < j < |log| :: !about(log[j].call)
  }

  function Revokes(sid: string): Call -> bool {
    (c: Call) => c.Revoke? && c.sid == sid
  }

  function Stores(key: string): Call -> bool {
    (c: Call) => (c.Put? || c.Del?) && c.key == key
  }

  function Locks(scope: string): Call -> bool {
    (c: Call) => (c.Lock? || c.Clear?) && c.scope == scope
  }

  lemma LastOfFront(log: Log, about: Call -> bool)
    requires log != []
    ensures var n := |log| - 1;
            forall i: nat :: LastOf(log, i, about) <==>
                             if about(log[n].call) then i == n else LastOf(log[..n], i, about)
  {
  }

  /** Revoked exactly while the last revocation runs. */
  lemma {:induction false} RevokedIff(log: Log, sid: string, now: int)
    ensures IsRevoked(log, sid, now) <==>
            exists i: nat :: LastOf(log, i, Revokes(sid)) && now < log[i].call.until
  {
    if log != [] {
      var front := log[..|log| - 1];
      RevokedIff(front, sid, now);
      LastOfFront(log, Revokes(sid));
      LastIsThere(log, Revokes(sid));
    }
  }

  /** Found exactly when the last call about the key put a value, up to and at the end of its time. */
  lemma {:induction false} FoundIff(log: Log, key: string, now: int, value: bytes)
    ensures Found(log, key, now) == Some(value) <==>
            exists i: nat :: LastOf(log, i, Stores(key)) && log[i].call.Put? && log[i].call.value == value &&
                             now <= log[i].at + log[i].call.ttl
  {
    if log != [] {
      FoundIff(log[..|log| - 1], key, now, value);
      LastOfFront(log, Stores(key));
      LastIsThere(log, Stores(key));
    }
  }

  /** Locked exactly while the last lock runs, unless it was cleared since. */
  lemma {:induction false} LockedIff(log: Log, scope: string, now: int, left: int)
    requires left > 0
    ensures LockLeft(log, scope, now) == left <==>
            exists i: nat :: LastOf(log, i, Locks(scope)) && log[i].call.Lock? &&
                             left == log[i].at + log[i].call.length - now
  {
    if log != [] {
      LockedIff(log[..|log| - 1], scope, now, left);
      LastOfFront(log, Locks(scope));
      LastIsThere(log, Locks(scope));
    }
  }

  /** A last call of the front keeps its place. */
  lemma LastIsThere(log: Log, about: Call -> bool)
    requires log != []
    ensures forall i: nat :: LastOf(log[..|log| - 1], i, about) ==> log[i] == log[..|log| - 1][i]
    ensures about(log[|log| - 1].call) ==> LastOf(log, |log| - 1, about)
  {
  }

  // ---- the roster ----

  /** An entry may be missing only once it has run out. */
  ghost predicate Agrees<T>(have: Option<T>, want: Option<T>, over: bool) {
    have == want || (have.None? && over)
  }

  ghost predicate RevokedAgrees(m: map<string, int>, log: Log, clock: int) {
    forall k :: var w := RevokedUntil(log, k); Agrees(Get(m, k), w, w.Some? && w.value < clock)
  }

  ghost predicate BurnedAgrees(m: map<string, int>, log: Log, clock: int) {
    forall k :: var w := BurnedUntil(log, k); Agrees(Get(m, k), w, w.Some? && w.value < clock)
  }

  ghost predicate FailsAgree(m: map<string, Counter>, log: Log) {
    forall k :: Get(m, k) == Failures(log, k)
  }

  ghost predicate LocksAgree(m: map<string, int>, log: Log, clock: int) {
    forall k :: var w := LockedUntil(log, k); Agrees(Get(m, k), w, w.Some? && w.value <= clock)
  }

  ghost predicate ValuesAgree(m: map<string, Held>, log: Log, clock: int) {
    forall k :: var w := HeldLast(log, k); Agrees(Get(m, k), w, w.Some? && w.value.until < clock)
  }

  // Time passing, and throwing away what has run out, keep each table in agreement.

  lemma RevokedLater(m: map<string, int>, r: map<string, int>, log: Log, clock: int, now: int)
    requires RevokedAgrees(m, log, clock) && clock <= now
    requires r.Keys <= m.Keys && forall k | k in r :: r[k] == m[k]
    requires forall k | k in m && k !in r :: now > m[k]
    ensures RevokedAgrees(r, log, now)
  {
    hide RevokedUntil;
  }

  lemma BurnedLater(m: map<string, int>, r: map<string, int>, log: Log, clock: int, now: int)
    requires BurnedAgrees(m, log, clock) && clock <= now
    requires r.Keys <= m.Keys && forall k | k in r :: r[k] == m[k]
    requires forall k | k in m && k !in r :: now > m[k]
    ensures BurnedAgrees(r, log, now)
  {
    hide BurnedUntil;
  }

  lemma LocksLater(m: map<string, int>, r: map<string, int>, log: Log, clock: int, now: int)
    requires LocksAgree(m, log, clock) && clock <= now
    requires r.Keys <= m.Keys && forall k | k in r :: r[k] == m[k]
    requires forall k | k in m && k !in r :: now >= m[k]
    ensures LocksAgree(r, log, now)
  {
    hide LockedUntil;
  }

  lemma ValuesLater(m: map<string, Held>, r: map<string, Held>, log: Log, clock: int, now: int)
    requires ValuesAgree(m, log, clock) && clock <= now
    requires r.Keys <= m.Keys && forall k | k in r :: r[k] == m[k]
    requires forall k | k in m && k !in r :: now > m[k].until
    ensures ValuesAgree(r, log, now)
  {
    hide HeldLast;
  }

  /** What one more call means to each of the answers. */
  lemma OneMoreCall(log: Log, e: Entry)
    ensures forall k :: RevokedUntil(log + [e], k) ==
                        if e.call.Revoke? && e.call.sid == k then Some(e.call.until) else RevokedUntil(log, k)
    ensures forall k :: BurnedUntil(log + [e], k) ==
                        if e.call.Burn? && e.call.key == k && BurnsFirst(log, k, e.at) then Some(e.at + e.call.ttl)
                        else BurnedUntil(log, k)
    ensures forall k :: Failures(log + [e], k) ==
                        if e.call.Fail? && e.call.scope == k then Some(Bumped(Failures(log, k), e.at, e.call.window))
                        else if (e.call.Clear? || e.call.Lock?) && e.call.scope == k then None else Failures(log, k)
    ensures forall k :: LockedUntil(log + [e], k) ==
                        if e.call.Lock? && e.call.scope == k then Some(e.at + e.call.length)
                        else if e.call.Clear? && e.call.scope == k then None else LockedUntil(log, k)
    ensures forall k :: HeldLast(log + [e], k) ==
                        if e.call.Put? && e.call.key == k then Some(Held(e.call.value, e.at + e.call.ttl))
                        else if e.call.Del? && e.call.key == k then None else HeldLast(log, k)
  {
    hide Bumped, BurnsFirst;
    assert (log + [e])[..|log|] == log;
  }

  // A call leaves in agreement every table it does not speak of.

  lemma RevokedStays(m: map<string, int>, log: Log, clock: int, e: Entry)
    requires RevokedAgrees(m, log, clock) && clock <= e.at && !e.call.Revoke?
    ensures RevokedAgrees(m, log + [e], e.at)
  {
    hide RevokedUntil, BurnedUntil, Failures, LockedUntil, HeldLast;
    OneMoreCall(log, e);
  }

  lemma BurnedStays(m: map<string, int>, log: Log, clock: int, e: Entry)
    requires BurnedAgrees(m, log, clock) && clock <= e.at && !e.call.Burn?
    ensures BurnedAgrees(m, log + [e], e.at)
  {
    hide RevokedUntil, BurnedUntil, Failures, LockedUntil, HeldLast;
    OneMoreCall(log, e);
  }

  lemma FailsStay(m: map<string, Counter>, log: Log, e: Entry)
    requires FailsAgree(m, log) && !e.call.Fail? && !e.call.Clear? && !e.call.Lock?
    ensures FailsAgree(m, log + [e])
  {
    hide RevokedUntil, BurnedUntil, Failures, LockedUntil, HeldLast;
    OneMoreCall(log, e);
  }

  lemma LocksStay(m: map<string, int>, log: Log, clock: int, e: Entry)
    requires LocksAgree(m, log, clock) && clock <= e.at && !e.call.Lock? && !e.call.Clear?
    ensures LocksAgree(m, log + [e], e.at)
  {
    hide RevokedUntil, BurnedUntil, Failures, LockedUntil, HeldLast;
    OneMoreCall(log, e);
  }

  lemma ValuesStay(m: map<string, Held>, log: Log, clock: int, e: Entry)
    requires ValuesAgree(m, log, clock) && clock <= e.at && !e.call.Put? && !e.call.Del?
    ensures ValuesAgree(m, log + [e], e.at)
  {
    hide RevokedUntil, BurnedUntil, Failures, LockedUntil, HeldLast;
    OneMoreCall(log, e);
  }

  class Memory {
    var revoked: map<string, int>
    var burned: map<string, int>
    var fails: map<string, Counter>
    var locks: map<string, int>
    var values: map<string, Held>

    /** Every call that changed anything, and the last time anything was asked. */
    ghost var log: Log
    ghost var clock: int

    ghost predicate Valid()
      reads this
    {
      && InTime(log, clock)
      && RevokedAgrees(revoked, log, clock) && BurnedAgrees(burned, log, clock) && FailsAgree(fails, log)
      && LocksAgree(locks, log, clock) && ValuesAgree(values, log, clock)
    }

    constructor (ghost now: int)
      ensures Valid() && log == [] && clock == now
    {
      revoked, burned, fails, locks, values := map[], map[], map[], map[], map[];
      log, clock := [], now;
    }

    method Revoked(sid: string, now: int) returns (yes: bool)
      requires Valid() && clock <= now
      modifies this`clock
      ensures Valid() && clock == now && yes == IsRevoked(log, sid, now)
    {
      hide BurnedAgrees, FailsAgree, LocksAgree, ValuesAgree, RevokedUntil, BurnedUntil, Failures,
        LockedUntil, HeldLast, Named;
      BurnedLater(burned, burned, log, clock, now);
      LocksLater(locks, locks, log, clock, now);
      ValuesLater(values, values, log, clock, now);
      clock := now;
      yes := sid in revoked && now < revoked[sid];
      assert Agrees(Bytes.Get(revoked, sid), RevokedUntil(log, sid), true);
    }

    method Revoke(sid: string, until: int, ghost now: int)
      requires Valid() && clock <= now
      modifies this`revoked, this`log, this`clock
      ensures Valid() && clock == now && log == old(log) + [Entry(now, Call.Revoke(sid, until))]
    {
      hide RevokedUntil, BurnedUntil, Failures, LockedUntil, HeldLast, Named,
        BurnedAgrees, FailsAgree, LocksAgree, ValuesAgree;
      ghost var e := Entry(now, Call.Revoke(sid, until));
      OneMoreCall(log, e);
      BurnedStays(burned, log, clock, e);
      FailsStay(fails, log, e);
      LocksStay(locks, log, clock, e);
      ValuesStay(values, log, clock, e);
      revoked := revoked[sid := until];
      log, clock := log + [e], now;
    }

    method Burn(kind: string, id: string, ttl: int, now: int) returns (first: bool)
      requires Valid() && clock <= now
      modifies this`burned, this`log, this`clock
      ensures Valid() && clock == now && first == BurnsFirst(old(log), Named(kind, id), now)
      ensures log == old(log) + [Entry(now, Call.Burn(Named(kind, id), ttl))]
    {
      hide RevokedUntil, BurnedUntil, Failures, LockedUntil, HeldLast, Named,
        RevokedAgrees, FailsAgree, LocksAgree, ValuesAgree;
      var key := Named(kind, id);
      ghost var e := Entry(now, Call.Burn(key, ttl));
      OneMoreCall(log, e);
      RevokedStays(revoked, log, clock, e);
      FailsStay(fails, log, e);
      LocksStay(locks, log, clock, e);
      ValuesStay(values, log, clock, e);
      if key in burned && now < burned[key] {
        first := false;
      } else {
        burned := burned[key := now + ttl];
        first := true;
      }
      log, clock := log + [e], now;
    }

    method Fail(scope: string, window: int, now: int) returns (n: nat)
      requires Valid() && clock <= now
      modifies this`fails, this`log, this`clock
      ensures Valid() && clock == now && n == FailCount(old(log), scope, now, window)
      ensures log == old(log) + [Entry(now, Call.Fail(scope, window))]
    {
      hide RevokedUntil, BurnedUntil, Failures, LockedUntil, HeldLast, Named,
        RevokedAgrees, BurnedAgrees, LocksAgree, ValuesAgree;
      ghost var e := Entry(now, Call.Fail(scope, window));
      OneMoreCall(log, e);
      RevokedStays(revoked, log, clock, e);
      BurnedStays(burned, log, clock, e);
      LocksStay(locks, log, clock, e);
      ValuesStay(values, log, clock, e);
      var c := Counter(0, now);
      if scope in fails && now <= fails[scope].until {
        c := fails[scope];
      }
      c := Counter(c.n + 1, now + window);
      fails := fails[scope := c];
      n := c.n;
      log, clock := log + [e], now;
    }

    method Clear(scope: string, ghost now: int)
      requires Valid() && clock <= now
      modifies this`fails, this`locks, this`log, this`clock
      ensures Valid() && clock == now && log == old(log) + [Entry(now, Call.Clear(scope))]
    {
      hide RevokedUntil, BurnedUntil, Failures, LockedUntil, HeldLast, Named,
        RevokedAgrees, BurnedAgrees, ValuesAgree;
      ghost var e := Entry(now, Call.Clear(scope));
      OneMoreCall(log, e);
      RevokedStays(revoked, log, clock, e);
      BurnedStays(burned, log, clock, e);
      ValuesStay(values, log, clock, e);
      fails := fails - {scope};
      locks := locks - {scope};
      log, clock := log + [e], now;
    }

    method Lock(scope: string, length: int, now: int)
      requires Valid() && clock <= now
      modifies this`fails, this`locks, this`log, this`clock
      ensures Valid() && clock == now && log == old(log) + [Entry(now, Call.Lock(scope, length))]
    {
      hide RevokedUntil, BurnedUntil, Failures, LockedUntil, HeldLast, Named,
        RevokedAgrees, BurnedAgrees, ValuesAgree;
      ghost var e := Entry(now, Call.Lock(scope, length));
      OneMoreCall(log, e);
      RevokedStays(revoked, log, clock, e);
      BurnedStays(burned, log, clock, e);
      ValuesStay(values, log, clock, e);
      locks := locks[scope := now + length];
      fails := fails - {scope};
      log, clock := log + [e], now;
    }

    method LockedFor(scope: string, now: int) returns (left: int)
      requires Valid() && clock <= now
      modifies this`locks, this`clock
      ensures Valid() && clock == now && left == LockLeft(log, scope, now)
    {
      hide RevokedAgrees, BurnedAgrees, FailsAgree, ValuesAgree, RevokedUntil, BurnedUntil, Failures,
        LockedUntil, HeldLast, Named;
      RevokedLater(revoked, revoked, log, clock, now);
      BurnedLater(burned, burned, log, clock, now);
      ValuesLater(values, values, log, clock, now);
      clock := now;
      assert Agrees(Bytes.Get(locks, scope), LockedUntil(log, scope), true);
      if scope !in locks {
        return 0;
      }
      left := locks[scope] - now;
      if left <= 0 {
        locks := locks - {scope};
        left := 0;
      }
    }

    method Put(kind: string, id: string, value: bytes, ttl: int, now: int)
      requires Valid() && clock <= now
      modifies this`values, this`log, this`clock
      ensures Valid() && clock == now && log == old(log) + [Entry(now, Call.Put(Named(kind, id), value, ttl))]
    {
      hide RevokedUntil, BurnedUntil, Failures, LockedUntil, HeldLast, Named,
        RevokedAgrees, BurnedAgrees, FailsAgree, LocksAgree;
      ghost var e := Entry(now, Call.Put(Named(kind, id), value, ttl));
      OneMoreCall(log, e);
      RevokedStays(revoked, log, clock, e);
      BurnedStays(burned, log, clock, e);
      FailsStay(fails, log, e);
      LocksStay(locks, log, clock, e);
      values := values[Named(kind, id) := Held(value, now + ttl)];
      log, clock := log + [e], now;
    }

    method Get(kind: string, id: string, now: int) returns (value: Option<bytes>)
      requires Valid() && clock <= now
      modifies this`values, this`clock
      ensures Valid() && clock == now && value == Found(log, Named(kind, id), now)
    {
      hide RevokedAgrees, BurnedAgrees, FailsAgree, LocksAgree, RevokedUntil, BurnedUntil, Failures,
        LockedUntil, HeldLast, Named;
      RevokedLater(revoked, revoked, log, clock, now);
      BurnedLater(burned, burned, log, clock, now);
      LocksLater(locks, locks, log, clock, now);
      clock := now;
      var key := Named(kind, id);
      assert Agrees(Bytes.Get(values, key), HeldLast(log, key), true);
      if key !in values || now > values[key].until {
        values := values - {key};
        return None;
      }
      value := Some(values[key].value);
    }

    method Del(kind: string, id: string, ghost now: int)
      requires Valid() && clock <= now
      modifies this`values, this`log, this`clock
      ensures Valid() && clock == now && log == old(log) + [Entry(now, Call.Del(Named(kind, id)))]
    {
      hide RevokedUntil, BurnedUntil, Failures, LockedUntil, HeldLast, Named,
        RevokedAgrees, BurnedAgrees, FailsAgree, LocksAgree;
      ghost var e := Entry(now, Call.Del(Named(kind, id)));
      OneMoreCall(log, e);
      RevokedStays(revoked, log, clock, e);
      BurnedStays(burned, log, clock, e);
      FailsStay(fails, log, e);
      LocksStay(locks, log, clock, e);
      values := values - {Named(kind, id)};
      log, clock := log + [e], now;
    }

    /** Throws away what has run out. The calls made so far, and so every later answer, stay as they are. */
    method Refresh(now: int) returns (left: nat)
      requires Valid() && clock <= now
      modifies this`revoked, this`burned, this`values, this`clock
      ensures Valid() && clock == now
      ensures left == |revoked|
      ensures forall k :: k in revoked <==> k in old(revoked) && !(now > old(revoked)[k])
      ensures forall k :: k in burned <==> k in old(burned) && !(now > old(burned)[k])
      ensures forall k :: k in values <==> k in old(values) && !(now > old(values)[k].until)
    {
      hide RevokedAgrees, BurnedAgrees, FailsAgree, LocksAgree, ValuesAgree;
      var r := Swept(revoked, now);
      var b := Swept(burned, now);
      var v := SweptValues(values, now);
      RevokedLater(revoked, r, log, clock, now);
      BurnedLater(burned, b, log, clock, now);
      LocksLater(locks, locks, log, clock, now);
      ValuesLater(values, v, log, clock, now);
      revoked, burned, values, clock := r, b, v, now;
      left := |revoked|;
    }
  }

  /** What is still good of a table of times. */
  method Swept(m: map<string, int>, now: int) returns (r: map<string, int>)
    ensures r.Keys <= m.Keys && forall k | k in r :: r[k] == m[k] && !(now > r[k])
    ensures forall k | k in m && k !in r :: now > m[k]
  {
    r := m;
    var keys := r.Keys;
    while keys != {}
      invariant keys <= r.Keys <= m.Keys
      invariant forall k | k in r :: r[k] == m[k] && (k in keys || !(now > r[k]))
      invariant forall k | k in m && k !in r :: now > m[k]
      decreases |keys|
    {
      var k :| k in keys;
      if now > r[k] {
        r := r - {k};
      }
      keys := keys - {k};
    }
  }

  /** What is still good of the held values. */
  method SweptValues(m: map<string, Held>, now: int) returns (r: map<string, Held>)
    ensures r.Keys <= m.Keys && forall k | k in r :: r[k] == m[k] && !(now > r[k].until)
    ensures forall k | k in m && k !in r :: now > m[k].until
  {
    r := m;
    var keys := r.Keys;
    while keys != {}
      invariant keys <= r.Keys <= m.Keys
      invariant forall k | k in r :: r[k] == m[k] && (k in keys || !(now > r[k].until))
      invariant forall k | k in m && k !in r :: now > m[k].until
      decreases |keys|
    {
      var k :| k in keys;
      if now > r[k].until {
        r := r - {k};
      }
      keys := keys - {k};
    }
  }
}
