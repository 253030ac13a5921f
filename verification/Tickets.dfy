/** Checking an answered challenge (cmd/http/verify.go, internal/token/token.go): a ticket opens until
    its whole-second expiry, the answer is limited, checked and its nonce burned, and only the first
    burn is granted. Several checks of one ticket may run at once, their roster calls interleaved. */
module Tickets {
  import opened Bytes
  import opened Roster

  // ---- tickets ----

  /** Clock readings are in nanoseconds. */
  const SECOND := 1_000_000_000

  function Unix(t: int): int {
    t / SECOND
  }

  datatype Ticket = Ticket(nonce: string, returnTo: string, profile: string, attempt: int, expiry: int,
                           net: string, ua: string)

  datatype Opened = Valid(ticket: Ticket) | Unsealed | Malformed | Expired(ticket: Ticket)

  /** What unsealing gave, if anything, judged at a time. */
  function OpenTicket(plain: Option<Ticket>, now: int): Opened {
    match plain
    case None => Unsealed
    case Some(t) =>
      if t.nonce == "" || t.expiry == 0 then Malformed
      else if Unix(now) >= t.expiry then Expired(t)
      else Valid(t)
  }

  function ExpiryOf(issued: int, ttl: int): int {
    Unix(issued + ttl)
  }

  /** A ticket that unseals to one with a nonce and an expiry is good before the start of its expiry second. */
  lemma TicketDecides(plain: Option<Ticket>, now: int)
    ensures plain == None ==> OpenTicket(plain, now) == Unsealed
    ensures plain.Some? ==>
              var t := plain.value;
              OpenTicket(plain, now) ==
              if t.nonce == "" || t.expiry == 0 then Malformed
              else if now < t.expiry * 1_000_000_000 then Valid(t)
              else Expired(t)
  {
  }

  /** A ticket opens before the start of its expiry second, and never past its full lifetime: a burn
      made any time since it was issued is still remembered. */
  lemma OpensWithinLifetime(t: Ticket, issued: int, ttl: int, now: int)
    requires t.expiry == ExpiryOf(issued, ttl)
    ensures OpenTicket(Some(t), now).Valid? <==> t.nonce != "" && t.expiry != 0 && now < t.expiry * SECOND
    ensures OpenTicket(Some(t), now).Valid? ==> now < issued + ttl
    ensures issued + ttl <= now ==> Unix(now) >= t.expiry
  {
  }

  // ---- one check, step by step ----

  datatype Outcome = Solved | Wrong | Unavailable

  datatype OnError = Fallback | Allow | Deny

  datatype Rate = Rate(n: int, per: int)

  /** A submitted answer and the profile's settings. The chain of providers may fail to build; which
      provider judges, and how it answers, is the provider's own business. */
  datatype Request = Request(
    ticket: Ticket, issued: int, ttl: int,
    subnet: string, limit: Rate, fp: string, farmAt: int, farmWindow: int, clearanceTtl: int,
    chain: Option<seq<string>>, kind: string, value: string, answers: map<string, string>,
    verify: (string, string) -> Outcome, onError: string -> OnError)

  datatype Result =
    | Cleared(provider: string, flagged: bool)
    | NoTicket | Limited | Banned | Internal | Failed | Refused | Down(skip: string) | Replay

  datatype Stage =
    | Begun
    | InLimit
    | NotBanned
    | Burning(provider: string, flagged: bool)
    | Passed(provider: string, flagged: bool)
    | Farming(provider: string, flagged: bool, since: int)
    | Done(result: Result)

  function VerifyScope(q: Request): string {
    "verify:" + q.subnet
  }

  function FpScope(q: Request): string {
    "fp:" + q.fp
  }

  function NonceKey(nonce: string): string {
    Named("nonce", nonce)
  }

  /** Whether one more try is within the limit. A limit that is off counts nothing. */
  function AfterLimit(log: Log, now: int, q: Request): (Stage, Log) {
    if q.limit.n <= 0 then (InLimit, log)
    else
      (if FailCount(log, VerifyScope(q), now, q.limit.per) <= q.limit.n then InLimit else Done(Limited),
       log + [Entry(now, Call.Fail(VerifyScope(q), q.limit.per))])
  }

  function AfterBan(log: Log, now: int, q: Request): Stage {
    if q.fp != "" && IsRevoked(log, FpScope(q), now) then Done(Banned) else NotBanned
  }

  /** The first provider of the chain the form answers, unless a value came with the request. */
  function Answered(chain: seq<string>, q: Request): (string, string) {
    if q.value != "" || chain == [] then (q.kind, q.value)
    else if chain[0] in q.answers && q.answers[chain[0]] != "" then (chain[0], q.answers[chain[0]])
    else Answered(chain[1..], q)
  }

  function Judge(chain: seq<string>, kind: string): string
    requires chain != []
  {
    if kind in chain then kind else chain[0]
  }

  function AfterVerify(q: Request): Stage {
    if q.chain.None? || q.chain.value == [] then Done(Internal)
    else
      var (kind, value) := Answered(q.chain.value, q);
      var judge := Judge(q.chain.value, kind);
      match q.verify(judge, value)
      case Solved => Burning(judge, false)
      case Wrong => Done(Failed)
      case Unavailable =>
        match q.onError(judge)
        case Allow => Burning(judge, true)
        case Deny => Done(Refused)
        case Fallback => Done(Down(judge))
  }

  function AfterBurn(log: Log, now: int, q: Request, s: Stage): (Stage, Log)
    requires s.Burning?
  {
    (if BurnsFirst(log, NonceKey(q.ticket.nonce), now) then Passed(s.provider, s.flagged) else Done(Replay),
     log + [Entry(now, Call.Burn(NonceKey(q.ticket.nonce), q.ttl))])
  }

  /** A clearance granted to a known fingerprint is counted, if the profile counts them. */
  function AfterCount(log: Log, now: int, q: Request): Log {
    if q.fp == "" || q.farmAt <= 0 then log else log + [Entry(now, Call.Fail(FpScope(q), q.farmWindow))]
  }

  /** Whether the count finds the fingerprint collecting too many. */
  predicate Farms(log: Log, now: int, q: Request) {
    q.fp != "" && q.farmAt > 0 && FailCount(log, FpScope(q), now, q.farmWindow) >= q.farmAt
  }

  /** The fingerprint is then revoked for as long as the clearance, granted at an earlier reading, lives. */
  function AfterRevoke(log: Log, now: int, q: Request, since: int): Log {
    log + [Entry(now, Call.Revoke(FpScope(q), since + q.clearanceTtl))]
  }

  /** A grant that nothing interrupts, from its three clock readings. */
  function AfterGrant(log: Log, q: Request, since: int, countAt: int, revokeAt: int): Log {
    var counted := AfterCount(log, countAt, q);
    if Farms(log, countAt, q) then AfterRevoke(counted, revokeAt, q, since) else counted
  }

  /** A check that nothing interrupts, from its three clock readings. */
  function Checked(log: Log, q: Request, limitAt: int, banAt: int, burnAt: int): (Stage, Log) {
    var (s, l) := AfterLimit(log, limitAt, q);
    if s.Done? then (s, l)
    else if AfterBan(l, banAt, q).Done? then (AfterBan(l, banAt, q), l)
    else
      var v := AfterVerify(q);
      if v.Burning? then AfterBurn(l, burnAt, q, v) else (v, l)
  }

  // ---- how a check ends ----

  predicate FilledIn(q: Request, kind: string) {
    kind in q.answers && q.answers[kind] != ""
  }

  /** The first provider of the chain whose own field was filled in. */
  ghost predicate FirstFilled(q: Request, chain: seq<string>, i: nat) {
    i < |chain| && FilledIn(q, chain[i]) && forall j | 0 <= j < i :: !FilledIn(q, chain[j])
  }

  /** Who judges, and what: the value that came with the request goes to the provider it names, or to the chain's
      first if the chain has no such provider. Without a value the first provider whose own field was filled in
      gets that field, whichever provider was named. */
  ghost predicate JudgedBy(q: Request, judge: string, value: string) {
    && q.chain.Some? && q.chain.value != []
    && var chain := q.chain.value;
    && (q.value == "" ==> forall i: nat | FirstFilled(q, chain, i) :: judge == chain[i] && value == q.answers[chain[i]])
    && (q.value != "" || (forall i: nat :: !FirstFilled(q, chain, i)) ==>
          && value == q.value
          && (q.kind in chain ==> judge == q.kind)
          && (q.kind !in chain ==> judge == chain[0]))
  }

  lemma JudgeDecides(q: Request)
    requires q.chain.Some? && q.chain.value != []
    ensures var (kind, value) := Answered(q.chain.value, q); JudgedBy(q, Judge(q.chain.value, kind), value)
  {
    hide FirstFilled;
    if q.value == "" {
      AnsweredFirst(q.chain.value, q);
    } else {
      assert Answered(q.chain.value, q) == (q.kind, q.value);
    }
  }

  lemma {:induction false} AnsweredFirst(chain: seq<string>, q: Request)
    requires q.value == ""
    ensures forall i: nat | FirstFilled(q, chain, i) ::
              chain[i] in chain && Answered(chain, q) == (chain[i], q.answers[chain[i]])
    ensures (forall i: nat :: !FirstFilled(q, chain, i)) ==> Answered(chain, q) == (q.kind, q.value)
  {
    if chain != [] && !FilledIn(q, chain[0]) {
      AnsweredFirst(chain[1..], q);
      forall i: nat ensures FirstFilled(q, chain, i) <==> i > 0 && FirstFilled(q, chain[1..], i - 1) {
        FirstOfRest(q, chain, i);
      }
      forall i: nat | FirstFilled(q, chain, i)
        ensures chain[i] in chain && Answered(chain, q) == (chain[i], q.answers[chain[i]])
      {
        assert FirstFilled(q, chain[1..], i - 1) && chain[1..][i - 1] == chain[i];
      }
      assert forall i: nat | FirstFilled(q, chain[1..], i) :: FirstFilled(q, chain, i + 1);
    } else if chain != [] {
      forall i: nat | FirstFilled(q, chain, i) ensures i == 0 {
        OneFirst(q, chain, i, 0);
      }
    }
  }

  lemma OneFirst(q: Request, chain: seq<string>, i: nat, j: nat)
    requires FirstFilled(q, chain, i) && FirstFilled(q, chain, j)
    ensures i == j
  {
  }

  lemma FirstOfRest(q: Request, chain: seq<string>, i: nat)
    requires chain != [] && !FilledIn(q, chain[0])
    ensures FirstFilled(q, chain, i) <==> i > 0 && FirstFilled(q, chain[1..], i - 1)
  {
    var rest := chain[1..];
    assert forall j | 0 <= j < |rest| :: rest[j] == chain[j + 1];
    assert forall j | 0 < j < |chain| :: chain[j] == rest[j - 1];
  }

  /** A check nothing interrupts, end by end: too many tries; a revoked fingerprint; no chain of providers; then what
      the judge says of the answer, where one that is down may let through, refuse, or be skipped; and at last the
      nonce, which only its first burn passes. The roster is told of the try, if tries are counted, and of the burn,
      and of nothing else. */
  lemma CheckDecides(log: Log, q: Request, limitAt: int, banAt: int, burnAt: int)
    returns (judge: string, value: string)
    ensures q.chain.Some? && q.chain.value != [] ==> JudgedBy(q, judge, value)
    ensures var (s, after) := Checked(log, q, limitAt, banAt, burnAt);
            && s ==
               (if q.limit.n > 0 && FailCount(log, "verify:" + q.subnet, limitAt, q.limit.per) > q.limit.n
                then Done(Limited)
                else if q.fp != "" && IsRevoked(log, "fp:" + q.fp, banAt) then Done(Banned)
                else if q.chain.None? || q.chain.value == [] then Done(Internal)
                else if q.verify(judge, value) == Wrong then Done(Failed)
                else if q.verify(judge, value) == Unavailable && q.onError(judge) == Deny then Done(Refused)
                else if q.verify(judge, value) == Unavailable && q.onError(judge) == Fallback then Done(Down(judge))
                else if BurnsFirst(log, "nonce:" + q.ticket.nonce, burnAt)
                then Passed(judge, q.verify(judge, value) == Unavailable)
                else Done(Replay))
            && after ==
               log + (if q.limit.n > 0 then [Entry(limitAt, Call.Fail("verify:" + q.subnet, q.limit.per))] else [])
                   + (if s.Passed? || s == Done(Replay)
                      then [Entry(burnAt, Call.Burn("nonce:" + q.ticket.nonce, q.ttl))] else [])
  {
    hide IsRevoked, BurnsFirst, FailCount, Answered, Judge, JudgedBy;
    NonceNamed(q.ticket.nonce);
    judge, value := "", "";
    if q.chain.Some? && q.chain.value != [] {
      JudgeDecides(q);
      var answered := Answered(q.chain.value, q);
      judge, value := Judge(q.chain.value, answered.0), answered.1;
    }
    var counted := AfterLimit(log, limitAt, q).1;
    if counted != log {
      var e := Entry(limitAt, Call.Fail(VerifyScope(q), q.limit.per));
      FailTellsNothing(log, e, FpScope(q), banAt, NonceKey(q.ticket.nonce), burnAt);
    }
    assert log + [] == log && counted + [] == counted;
  }

  lemma NonceNamed(nonce: string)
    ensures NonceKey(nonce) == "nonce:" + nonce
  {
  }

  /** Only one provider and one value can be judged. */
  lemma OneJudge(q: Request, a: string, v: string, b: string, w: string)
    requires JudgedBy(q, a, v) && JudgedBy(q, b, w)
    ensures a == b && v == w
  {
    hide FirstFilled;
    if q.value == "" && exists i: nat :: FirstFilled(q, q.chain.value, i) {
      var i: nat :| FirstFilled(q, q.chain.value, i);
    }
  }

  /** A check on its own is cleared exactly when it is within its limit, the fingerprint is not revoked,
      the provider that judges is satisfied, or is down and set to let through, and the nonce was not burned
      before. */
  lemma ClearedIff(log: Log, q: Request, limitAt: int, banAt: int, burnAt: int)
    ensures var s := Checked(log, q, limitAt, banAt, burnAt).0;
            s.Passed? <==>
            && (q.limit.n <= 0 || FailCount(log, "verify:" + q.subnet, limitAt, q.limit.per) <= q.limit.n)
            && !(q.fp != "" && IsRevoked(log, "fp:" + q.fp, banAt))
            && (exists judge, value ::
                  && JudgedBy(q, judge, value)
                  && (|| q.verify(judge, value) == Solved
                      || (q.verify(judge, value) == Unavailable && q.onError(judge) == Allow)))
            && BurnsFirst(log, "nonce:" + q.ticket.nonce, burnAt)
    ensures var s := Checked(log, q, limitAt, banAt, burnAt).0;
            s.Passed? ==> exists value :: JudgedBy(q, s.provider, value) &&
                            (s.flagged <==> q.verify(s.provider, value) == Unavailable)
  {
    hide IsRevoked, BurnsFirst, FailCount, Checked, JudgedBy;
    var judge, value := CheckDecides(log, q, limitAt, banAt, burnAt);
    forall b, w | JudgedBy(q, b, w) ensures b == judge && w == value && q.chain.Some? && q.chain.value != [] {
      ChainOf(q, b, w);
      OneJudge(q, judge, value, b, w);
    }
  }

  lemma ChainOf(q: Request, judge: string, value: string)
    requires JudgedBy(q, judge, value)
    ensures q.chain.Some? && q.chain.value != []
  {
  }

  /** A grant tells the roster of nothing without a fingerprint, or where clearances are not counted. Else it counts
      one, over the profile's window, and revokes the fingerprint for the clearance's lifetime once the count is up. */
  lemma GrantDecides(log: Log, q: Request, since: int, countAt: int, revokeAt: int)
    ensures AfterGrant(log, q, since, countAt, revokeAt) ==
            if q.fp == "" || q.farmAt <= 0 then log
            else if FailCount(log, "fp:" + q.fp, countAt, q.farmWindow) < q.farmAt
            then log + [Entry(countAt, Call.Fail("fp:" + q.fp, q.farmWindow))]
            else log + [Entry(countAt, Call.Fail("fp:" + q.fp, q.farmWindow)),
                        Entry(revokeAt, Call.Revoke("fp:" + q.fp, since + q.clearanceTtl))]
  {
    hide FailCount;
  }

  /** Counting a try changes neither revocations nor burns. */
  lemma FailTellsNothing(log: Log, e: Entry, sid: string, at: int, key: string, burnAt: int)
    requires e.call.Fail?
    ensures IsRevoked(log + [e], sid, at) == IsRevoked(log, sid, at)
    ensures BurnsFirst(log + [e], key, burnAt) == BurnsFirst(log, key, burnAt)
  {
    hide RevokedUntil, BurnedUntil;
    OneMoreCall(log, e);
  }

  lemma {:induction false} RevokedLater(log: Log, more: Log, sid: string)
    ensures RevokedUntil(log + more, sid) ==
            if RevokedUntil(more, sid).Some? then RevokedUntil(more, sid) else RevokedUntil(log, sid)
  {
    if more == [] {
      assert log + more == log;
    } else {
      assert (log + more)[..|log + more| - 1] == log + more[..|more| - 1];
      RevokedLater(log, more[..|more| - 1], sid);
    }
  }

  lemma {:induction false} RevocationThere(more: Log, sid: string)
    ensures var u := RevokedUntil(more, sid);
            u.Some? ==> exists i :: 0 <= i < |more| && more[i].call == Call.Revoke(sid, u.value)
  {
    if more != [] {
      RevocationThere(more[..|more| - 1], sid);
    }
  }

  /** When the ban a grant made ends, given what the roster was told since. */
  function BanEnds(q: Request, since: int, more: Log): int {
    match RevokedUntil(more, FpScope(q))
    case Some(u) => u
    case None => since + q.clearanceTtl
  }

  ghost predicate NoneEndsBy(more: Log, sid: string, at: int) {
    forall i | 0 <= i < |more| && more[i].call.Revoke? && more[i].call.sid == sid :: at < more[i].call.until
  }

  /** Whatever the roster is told after a grant has revoked its fingerprint: a check that carries it is banned
      exactly until the last revocation since, or else the grant's own, ends; so as long as no revocation
      since ends earlier, at least while the clearance lives. */
  lemma FarmedIsBanned(log: Log, now: int, q: Request, since: int, more: Log, other: Request, at: int)
    requires q.fp != "" && other.fp == q.fp
    ensures AfterBan(AfterRevoke(log, now, q, since) + more, at, other) == Done(Banned) <==>
            at < BanEnds(q, since, more)
    ensures at < since + q.clearanceTtl && NoneEndsBy(more, FpScope(q), at) ==> at < BanEnds(q, since, more)
  {
    hide RevokedUntil;
    OneMoreCall(log, Entry(now, Call.Revoke(FpScope(q), since + q.clearanceTtl)));
    RevokedLater(AfterRevoke(log, now, q, since), more, FpScope(q));
    RevocationThere(more, FpScope(q));
  }

  /** Counting a grant bans nobody, whatever the roster is told after it. */
  lemma CountBansNobody(log: Log, now: int, q: Request, more: Log, other: Request, at: int)
    ensures AfterBan(AfterCount(log, now, q) + more, at, other) == AfterBan(log + more, at, other)
  {
    hide RevokedUntil;
    OneMoreCall(log, Entry(now, Call.Fail(FpScope(q), q.farmWindow)));
    RevokedLater(AfterCount(log, now, q), more, FpScope(other));
    RevokedLater(log, more, FpScope(other));
  }

  class Server {
    const roster: Memory

    constructor (roster: Memory)
      ensures this.roster == roster
    {
      this.roster := roster;
    }

    method Within(rate: Rate, scope: string, now: int) returns (ok: bool)
      requires roster.Valid() && roster.clock <= now
      modifies roster
      ensures roster.Valid() && roster.clock <= now
      ensures ok <==> rate.n <= 0 || FailCount(old(roster.log), scope, now, rate.per) <= rate.n
      ensures roster.log == if rate.n <= 0 then old(roster.log)
                            else old(roster.log) + [Entry(now, Call.Fail(scope, rate.per))]
    {
      if rate.n <= 0 {
        return true;
      }
      var n := roster.Fail(scope, rate.per, now);
      ok := n <= rate.n;
    }

    method Choose(q: Request, chain: seq<string>) returns (kind: string, value: string)
      ensures (kind, value) == Answered(chain, q)
    {
      kind, value := q.kind, q.value;
      if value == "" {
        for i := 0 to |chain|
          invariant Answered(chain[i..], q) == Answered(chain, q)
        {
          if chain[i] in q.answers && q.answers[chain[i]] != "" {
            return chain[i], q.answers[chain[i]];
          }
          assert chain[i..][1..] == chain[i + 1..];
        }
      }
    }

    method Check(q: Request, limitAt: int, banAt: int, burnAt: int) returns (s: Stage)
      requires roster.Valid() && roster.clock <= limitAt <= banAt <= burnAt
      modifies roster
      ensures roster.Valid() && roster.clock <= burnAt
      ensures (s, roster.log) == Checked(old(roster.log), q, limitAt, banAt, burnAt)
    {
      hide BurnsFirst, FailCount, IsRevoked, Answered;
      var ok := Within(q.limit, VerifyScope(q), limitAt);
      if !ok {
        return Done(Limited);
      }
      if q.fp != "" {
        var banned := roster.Revoked(FpScope(q), banAt);
        if banned {
          return Done(Banned);
        }
      }
      if q.chain.None? || q.chain.value == [] {
        return Done(Internal);
      }
      var chain := q.chain.value;
      var kind, value := Choose(q, chain);
      var judge := if kind in chain then kind else chain[0];
      var flagged := false;
      match q.verify(judge, value) {
        case Unavailable =>
          match q.onError(judge) {
            case Allow => flagged := true;
            case Deny => return Done(Refused);
            case Fallback => return Done(Down(judge));
          }
        case Wrong => return Done(Failed);
        case Solved =>
      }
      var first := roster.Burn("nonce", q.ticket.nonce, q.ttl, burnAt);
      s := if first then Passed(judge, flagged) else Done(Replay);
    }

    method Grant(q: Request, since: int, countAt: int, revokeAt: int)
      requires roster.Valid() && roster.clock <= countAt <= revokeAt
      modifies roster
      ensures roster.Valid() && roster.clock <= revokeAt
      ensures roster.log == AfterGrant(old(roster.log), q, since, countAt, revokeAt)
    {
      hide FailCount, FpScope;
      if q.fp != "" && q.farmAt > 0 {
        var n := roster.Fail(FpScope(q), q.farmWindow, countAt);
        if n >= q.farmAt {
          roster.Revoke(FpScope(q), since + q.clearanceTtl, revokeAt);
        }
      }
    }
  }

  // ---- many checks at once ----

  datatype Grant = Grant(check: nat, nonce: string, burnedAt: int, ttl: int, index: nat)

  /** Where each check stands and when it opened its ticket, what the roster was told, and the
      clearances granted, each with the position of its burn among the roster's calls. */
  datatype State = State(log: Log, clock: int, stages: map<nat, Stage>, openedAt: map<nat, int>, grants: seq<Grant>)

  datatype Step =
    | Open(check: nat)
    | Limit(check: nat)
    | Ban(check: nat)
    | Verify(check: nat)
    | BurnNonce(check: nat)
    | Tally(check: nat, since: int)
    | BanFarm(check: nat)
    | Elsewhere(call: Call)
    | Idle

  type Requests = nat -> Request

  /** Whether a step can be taken at a clock reading. A ticket reaches nobody before it is issued. */
  predicate Enabled(reqs: Requests, s: State, step: Step, now: int) {
    && s.clock <= now
    && match step
       case Open(c) => c !in s.stages && reqs(c).issued <= now
       case Limit(c) => c in s.stages && s.stages[c].Begun?
       case Ban(c) => c in s.stages && s.stages[c].InLimit?
       case Verify(c) => c in s.stages && s.stages[c].NotBanned?
       case BurnNonce(c) => c in s.stages && s.stages[c].Burning?
       case Tally(c, since) => c in s.stages && s.stages[c].Passed? && c in s.openedAt && s.openedAt[c] <= since <= now
       case BanFarm(c) => c in s.stages && s.stages[c].Farming?
       case Elsewhere(call) => !call.Burn?
       case Idle => true
  }

  /** Every roster call is one step. Refreshing is Idle: it tells the roster nothing. */
  function Next(reqs: Requests, s: State, step: Step, now: int): State
    requires Enabled(reqs, s, step, now)
  {
    match step
    case Open(c) =>
      var stage := if OpenTicket(Some(reqs(c).ticket), now).Valid? then Begun else Done(NoTicket);
      s.(clock := now, stages := s.stages[c := stage], openedAt := s.openedAt[c := now])
    case Limit(c) =>
      var (stage, log) := AfterLimit(s.log, now, reqs(c));
      s.(clock := now, stages := s.stages[c := stage], log := log)
    case Ban(c) =>
      s.(clock := now, stages := s.stages[c := AfterBan(s.log, now, reqs(c))])
    case Verify(c) =>
      s.(clock := now, stages := s.stages[c := AfterVerify(reqs(c))])
    case BurnNonce(c) =>
      var (stage, log) := AfterBurn(s.log, now, reqs(c), s.stages[c]);
      var more := if stage.Passed? then [Grant(c, reqs(c).ticket.nonce, now, reqs(c).ttl, |s.log|)] else [];
      s.(clock := now, stages := s.stages[c := stage], log := log, grants := s.grants + more)
    case Tally(c, since) =>
      var done := s.stages[c];
      var stage := if Farms(s.log, now, reqs(c)) then Farming(done.provider, done.flagged, since)
                   else Done(Cleared(done.provider, done.flagged));
      s.(clock := now, stages := s.stages[c := stage], log := AfterCount(s.log, now, reqs(c)))
    case BanFarm(c) =>
      var done := s.stages[c];
      s.(clock := now, stages := s.stages[c := Done(Cleared(done.provider, done.flagged))],
         log := AfterRevoke(s.log, now, reqs(c), done.since))
    case Elsewhere(call) =>
      s.(clock := now, log := s.log + [Entry(now, call)])
    case Idle =>
      s.(clock := now)
  }

  /** The state a run from nothing leads to, if each of its steps could be taken. */
  function After(reqs: Requests, run: seq<(Step, int)>, start: int): Option<State> {
    if run == [] then Some(State([], start, map[], map[], []))
    else
      var (step, now) := run[|run| - 1];
      match After(reqs, run[..|run| - 1], start)
      case Some(s) => if Enabled(reqs, s, step, now) then Some(Next(reqs, s, step, now)) else None
      case None => None
  }

  // ---- what every run keeps ----

  ghost predicate GrantsWon(s: State) {
    forall i: nat | i < |s.grants| ::
      var g := s.grants[i];
      && g.index < |s.log| && Wins(s.log, NonceKey(g.nonce), g.index)
      && s.log[g.index] == Entry(g.burnedAt, Call.Burn(NonceKey(g.nonce), g.ttl))
  }

  ghost predicate WinsGranted(s: State) {
    forall k: nat, nonce | k < |s.log| && Wins(s.log, NonceKey(nonce), k) ::
      exists i: nat :: i < |s.grants| && s.grants[i].index == k && s.grants[i].nonce == nonce
  }

  ghost predicate GrantsOrdered(s: State) {
    forall i: nat, j: nat | i < j < |s.grants| :: s.grants[i].index < s.grants[j].index
  }

  predicate IsCleared(stage: Stage) {
    stage.Passed? || stage.Farming? || (stage.Done? && stage.result.Cleared?)
  }

  /** A grant belongs to a check whose ticket was open when it began. */
  ghost predicate GrantsOfChecks(reqs: Requests, s: State) {
    forall i: nat | i < |s.grants| ::
      var g := s.grants[i];
      && g.check in s.stages && IsCleared(s.stages[g.check])
      && g.nonce == reqs(g.check).ticket.nonce && g.ttl == reqs(g.check).ttl
      && g.check in s.openedAt && reqs(g.check).issued <= s.openedAt[g.check] <= g.burnedAt
      && OpenTicket(Some(reqs(g.check).ticket), s.openedAt[g.check]).Valid?
  }

  ghost predicate ChecksOpened(reqs: Requests, s: State) {
    forall c: nat | c in s.stages && s.stages[c] != Done(NoTicket) ::
      && c in s.openedAt && reqs(c).issued <= s.openedAt[c] <= s.clock
      && OpenTicket(Some(reqs(c).ticket), s.openedAt[c]).Valid?
  }

  /** A check is cleared exactly when it was granted, and then once. */
  ghost predicate ClearedOnce(s: State) {
    && (forall c: nat | c in s.stages && IsCleared(s.stages[c]) ::
          exists i: nat :: i < |s.grants| && s.grants[i].check == c)
    && (forall i: nat, j: nat | i < j < |s.grants| :: s.grants[i].check != s.grants[j].check)
  }

  ghost predicate Inv(reqs: Requests, s: State) {
    && InTime(s.log, s.clock)
    && GrantsWon(s) && WinsGranted(s) && GrantsOrdered(s)
    && ChecksOpened(reqs, s) && GrantsOfChecks(reqs, s) && ClearedOnce(s)
  }

  lemma NonceKeysApart(a: string, b: string)
    requires NonceKey(a) == NonceKey(b)
    ensures a == b
  {
    assert a == NonceKey(a)[6..];
    assert b == NonceKey(b)[6..];
  }

  lemma WinsStays(log: Log, more: Log, key: string, i: nat)
    requires i < |log|
    ensures Wins(log + more, key, i) == Wins(log, key, i)
  {
    assert (log + more)[..i] == log[..i];
  }

  /** Calls that burn nothing change nothing here. */
  lemma LogGrows(s: State, more: Log, now: int, t: State)
    requires t.log == s.log + more && t.grants == s.grants && t.clock == now >= s.clock
    requires InTime(s.log, s.clock) && GrantsWon(s) && WinsGranted(s)
    requires forall i | 0 <= i < |more| :: more[i].at == now && !more[i].call.Burn?
    ensures InTime(t.log, t.clock) && GrantsWon(t) && WinsGranted(t)
  {
    hide BurnsFirst;
    forall i: nat, key: string | i < |s.log| ensures Wins(t.log, key, i) == Wins(s.log, key, i) {
      WinsStays(s.log, more, key, i);
    }
  }

  /** Who wins once the log has a burn of the nonce more. */
  lemma BurnWins(log: Log, e: Entry, nonce: string)
    requires e.call.Burn? && e.call.key == NonceKey(nonce)
    ensures forall k: nat, other | k < |log| :: Wins(log + [e], NonceKey(other), k) == Wins(log, NonceKey(other), k)
    ensures forall other :: Wins(log + [e], NonceKey(other), |log|) <==>
                            other == nonce && BurnsFirst(log, NonceKey(nonce), e.at)
  {
    hide BurnsFirst, NonceKey;
    forall k: nat, other | k < |log| ensures Wins(log + [e], NonceKey(other), k) == Wins(log, NonceKey(other), k) {
      WinsStays(log, [e], NonceKey(other), k);
    }
    assert (log + [e])[..|log|] == log;
    forall other | Wins(log + [e], NonceKey(other), |log|) ensures other == nonce {
      NonceKeysApart(other, nonce);
    }
  }

  lemma BurnKeepsWon(reqs: Requests, s: State, c: nat, now: int)
    requires InTime(s.log, s.clock) && GrantsWon(s) && GrantsOrdered(s) && Enabled(reqs, s, BurnNonce(c), now)
    ensures var t := Next(reqs, s, BurnNonce(c), now);
            InTime(t.log, t.clock) && GrantsWon(t) && GrantsOrdered(t)
  {
    hide BurnsFirst, NonceKey, OpenTicket, IsCleared, Wins;
    var t := Next(reqs, s, BurnNonce(c), now);
    var nonce := reqs(c).ticket.nonce;
    BurnWins(s.log, Entry(now, Call.Burn(NonceKey(nonce), reqs(c).ttl)), nonce);
    assert forall i: nat | i < |s.grants| :: t.grants[i] == s.grants[i] && s.grants[i].index < |s.log|;
  }

  lemma BurnKeepsGranted(reqs: Requests, s: State, c: nat, now: int)
    requires WinsGranted(s) && Enabled(reqs, s, BurnNonce(c), now)
    ensures WinsGranted(Next(reqs, s, BurnNonce(c), now))
  {
    hide BurnsFirst, NonceKey, OpenTicket, IsCleared, Wins;
    var t := Next(reqs, s, BurnNonce(c), now);
    var nonce := reqs(c).ticket.nonce;
    BurnWins(s.log, Entry(now, Call.Burn(NonceKey(nonce), reqs(c).ttl)), nonce);
    forall k: nat, other | k < |t.log| && Wins(t.log, NonceKey(other), k)
      ensures exists i: nat :: i < |t.grants| && t.grants[i].index == k && t.grants[i].nonce == other
    {
      if k < |s.log| {
        var i: nat :| i < |s.grants| && s.grants[i].index == k && s.grants[i].nonce == other;
        assert t.grants[i] == s.grants[i];
      } else {
        assert t.grants[|s.grants|].index == k;
      }
    }
  }

  /** A step that burns no nonce tells the roster of no burn, and grants nothing. */
  lemma StepTells(reqs: Requests, s: State, step: Step, now: int) returns (more: Log)
    requires Enabled(reqs, s, step, now) && !step.BurnNonce?
    ensures var t := Next(reqs, s, step, now);
            t.log == s.log + more && t.grants == s.grants && t.clock == now >= s.clock
    ensures forall i | 0 <= i < |more| :: more[i].at == now && !more[i].call.Burn?
  {
    hide OpenTicket, AfterBan, AfterVerify, FailCount, FpScope, VerifyScope;
    var t := Next(reqs, s, step, now);
    more := t.log[|s.log|..];
    assert t.log == s.log + more;
  }

  lemma StepKeepsLog(reqs: Requests, s: State, step: Step, now: int)
    requires Inv(reqs, s) && Enabled(reqs, s, step, now)
    ensures var t := Next(reqs, s, step, now);
            InTime(t.log, t.clock) && GrantsWon(t) && WinsGranted(t) && GrantsOrdered(t)
  {
    hide Next, Enabled, InTime, GrantsWon, WinsGranted, ChecksOpened, GrantsOfChecks, ClearedOnce;
    if step.BurnNonce? {
      BurnKeepsWon(reqs, s, step.check, now);
      BurnKeepsGranted(reqs, s, step.check, now);
    } else {
      var more := StepTells(reqs, s, step, now);
      LogGrows(s, more, now, Next(reqs, s, step, now));
    }
  }

  lemma StepKeepsOpened(reqs: Requests, s: State, step: Step, now: int)
    requires ChecksOpened(reqs, s) && Enabled(reqs, s, step, now)
    ensures ChecksOpened(reqs, Next(reqs, s, step, now))
  {
    hide OpenTicket, AfterLimit, AfterBan, AfterVerify, AfterBurn, AfterCount, AfterRevoke, Farms;
  }

  /** What a step does to the grants and to which checks are cleared. */
  lemma StepGrants(reqs: Requests, s: State, step: Step, now: int)
    requires Enabled(reqs, s, step, now)
    ensures var t := Next(reqs, s, step, now);
            && (forall c | c in s.openedAt :: c in t.openedAt && (c in s.stages ==> t.openedAt[c] == s.openedAt[c]))
            && (forall c | c in s.stages && IsCleared(s.stages[c]) :: c in t.stages && IsCleared(t.stages[c]))
    ensures var t := Next(reqs, s, step, now);
            || (&& t.grants == s.grants
                && forall c | c in t.stages && IsCleared(t.stages[c]) :: c in s.stages && IsCleared(s.stages[c]))
            || (&& step.BurnNonce?
                && (var q := reqs(step.check);
                    t.grants == s.grants + [Grant(step.check, q.ticket.nonce, now, q.ttl, |s.log|)])
                && step.check in t.stages && IsCleared(t.stages[step.check])
                && forall c | c in t.stages && IsCleared(t.stages[c]) && c != step.check ::
                     c in s.stages && IsCleared(s.stages[c]))
  {
    hide OpenTicket, BurnsFirst, FailCount, IsRevoked, Answered;
  }

  lemma StepKeepsGrants(reqs: Requests, s: State, step: Step, now: int)
    requires Enabled(reqs, s, step, now)
    requires ChecksOpened(reqs, s) && GrantsOfChecks(reqs, s)
    ensures GrantsOfChecks(reqs, Next(reqs, s, step, now))
  {
    StepGrants(reqs, s, step, now);
    var t := Next(reqs, s, step, now);
    assert step.BurnNonce? ==> t.openedAt == s.openedAt;
    hide OpenTicket, IsCleared, Next;
    assert forall i: nat | i < |s.grants| :: t.grants[i] == s.grants[i];
  }

  lemma StepKeepsOnce(reqs: Requests, s: State, step: Step, now: int)
    requires Enabled(reqs, s, step, now)
    requires GrantsOfChecks(reqs, s) && ClearedOnce(s)
    ensures ClearedOnce(Next(reqs, s, step, now))
  {
    StepGrants(reqs, s, step, now);
    var t := Next(reqs, s, step, now);
    hide OpenTicket, Next;
    assert forall i: nat | i < |s.grants| :: t.grants[i] == s.grants[i] && IsCleared(s.stages[s.grants[i].check]);
    if |t.grants| > |s.grants| {
      assert t.grants[|s.grants|].check == step.check;
    }
  }

  lemma {:induction false} RunKeeps(reqs: Requests, run: seq<(Step, int)>, start: int)
    requires After(reqs, run, start).Some?
    ensures Inv(reqs, After(reqs, run, start).value)
  {
    if run != [] {
      hide Next, Enabled;
      var n := |run| - 1;
      RunKeeps(reqs, run[..n], start);
      var s := After(reqs, run[..n], start).value;
      StepKeepsLog(reqs, s, run[n].0, run[n].1);
      StepKeepsOpened(reqs, s, run[n].0, run[n].1);
      StepKeepsGrants(reqs, s, run[n].0, run[n].1);
      StepKeepsOnce(reqs, s, run[n].0, run[n].1);
    }
  }

  // ---- at most one clearance per ticket ----

  /** Tickets as they are issued: the expiry follows from the issue and the lifetime, and a nonce
      belongs to one ticket. */
  ghost predicate Genuine(reqs: Requests) {
    && (forall c :: reqs(c).ticket.expiry == ExpiryOf(reqs(c).issued, reqs(c).ttl))
    && (forall c, d | reqs(c).ticket.nonce == reqs(d).ticket.nonce ::
          reqs(c).ticket == reqs(d).ticket && reqs(c).issued == reqs(d).issued && reqs(c).ttl == reqs(d).ttl)
  }

  lemma WinsApart(log: Log, clock: int, key: string, i: nat, j: nat)
    requires InTime(log, clock) && i < j < |log| && Wins(log, key, i) && Wins(log, key, j)
    ensures log[i].at + log[i].call.ttl <= log[j].at
  {
    hide BurnsFirst;
    WinsIff(log[..j], key, log[j].at, log[j].at);
    assert log[..j][..i] == log[..i];
    assert Wins(log[..j], key, i);
  }

  /** In any run: two clearances for one nonce are at least the first burn's lifetime apart. */
  lemma GrantsApart(reqs: Requests, run: seq<(Step, int)>, start: int, i: nat, j: nat)
    requires After(reqs, run, start).Some?
    requires var s := After(reqs, run, start).value;
             i < j < |s.grants| && s.grants[i].nonce == s.grants[j].nonce
    ensures var s := After(reqs, run, start).value;
            s.grants[i].burnedAt + s.grants[i].ttl <= s.grants[j].burnedAt
  {
    hide After, OpenTicket, Wins, NonceKey, InTime, ChecksOpened, GrantsOfChecks, ClearedOnce, WinsGranted;
    RunKeeps(reqs, run, start);
    var s := After(reqs, run, start).value;
    WinsApart(s.log, s.clock, NonceKey(s.grants[i].nonce), s.grants[i].index, s.grants[j].index);
  }

  /** In any interleaving of any number of checks, whatever else the roster is asked and whenever it
      is refreshed, the on_error allow path included: a second clearance for a nonce is burned only
      after its ticket has expired, and so strictly later than its own check opened it. A check that
      opens and burns at one clock reading is never a second clearance. */
  lemma SecondGrantIsLate(reqs: Requests, run: seq<(Step, int)>, start: int, i: nat, j: nat)
    requires Genuine(reqs) && After(reqs, run, start).Some?
    requires var s := After(reqs, run, start).value;
             i < j < |s.grants| && s.grants[i].nonce == s.grants[j].nonce
    ensures var s := After(reqs, run, start).value;
            var g := s.grants[j];
            && Unix(g.burnedAt) >= reqs(g.check).ticket.expiry
            && g.check in s.openedAt && s.openedAt[g.check] < g.burnedAt
  {
    hide After;
    RunKeeps(reqs, run, start);
    GrantsApart(reqs, run, start, i, j);
    var s := After(reqs, run, start).value;
    var (a, b) := (s.grants[i], s.grants[j]);
    var q := reqs(b.check);
    assert reqs(a.check).ticket.nonce == q.ticket.nonce;
    OpensWithinLifetime(q.ticket, q.issued, q.ttl, b.burnedAt);
    OpensWithinLifetime(q.ticket, q.issued, q.ttl, s.openedAt[b.check]);
  }

  /** A check about to burn is cleared exactly when every earlier clearance for its nonce has run out
      its lifetime in the roster. */
  lemma GrantedIff(reqs: Requests, run: seq<(Step, int)>, start: int, c: nat, now: int)
    requires After(reqs, run, start).Some?
    requires Enabled(reqs, After(reqs, run, start).value, BurnNonce(c), now)
    ensures var s := After(reqs, run, start).value;
            Next(reqs, s, BurnNonce(c), now).stages[c].Passed? <==>
            forall i: nat | i < |s.grants| && s.grants[i].nonce == reqs(c).ticket.nonce ::
              s.grants[i].burnedAt + s.grants[i].ttl <= now
  {
    hide After, OpenTicket, BurnsFirst, NonceKey, Wins, InTime, ChecksOpened, GrantsOfChecks, ClearedOnce,
      GrantsOrdered;
    RunKeeps(reqs, run, start);
    var s := After(reqs, run, start).value;
    var nonce := reqs(c).ticket.nonce;
    WinsIff(s.log, NonceKey(nonce), s.clock, now);
    forall k: nat | k < |s.log| && Wins(s.log, NonceKey(nonce), k)
      ensures exists i: nat :: i < |s.grants| && s.grants[i].nonce == nonce &&
                s.log[k] == Entry(s.grants[i].burnedAt, Call.Burn(NonceKey(nonce), s.grants[i].ttl))
    {
      var i: nat :| i < |s.grants| && s.grants[i].index == k && s.grants[i].nonce == nonce;
    }
  }

  // ---- a check that nothing interrupts, and one that is too slow ----

  /** A check's own steps in a row, until it is decided or burned. */
  function Alone(reqs: Requests, s: State, c: nat, limitAt: int, banAt: int, burnAt: int): State
    requires c in s.stages && s.stages[c].Begun? && s.clock <= limitAt <= banAt <= burnAt
  {
    var limited := Next(reqs, s, Limit(c), limitAt);
    if !limited.stages[c].InLimit? then limited
    else
      var asked := Next(reqs, limited, Ban(c), banAt);
      if !asked.stages[c].NotBanned? then asked
      else
        var judged := Next(reqs, asked, Verify(c), banAt);
        if !judged.stages[c].Burning? then judged else Next(reqs, judged, BurnNonce(c), burnAt)
  }

  /** The sequential check is the interleaved one when nothing comes between. */
  lemma CheckAlone(reqs: Requests, s: State, c: nat, limitAt: int, banAt: int, burnAt: int)
    requires c in s.stages && s.stages[c].Begun? && s.clock <= limitAt <= banAt <= burnAt
    ensures var t := Alone(reqs, s, c, limitAt, banAt, burnAt);
            && c in t.stages && (t.stages[c], t.log) == Checked(s.log, reqs(c), limitAt, banAt, burnAt)
            && (IsCleared(t.stages[c]) ==>
                  t.grants == s.grants + [Grant(c, reqs(c).ticket.nonce, burnAt, reqs(c).ttl, |t.log| - 1)])
            && (!IsCleared(t.stages[c]) ==> t.grants == s.grants)
  {
    hide BurnsFirst, FailCount, IsRevoked, Answered;
  }

  /** So is a grant; either way the check ends with its clearance. */
  lemma GrantAlone(reqs: Requests, s: State, c: nat, since: int, countAt: int, revokeAt: int)
    requires Enabled(reqs, s, Tally(c, since), countAt) && countAt <= revokeAt
    ensures var t := Next(reqs, s, Tally(c, since), countAt);
            var u := if t.stages[c].Farming? then Next(reqs, t, BanFarm(c), revokeAt) else t;
            && u.log == AfterGrant(s.log, reqs(c), since, countAt, revokeAt)
            && u.stages[c] == Done(Cleared(s.stages[c].provider, s.stages[c].flagged)) && u.grants == s.grants
  {
    hide FailCount;
  }

  lemma OneMoreStep(reqs: Requests, run: seq<(Step, int)>, start: int, step: Step, now: int)
    requires After(reqs, run, start).Some?
    requires Enabled(reqs, After(reqs, run, start).value, step, now)
    ensures After(reqs, run + [(step, now)], start) == Some(Next(reqs, After(reqs, run, start).value, step, now))
  {
    assert (run + [(step, now)])[..|run|] == run;
  }

  const MINUTE := 60 * SECOND

  /** Nonces and fingerprints are 32 hexadecimal digits. */
  const NONCES: seq<string> :=
    ["0123456789abcdef0123456789abcde0", "0123456789abcdef0123456789abcde1", "0123456789abcdef0123456789abcde2"]

  const FINGERPRINT := "fedcba9876543210fedcba9876543210"

  /** A check against an outside service, which takes a token of its own making; or is down, and set to let
      through. */
  function SlowRequest(c: nat, down: bool): Request {
    Request(Ticket(NONCES[0], "/", "web", 1, 60, "", ""), 0, MINUTE, "", Rate(0, 0), "", 0, 0, 10 * MINUTE,
            Some(["turnstile"]), "turnstile", if c == 0 then "a" else "b", map[],
            (kind, token) => if down then Unavailable else if token == "a" || token == "b" then Solved else Wrong,
            kind => Allow)
  }

  lemma Judged(c: nat, down: bool)
    ensures AfterVerify(SlowRequest(c, down)) == Burning("turnstile", down)
  {
    var q := SlowRequest(c, down);
    assert Answered(["turnstile"], q) == (q.kind, q.value);
    assert Judge(["turnstile"], q.kind) == "turnstile";
  }

  lemma OpenedAndJudged(reqs: Requests, run: seq<(Step, int)>, s: State, c: nat, down: bool, now: int)
    returns (longer: seq<(Step, int)>)
    requires After(reqs, run, 0) == Some(s) && reqs(c) == SlowRequest(c, down)
    requires c !in s.stages && s.clock <= now && 0 <= now < MINUTE
    ensures After(reqs, longer, 0) ==
            Some(s.(clock := now, stages := s.stages[c := Burning("turnstile", down)],
                    openedAt := s.openedAt[c := now]))
  {
    hide After, AfterVerify;
    Judged(c, down);
    longer := FourSteps(reqs, run, s, c, now);
    var t := After(reqs, longer, 0).value;
    assert t.stages == s.stages[c := Burning("turnstile", down)];
  }

  /** A check's way to its provider's answer, with limits and bans off. */
  lemma FourSteps(reqs: Requests, run: seq<(Step, int)>, s: State, c: nat, now: int)
    returns (longer: seq<(Step, int)>)
    requires After(reqs, run, 0) == Some(s) && c !in s.stages && s.clock <= now && reqs(c).issued <= now
    requires OpenTicket(Some(reqs(c).ticket), now).Valid? && reqs(c).limit.n <= 0
    requires reqs(c).fp == "" || !IsRevoked(s.log, FpScope(reqs(c)), now)
    ensures After(reqs, longer, 0) ==
            Some(s.(clock := now, stages := s.stages[c := AfterVerify(reqs(c))], openedAt := s.openedAt[c := now]))
  {
    hide After, AfterVerify, OpenTicket, IsRevoked;
    var a := Next(reqs, s, Open(c), now);
    OneMoreStep(reqs, run, 0, Open(c), now);
    longer := run + [(Open(c), now)];
    var b := Next(reqs, a, Limit(c), now);
    OneMoreStep(reqs, longer, 0, Limit(c), now);
    longer := longer + [(Limit(c), now)];
    var d := Next(reqs, b, Ban(c), now);
    OneMoreStep(reqs, longer, 0, Ban(c), now);
    longer := longer + [(Ban(c), now)];
    OneMoreStep(reqs, longer, 0, Verify(c), now);
    longer := longer + [(Verify(c), now)];
    assert Next(reqs, d, Verify(c), now).stages == s.stages[c := AfterVerify(reqs(c))];
  }

  /** The margin is real: with a one-minute ticket, a second check that opens it in its last second and
      whose provider takes two seconds, to accept another token or to fail where failing lets through, is
      granted again. */
  lemma SlowCheckGrantsTwice(down: bool) returns (reqs: Requests, run: seq<(Step, int)>)
    ensures Genuine(reqs) && After(reqs, run, 0).Some?
    ensures var s := After(reqs, run, 0).value;
            |s.grants| == 2 && s.grants[0].nonce == s.grants[1].nonce && s.grants[0].check != s.grants[1].check
  {
    reqs := (c: nat) => SlowRequest(c, down);
    var s;
    run, s := FirstGranted(reqs, down);
    hide After, Burns, BurnsFirst;
    run := OpenedAndJudged(reqs, run, s, 1, down, 59 * SECOND);
    s := After(reqs, run, 0).value;
    BurnsAgain(s.log);
    OneMoreStep(reqs, run, 0, BurnNonce(1), 61 * SECOND);
    run := run + [(BurnNonce(1), 61 * SECOND)];
  }

  /** The first check's burn is the only call. */
  predicate Burns(log: Log) {
    log == [Entry(0, Call.Burn(NonceKey(NONCES[0]), MINUTE))]
  }

  lemma BurnsAgain(log: Log)
    requires Burns(log)
    ensures BurnsFirst(log, NonceKey(NONCES[0]), 61 * SECOND)
  {
    assert log[..|log| - 1] == [];
    assert BurnedUntil(log, NonceKey(NONCES[0])) == Some(MINUTE);
  }

  lemma FirstGranted(reqs: Requests, down: bool) returns (run: seq<(Step, int)>, s: State)
    requires forall c :: reqs(c) == SlowRequest(c, down)
    ensures After(reqs, run, 0) == Some(s) && s.clock == 0 && 1 !in s.stages && Burns(s.log)
    ensures |s.grants| == 1 && s.grants[0].check == 0 && s.grants[0].nonce == NONCES[0]
  {
    var start := State([], 0, map[], map[], []);
    assert After(reqs, [], 0) == Some(start);
    hide After;
    run := OpenedAndJudged(reqs, [], start, 0, down, 0);
    s := After(reqs, run, 0).value;
    OneMoreStep(reqs, run, 0, BurnNonce(0), 0);
    run := run + [(BurnNonce(0), 0)];
    s := Next(reqs, s, BurnNonce(0), 0);
  }

  /** Visitors with one fingerprint, which may collect one clearance, on two sites; the first site's live
      longer. */
  function SharedRequest(c: nat): Request {
    Request(Ticket(NONCES[if c < 2 then c else 2], "/", if c == 0 then "web" else "shop", 1, 60, "", ""), 0, MINUTE,
            "", Rate(0, 0), FINGERPRINT, 1, MINUTE, if c == 0 then 100 * SECOND else 10 * SECOND,
            Some(["turnstile"]), "turnstile", "a", map[], (kind, token) => Solved, kind => Deny)
  }

  lemma SharedJudged(c: nat)
    ensures AfterVerify(SharedRequest(c)) == Burning("turnstile", false)
  {
    var q := SharedRequest(c);
    assert Answered(["turnstile"], q) == (q.kind, q.value);
    assert Judge(["turnstile"], q.kind) == "turnstile";
  }

  lemma NoncesApart()
    ensures NONCES[0] != NONCES[1] && NonceKey(NONCES[0]) != NonceKey(NONCES[1])
  {
    assert NONCES[0][31] == '0' && NONCES[1][31] == '1';
    if NonceKey(NONCES[0]) == NonceKey(NONCES[1]) {
      NonceKeysApart(NONCES[0], NONCES[1]);
    }
  }

  /** Both checks have burned their nonces before either grant is told to the roster. */
  lemma BothPassed(reqs: Requests) returns (run: seq<(Step, int)>, s: State)
    requires forall c :: reqs(c) == SharedRequest(c)
    ensures After(reqs, run, 0) == Some(s) && s.clock == 0
    ensures 0 in s.stages && s.stages[0].Passed? && 1 in s.stages && s.stages[1].Passed?
    ensures 0 in s.openedAt && s.openedAt[0] == 0 && 1 in s.openedAt && s.openedAt[1] == 0
  {
    var start := State([], 0, map[], map[], []);
    assert After(reqs, [], 0) == Some(start);
    hide After, AfterVerify, NonceKey;
    SharedJudged(0);
    SharedJudged(1);
    NoncesApart();
    run := FourSteps(reqs, [], start, 0, 0);
    s := After(reqs, run, 0).value;
    run := FourSteps(reqs, run, s, 1, 0);
    s := After(reqs, run, 0).value;
    OneMoreStep(reqs, run, 0, BurnNonce(0), 0);
    run := run + [(BurnNonce(0), 0)];
    s := Next(reqs, s, BurnNonce(0), 0);
    assert s.log == [Entry(0, Call.Burn(NonceKey(NONCES[0]), MINUTE))];
    assert s.log[..|s.log| - 1] == [];
    assert BurnedUntil(s.log, NonceKey(NONCES[1])) == BurnedUntil([], NonceKey(NONCES[1]));
    OneMoreStep(reqs, run, 0, BurnNonce(1), 0);
    run := run + [(BurnNonce(1), 0)];
    s := Next(reqs, s, BurnNonce(1), 0);
  }

  lemma CountsOne(log: Log, q: Request, now: int)
    requires q.fp != "" && q.farmAt == 1
    ensures Farms(log, now, q)
  {
    CounterOfMisses(log, FpScope(q));
  }

  /** A grant's two roster calls, one after the other. */
  lemma TallyAndBan(reqs: Requests, run: seq<(Step, int)>, s: State, c: nat, now: int) returns (t: State)
    requires After(reqs, run, 0) == Some(s) && s.clock <= now
    requires c in s.stages && s.stages[c].Passed? && c in s.openedAt && s.openedAt[c] <= now
    requires reqs(c).fp != "" && reqs(c).farmAt == 1
    ensures After(reqs, run + [(Tally(c, now), now)] + [(BanFarm(c), now)], 0) == Some(t)
    ensures t.log == AfterRevoke(AfterCount(s.log, now, reqs(c)), now, reqs(c), now)
    ensures t.clock == now && t.openedAt == s.openedAt && t.grants == s.grants
    ensures t.stages.Keys == s.stages.Keys && forall d | d in s.stages && d != c :: t.stages[d] == s.stages[d]
  {
    hide After, AfterRevoke, AfterCount, Farms;
    CountsOne(s.log, reqs(c), now);
    OneMoreStep(reqs, run, 0, Tally(c, now), now);
    var m := Next(reqs, s, Tally(c, now), now);
    OneMoreStep(reqs, run + [(Tally(c, now), now)], 0, BanFarm(c), now);
    t := Next(reqs, m, BanFarm(c), now);
  }

  /** A ban can end before the clearance that brought it: a second check that was past its own ban step is
      granted a shorter clearance a second later, and its revocation replaces the first. */
  lemma ShorterGrantLiftsBan() returns (reqs: Requests, run: seq<(Step, int)>, s: State, t: State)
    ensures After(reqs, run, 0) == Some(s)
    ensures After(reqs, run + [(Tally(1, SECOND), SECOND)] + [(BanFarm(1), SECOND)], 0) == Some(t)
    ensures s.grants == t.grants && 50 * SECOND < reqs(0).clearanceTtl && reqs(0).fp == reqs(1).fp == reqs(2).fp
    ensures AfterBan(s.log, 50 * SECOND, reqs(2)) == Done(Banned)
    ensures AfterBan(t.log, 50 * SECOND, reqs(2)) == NotBanned
  {
    reqs := (c: nat) => SharedRequest(c);
    var before;
    run, before := BothPassed(reqs);
    hide After, AfterVerify, AfterRevoke, AfterCount, Farms;
    s := TallyAndBan(reqs, run, before, 0, 0);
    var counted := AfterCount(before.log, 0, reqs(0));
    FarmedIsBanned(counted, 0, reqs(0), 0, [], reqs(2), 50 * SECOND);
    assert s.log + [] == s.log;
    run := run + [(Tally(0, 0), 0)] + [(BanFarm(0), 0)];
    t := TallyAndBan(reqs, run, s, 1, SECOND);
    counted := AfterCount(s.log, SECOND, reqs(1));
    FarmedIsBanned(counted, SECOND, reqs(1), SECOND, [], reqs(2), 50 * SECOND);
    assert t.log + [] == t.log;
  }
}
