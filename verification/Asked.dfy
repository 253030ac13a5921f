/** What earlier inspectors ask for (internal/decide/decide.go, the prior rules of
    internal/config/profile.go): each action of their verdicts is held against the profile's rules, and
    may ask for a challenge, ask to skip it, or note charges for the buckets. */
module Asked {
  import opened Seqs

  const ANY := "*"
  const CHALLENGE := "challenge"
  const THRESHOLD := "threshold"
  const SKIP := "skip"
  const NOTE := "note"
  const REAUTH := "reauth"

  datatype PriorRule = PriorRule(from: string, accept: seq<string>, codes: seq<string>)

  predicate Accepts(r: PriorRule, verb: string) {
    verb in r.accept || ANY in r.accept
  }

  predicate WantsCode(r: PriorRule, code: string) {
    r.codes == [] || code in r.codes
  }

  datatype RuleError = Fine | NoFrom | NoAccept | NotOurs(verb: string) | Unknown(verb: string) | CanWeaken

  /** A rule fit for a profile: it names somebody and accepts something known, and what it accepts from
      just anybody is challenges alone. */
  ghost predicate Sound(r: PriorRule) {
    && r.from != "" && r.accept != []
    && (forall i | 0 <= i < |r.accept| :: Usable(r.accept[i]))
    && (r.from == "*" ==> forall i | 0 <= i < |r.accept| :: r.accept[i] == "challenge")
  }

  predicate Usable(verb: string) {
    verb == "*" || verb == "challenge" || verb == "threshold" || verb == "skip" || verb == "note"
  }

  /** The first verb that is not for a rule to accept. */
  ghost predicate FirstUnusable(r: PriorRule, verb: string) {
    exists i :: 0 <= i < |r.accept| && r.accept[i] == verb && !Usable(verb) &&
      forall j | 0 <= j < i :: Usable(r.accept[j])
  }

  method ValidatePrior(r: PriorRule) returns (e: RuleError)
    ensures e.Fine? <==> Sound(r)
    ensures e.NoFrom? <==> r.from == ""
    ensures e.NoAccept? <==> r.from != "" && r.accept == []
    ensures (e.NotOurs? || e.Unknown?) ==> FirstUnusable(r, e.verb) && (e.NotOurs? <==> e.verb == "reauth")
    ensures e.CanWeaken? ==> r.from == "*" && exists i :: 0 <= i < |r.accept| && r.accept[i] != "challenge"
  {
    if r.from == "" {
      return NoFrom;
    }
    if |r.accept| == 0 {
      return NoAccept;
    }
    for i := 0 to |r.accept|
      invariant forall j | 0 <= j < i :: Usable(r.accept[j])
    {
      var verb := r.accept[i];
      if verb == REAUTH {
        return NotOurs(verb);
      }
      if verb !in [ANY, CHALLENGE, THRESHOLD, SKIP, NOTE] {
        return Unknown(verb);
      }
    }
    if r.from != ANY {
      return Fine;
    }
    if ANY in r.accept || Accepts(r, SKIP) || Accepts(r, THRESHOLD) || Accepts(r, NOTE) {
      return CanWeaken;
    }
    e := Fine;
  }

  // ---- verdicts and what they come to ----

  datatype Action = Action(verb: string, apply: string, code: string, value: int, delta: int)

  datatype Verdict = Verdict(phase: string, inspector: string, actions: seq<Action>)

  datatype Note = Note(axis: string, percent: int, code: string)

  datatype Fate = Applied | NoRule | NoCounter | WasCleared

  datatype Outcome = Outcome(from: string, verb: string, apply: string, code: string, value: int, delta: int,
                             took: int, fate: Fate)

  datatype Ask = Ask(want: bool, skip: bool, notes: seq<Note>, outcomes: seq<Outcome>)

  const NOTHING := Ask(false, false, [], [])

  /** The rules, and the kinds of bucket that are on. */
  datatype Rules = Rules(prior: seq<PriorRule>, counters: set<string>)

  function Scope(act: Action): string {
    if act.apply == "" then "request" else act.apply
  }

  function IfOn(p: Rules, kind: string): seq<string> {
    if kind in p.counters then [kind] else []
  }

  /** The buckets an action's scope reaches. */
  function Kinds(act: Action, p: Rules): seq<string> {
    if Scope(act) == "ip" then IfOn(p, "ip")
    else if Scope(act) == "session" then IfOn(p, "sess")
    else if Scope(act) == "asn" then IfOn(p, "asn_net") + IfOn(p, "asn_router")
    else []
  }

  predicate Fits(r: PriorRule, from: string, act: Action) {
    (r.from == ANY || r.from == from) && Accepts(r, act.verb) && WantsCode(r, act.code)
  }

  /** How many of the rules fit. */
  function Hits(rules: seq<PriorRule>, from: string, act: Action): nat {
    if rules == [] then 0
    else Hits(rules[..|rules| - 1], from, act) + if Fits(rules[|rules| - 1], from, act) then 1 else 0
  }

  function NotesOf(act: Action, p: Rules): seq<Note> {
    if act.value == 0 then []
    else seq(|Kinds(act, p)|, i requires 0 <= i < |Kinds(act, p)| => Note(Kinds(act, p)[i], act.value, act.code))
  }

  function Times<T>(s: seq<T>, n: nat): seq<T> {
    if n == 0 then [] else Times(s, n - 1) + s
  }

  /** What became of an action that n rules fit. */
  function FateOf(act: Action, n: nat, p: Rules): (Fate, int) {
    if n == 0 then (NoRule, 0)
    else if act.verb == CHALLENGE || act.verb == SKIP then (Applied, 0)
    else if act.verb == THRESHOLD then (NoCounter, 0)
    else if act.verb != NOTE then (NoRule, 0)
    else if act.value == 0 then (Applied, 0)
    else if Kinds(act, p) == [] then (NoCounter, 0)
    else (Applied, n * act.value)
  }

  function OutcomeOf(from: string, act: Action, n: nat, p: Rules): Outcome {
    var (fate, took) := FateOf(act, n, p);
    Outcome(from, act.verb, Scope(act), act.code, act.value, act.delta, took, fate)
  }

  function AfterHits(a: Ask, act: Action, n: nat, p: Rules): Ask {
    a.(want := a.want || (act.verb == CHALLENGE && n > 0),
       skip := a.skip || (act.verb == SKIP && n > 0),
       notes := a.notes + if act.verb == NOTE then Times(NotesOf(act, p), n) else [])
  }

  function Delivered(a: Ask, from: string, act: Action, p: Rules): Ask {
    var n := Hits(p.prior, from, act);
    var b := AfterHits(a, act, n, p);
    b.(outcomes := a.outcomes + [OutcomeOf(from, act, n, p)])
  }

  function DeliveredAll(a: Ask, from: string, acts: seq<Action>, p: Rules): Ask {
    if acts == [] then a
    else Delivered(DeliveredAll(a, from, acts[..|acts| - 1], p), from, acts[|acts| - 1], p)
  }

  predicate Speaks(v: Verdict) {
    v.phase == "" || v.phase == "request"
  }

  function AskedOf(prior: seq<Verdict>, p: Rules): Ask {
    if prior == [] then NOTHING
    else
      var (front, v) := (AskedOf(prior[..|prior| - 1], p), prior[|prior| - 1]);
      if Speaks(v) then DeliveredAll(front, v.inspector, v.actions, p) else front
  }

  /** A request's clearance answers the challenges that were asked for. */
  function ClearedOutcome(o: Outcome): Outcome {
    if o.verb == CHALLENGE && o.fate.Applied? then o.(fate := WasCleared) else o
  }

  function ClearedAll(os: seq<Outcome>): seq<Outcome> {
    seq(|os|, i requires 0 <= i < |os| => ClearedOutcome(os[i]))
  }

  /** One fitting rule's worth of an action. */
  function TakenOnce(a: Ask, act: Action, p: Rules): Ask {
    a.(want := a.want || act.verb == CHALLENGE, skip := a.skip || act.verb == SKIP,
       notes := a.notes + if act.verb == NOTE then NotesOf(act, p) else [])
  }

  function Marked(o: Outcome, act: Action, p: Rules): Outcome {
    if act.verb == CHALLENGE || act.verb == SKIP then o.(fate := Applied)
    else if act.verb == THRESHOLD then NotCounted(o)
    else if act.verb != NOTE then o
    else if act.value == 0 then o.(fate := Applied)
    else if Kinds(act, p) == [] then NotCounted(o)
    else o.(fate := Applied, took := o.took + act.value)
  }

  lemma NoHits(a: Ask, from: string, act: Action, p: Rules)
    ensures AfterHits(a, act, 0, p) == a && Hits([], from, act) == 0
    ensures OutcomeOf(from, act, 0, p) ==
            Outcome(from, act.verb, Scope(act), act.code, act.value, act.delta, 0, NoRule)
  {
    hide Kinds, NotesOf;
  }

  /** Rules take effect one by one, each as often as it fits. */
  lemma OneMoreHit(a: Ask, from: string, act: Action, n: nat, p: Rules)
    ensures TakenOnce(AfterHits(a, act, n, p), act, p) == AfterHits(a, act, n + 1, p)
    ensures Marked(OutcomeOf(from, act, n, p), act, p) == OutcomeOf(from, act, n + 1, p)
  {
    hide Kinds, NotesOf, Scope;
  }

  lemma HitsKeepOutcomes(a: Ask, act: Action, n: nat, p: Rules)
    ensures AfterHits(a, act, n, p).outcomes == a.outcomes
  {
    hide NotesOf;
  }

  class Asking {
    var want: bool
    var skip: bool
    var notes: seq<Note>
    var outcomes: seq<Outcome>

    constructor ()
      ensures Value() == NOTHING
    {
      want, skip, notes, outcomes := false, false, [], [];
    }

    function Value(): Ask
      reads this
    {
      Ask(want, skip, notes, outcomes)
    }

    /** Holds one action against every rule in turn, and writes down what came of it. */
    method Deliver(from: string, act: Action, p: Rules)
      modifies this
      ensures Value() == Delivered(old(Value()), from, act, p)
    {
      hide Kinds, NotesOf, Fits, Scope, TakenOnce, Marked, AfterHits, OutcomeOf;
      NoHits(Value(), from, act, p);
      var o := Outcome(from, act.verb, Scope(act), act.code, act.value, act.delta, 0, NoRule);
      ghost var was := Value();
      for i := 0 to |p.prior|
        invariant Value() == AfterHits(was, act, Hits(p.prior[..i], from, act), p)
        invariant o == OutcomeOf(from, act, Hits(p.prior[..i], from, act), p)
      {
        assert p.prior[..i + 1][..i] == p.prior[..i];
        var r := p.prior[i];
        if Fits(r, from, act) {
          OneMoreHit(was, from, act, Hits(p.prior[..i], from, act), p);
          o := Take(act, p, o);
        }
      }
      assert p.prior[..|p.prior|] == p.prior;
      HitsKeepOutcomes(was, act, Hits(p.prior, from, act), p);
      outcomes := outcomes + [o];
    }

    /** One fitting rule's worth of an action. */
    method Take(act: Action, p: Rules, o: Outcome) returns (o': Outcome)
      modifies this`want, this`skip, this`notes
      ensures Value() == TakenOnce(old(Value()), act, p) && o' == Marked(o, act, p)
    {
      o' := o;
      if act.verb == CHALLENGE {
        want := true;
        o' := o.(fate := Applied);
      } else if act.verb == SKIP {
        skip := true;
        o' := o.(fate := Applied);
      } else if act.verb == THRESHOLD {
        o' := NotCounted(o);
      } else if act.verb == NOTE {
        o' := Charge(act, p, o);
      }
    }

    /** Notes a charge on each bucket the action reaches. */
    method Charge(act: Action, p: Rules, o: Outcome) returns (o': Outcome)
      modifies this`notes
      ensures notes == old(notes) + NotesOf(act, p)
      ensures o' == if act.value == 0 then o.(fate := Applied)
                    else if Kinds(act, p) == [] then NotCounted(o)
                    else o.(fate := Applied, took := o.took + act.value)
    {
      if act.value == 0 {
        return o.(fate := Applied);
      }
      var kinds := [];
      if Scope(act) == "ip" {
        if "ip" in p.counters { kinds := kinds + ["ip"]; }
      } else if Scope(act) == "session" {
        if "sess" in p.counters { kinds := kinds + ["sess"]; }
      } else if Scope(act) == "asn" {
        if "asn_net" in p.counters { kinds := kinds + ["asn_net"]; }
        if "asn_router" in p.counters { kinds := kinds + ["asn_router"]; }
      }
      assert kinds == Kinds(act, p);
      if kinds == [] {
        return NotCounted(o);
      }
      ghost var was := notes;
      for i := 0 to |kinds|
        invariant notes == was + NotesOf(act, p)[..i]
      {
        notes := notes + [Note(kinds[i], act.value, act.code)];
      }
      o' := o.(fate := Applied, took := o.took + act.value);
    }

    /** Marks, in place, the challenges a clearance has answered. */
    method Cleared()
      modifies this`outcomes
      ensures Value() == old(Value()).(outcomes := ClearedAll(old(outcomes)))
    {
      ghost var was := outcomes;
      for i := 0 to |outcomes|
        invariant |outcomes| == |was|
        invariant forall j | 0 <= j < |was| :: outcomes[j] == if j < i then ClearedOutcome(was[j]) else was[j]
      {
        var o := outcomes[i];
        if o.verb == CHALLENGE && o.fate.Applied? {
          outcomes := outcomes[i := o.(fate := WasCleared)];
        }
      }
    }

    method PriorAsk(prior: seq<Verdict>, p: Rules)
      requires Value() == NOTHING
      modifies this
      ensures Value() == AskedOf(prior, p)
    {
      hide Delivered;
      for i := 0 to |prior|
        invariant Value() == AskedOf(prior[..i], p)
      {
        assert prior[..i + 1][..i] == prior[..i];
        var v := prior[i];
        if v.phase != "" && v.phase != "request" {
          continue;
        }
        ghost var was := Value();
        for j := 0 to |v.actions|
          invariant Value() == DeliveredAll(was, v.inspector, v.actions[..j], p)
        {
          assert v.actions[..j + 1][..j] == v.actions[..j];
          Deliver(v.inspector, v.actions[j], p);
        }
        assert v.actions[..|v.actions|] == v.actions;
      }
      assert prior[..|prior|] == prior;
    }
  }

  /** The note that no counter took the action, unless another rule's reading of it already counted. */
  function NotCounted(o: Outcome): Outcome {
    if o.fate.NoRule? then o.(fate := NoCounter) else o
  }

  // ---- what an ask means ----

  lemma {:induction false} HitsIff(rules: seq<PriorRule>, from: string, act: Action)
    ensures Hits(rules, from, act) > 0 <==> exists i :: 0 <= i < |rules| && Fits(rules[i], from, act)
  {
    hide Fits;
    if rules != [] {
      HitsIff(rules[..|rules| - 1], from, act);
    }
  }

  /** An action of some verdict of this phase, fitting some rule, asks for the verb. */
  ghost predicate Asks(v: Verdict, j: nat, p: Rules, verb: string) {
    && Speaks(v) && j < |v.actions| && v.actions[j].verb == verb
    && exists k :: 0 <= k < |p.prior| && Fits(p.prior[k], v.inspector, v.actions[j])
  }

  ghost predicate SomeAsks(prior: seq<Verdict>, p: Rules, verb: string) {
    exists i: nat, j: nat :: i < |prior| && Asks(prior[i], j, p, verb)
  }

  ghost predicate AsksBefore(v: Verdict, n: nat, p: Rules, verb: string) {
    exists j: nat :: j < n && Asks(v, j, p, verb)
  }

  lemma {:induction false} DeliveredMeaning(a: Ask, v: Verdict, n: nat, p: Rules)
    requires Speaks(v) && n <= |v.actions|
    ensures var b := DeliveredAll(a, v.inspector, v.actions[..n], p);
            && (b.want <==> a.want || AsksBefore(v, n, p, CHALLENGE))
            && (b.skip <==> a.skip || AsksBefore(v, n, p, SKIP))
            && |b.outcomes| == |a.outcomes| + n
  {
    hide Fits, NotesOf, OutcomeOf;
    if n > 0 {
      DeliveredMeaning(a, v, n - 1, p);
      assert v.actions[..n][..n - 1] == v.actions[..n - 1];
      HitsIff(p.prior, v.inspector, v.actions[n - 1]);
      AsksOneMore(v, n - 1, p, CHALLENGE);
      AsksOneMore(v, n - 1, p, SKIP);
    }
  }

  lemma AsksOneMore(v: Verdict, n: nat, p: Rules, verb: string)
    ensures AsksBefore(v, n + 1, p, verb) <==> AsksBefore(v, n, p, verb) || Asks(v, n, p, verb)
  {
    hide Asks;
  }

  /** A challenge is asked for, or skipping it is, exactly when some action of a verdict of the request
      phase says so and some rule accepts that from its inspector. */
  lemma {:induction false} AskMeaning(prior: seq<Verdict>, p: Rules)
    ensures AskedOf(prior, p).want <==> SomeAsks(prior, p, "challenge")
    ensures AskedOf(prior, p).skip <==> SomeAsks(prior, p, "skip")
  {
    hide DeliveredAll, SomeAsks;
    if prior != [] {
      var n := |prior| - 1;
      AskMeaning(prior[..n], p);
      var v := prior[n];
      SomeAsksMore(prior, p, CHALLENGE);
      SomeAsksMore(prior, p, SKIP);
      if Speaks(v) {
        DeliveredMeaning(AskedOf(prior[..n], p), v, |v.actions|, p);
        assert v.actions[..|v.actions|] == v.actions;
      }
    } else {
      assert !SomeAsks([], p, CHALLENGE) && !SomeAsks([], p, SKIP) by { NobodyAsks(p); }
    }
  }

  lemma NobodyAsks(p: Rules)
    ensures forall verb :: !SomeAsks([], p, verb)
  {
  }

  lemma SomeAsksMore(prior: seq<Verdict>, p: Rules, verb: string)
    requires prior != []
    ensures var n := |prior| - 1;
            SomeAsks(prior, p, verb) <==>
            SomeAsks(prior[..n], p, verb) || AsksBefore(prior[n], |prior[n].actions|, p, verb)
  {
    var n := |prior| - 1;
    if SomeAsks(prior[..n], p, verb) {
      var i: nat, j: nat :| i < n && Asks(prior[..n][i], j, p, verb);
      assert Asks(prior[i], j, p, verb);
    }
    if AsksBefore(prior[n], |prior[n].actions|, p, verb) {
      var j: nat :| Asks(prior[n], j, p, verb);
      assert Asks(prior[n], j, p, verb);
    }
    if SomeAsks(prior, p, verb) {
      var i: nat, j: nat :| i < |prior| && Asks(prior[i], j, p, verb);
      if i < n {
        assert Asks(prior[..n][i], j, p, verb);
      }
    }
  }

  // ---- what becomes of each action ----

  /** A rule fits an action of an inspector it names, or of anybody's, whose verb it accepts, or any, and whose code
      it wants, or any. */
  lemma FitsIff(r: PriorRule, from: string, act: Action)
    ensures Fits(r, from, act) <==>
            && (r.from == "*" || r.from == from)
            && (exists i :: 0 <= i < |r.accept| && (r.accept[i] == act.verb || r.accept[i] == "*"))
            && (|r.codes| == 0 || exists i :: 0 <= i < |r.codes| && r.codes[i] == act.code)
  {
    assert Accepts(r, act.verb) <==> exists i :: 0 <= i < |r.accept| && (r.accept[i] == act.verb || r.accept[i] == "*");
  }

  ghost function Fitting(rules: seq<PriorRule>, from: string, act: Action): set<nat> {
    set i: nat | i < |rules| && Fits(rules[i], from, act)
  }

  lemma {:induction false} HitsCount(rules: seq<PriorRule>, from: string, act: Action)
    ensures Hits(rules, from, act) == |Fitting(rules, from, act)|
  {
    hide Fits;
    if rules != [] {
      var n := |rules| - 1;
      HitsCount(rules[..n], from, act);
      assert Fitting(rules, from, act) ==
             Fitting(rules[..n], from, act) + if Fits(rules[n], from, act) then {n} else {};
    }
  }

  /** The bucket is on, and in the action's scope: the address, the session, or the two of the network. */
  predicate Reaches(act: Action, p: Rules, axis: string) {
    && axis in p.counters
    && ((act.apply == "ip" && axis == "ip") || (act.apply == "session" && axis == "sess")
        || (act.apply == "asn" && (axis == "asn_net" || axis == "asn_router")))
  }

  /** Challenges and skips some rule fits are applied, whatever the buckets; so is a note that reaches one, as often as
      rules fit, or charges nothing. A threshold, and a note that reaches none, finds no counter. */
  lemma FateDecides(from: string, act: Action, n: nat, p: Rules)
    ensures var o := OutcomeOf(from, act, n, p);
            var reaches := exists axis :: Reaches(act, p, axis);
            && o.from == from && o.verb == act.verb && o.apply == (if act.apply == "" then "request" else act.apply)
            && o.code == act.code && o.value == act.value && o.delta == act.delta
            && (o.fate == Applied <==>
                n > 0 && (|| act.verb == "challenge" || act.verb == "skip"
                          || (act.verb == "note" && (act.value == 0 || reaches))))
            && (o.fate == NoCounter <==>
                n > 0 && (act.verb == "threshold" || (act.verb == "note" && act.value != 0 && !reaches)))
            && o.fate != WasCleared
            && o.took == if act.verb == "note" && reaches then n * act.value else 0
  {
    KindsReached(act, p);
    assert forall axis | Reaches(act, p, axis) :: axis in Kinds(act, p);
    if Kinds(act, p) != [] {
      assert Reaches(act, p, Kinds(act, p)[0]);
    }
  }

  lemma KindsReached(act: Action, p: Rules)
    ensures forall axis :: axis in Kinds(act, p) <==> Reaches(act, p, axis)
    ensures forall i, j | 0 <= i < j < |Kinds(act, p)| :: Kinds(act, p)[i] != Kinds(act, p)[j]
  {
  }

  /** The actions heard, each with its inspector: those of the verdicts of this phase, in order. */
  function Heard(prior: seq<Verdict>): seq<(string, Action)> {
    if prior == [] then []
    else
      var v := prior[|prior| - 1];
      Heard(prior[..|prior| - 1]) +
      if v.phase == "" || v.phase == "request" then HeardFrom(v.inspector, v.actions) else []
  }

  function HeardFrom(from: string, acts: seq<Action>): seq<(string, Action)> {
    seq(|acts|, i requires 0 <= i < |acts| => (from, acts[i]))
  }

  function HeardOutcome(h: (string, Action), p: Rules): Outcome {
    OutcomeOf(h.0, h.1, Hits(p.prior, h.0, h.1), p)
  }

  /** One outcome for each action heard, in the order they were said. */
  lemma {:induction false} OutcomesInOrder(prior: seq<Verdict>, p: Rules)
    ensures var os, heard := AskedOf(prior, p).outcomes, Heard(prior);
            |os| == |heard| && forall i | 0 <= i < |os| :: os[i] == HeardOutcome(heard[i], p)
  {
    hide OutcomeOf, DeliveredAll;
    if prior != [] {
      var n := |prior| - 1;
      OutcomesInOrder(prior[..n], p);
      OutcomesOf(AskedOf(prior[..n], p), prior[n].inspector, prior[n].actions, p);
    }
  }

  lemma {:induction false} OutcomesOf(a: Ask, from: string, acts: seq<Action>, p: Rules)
    ensures var os := DeliveredAll(a, from, acts, p).outcomes;
            && |os| == |a.outcomes| + |acts| && os[..|a.outcomes|] == a.outcomes
            && forall i | 0 <= i < |acts| :: os[|a.outcomes| + i] == HeardOutcome(HeardFrom(from, acts)[i], p)
  {
    hide OutcomeOf, NotesOf, Hits;
    if acts != [] {
      var front := acts[..|acts| - 1];
      OutcomesOf(a, from, front, p);
      forall i | 0 <= i < |acts|
        ensures DeliveredAll(a, from, acts, p).outcomes[|a.outcomes| + i] == HeardOutcome(HeardFrom(from, acts)[i], p)
      {
        assert i < |front| ==> HeardFrom(from, acts)[i] == HeardFrom(from, front)[i];
      }
    }
  }

  // What the notes charge, in all, to a bucket under a code.

  function Total(notes: seq<Note>, axis: string, code: string): int {
    if notes == [] then 0
    else
      var n := notes[|notes| - 1];
      Total(notes[..|notes| - 1], axis, code) + if n.axis == axis && n.code == code then n.percent else 0
  }

  function Due(heard: seq<(string, Action)>, p: Rules, axis: string, code: string): int {
    if heard == [] then 0
    else
      var (from, act) := heard[|heard| - 1];
      Due(heard[..|heard| - 1], p, axis, code) +
      if act.verb == "note" && act.code == code && Reaches(act, p, axis) then Hits(p.prior, from, act) * act.value
      else 0
  }

  lemma {:induction false} TotalConcat(a: seq<Note>, b: seq<Note>, axis: string, code: string)
    ensures Total(a + b, axis, code) == Total(a, axis, code) + Total(b, axis, code)
  {
    if b == [] {
      assert a + b == a;
    } else {
      assert (a + b)[..|a + b| - 1] == a + b[..|b| - 1];
      TotalConcat(a, b[..|b| - 1], axis, code);
    }
  }

  lemma {:induction false} TotalTimes(s: seq<Note>, n: nat, axis: string, code: string)
    ensures Total(Times(s, n), axis, code) == n * Total(s, axis, code)
  {
    if n > 0 {
      TotalTimes(s, n - 1, axis, code);
      TotalConcat(Times(s, n - 1), s, axis, code);
    }
  }

  lemma TotalOne(note: Note, axis: string, code: string)
    ensures Total([note], axis, code) == if note.axis == axis && note.code == code then note.percent else 0
  {
    assert [note][..0] == [];
  }

  lemma TotalNotes(act: Action, p: Rules, axis: string, code: string)
    ensures Total(NotesOf(act, p), axis, code) == if act.code == code && Reaches(act, p, axis) then act.value else 0
  {
    KindsReached(act, p);
    var kinds, notes := Kinds(act, p), NotesOf(act, p);
    if act.value != 0 && kinds != [] {
      TotalOne(notes[0], axis, code);
      if |kinds| == 1 {
        assert notes == [notes[0]];
      } else {
        assert notes == [notes[0]] + [notes[1]];
        TotalConcat([notes[0]], [notes[1]], axis, code);
        TotalOne(notes[1], axis, code);
      }
    }
  }

  lemma {:induction false} DueConcat(a: seq<(string, Action)>, b: seq<(string, Action)>, p: Rules, axis: string,
                                     code: string)
    ensures Due(a + b, p, axis, code) == Due(a, p, axis, code) + Due(b, p, axis, code)
  {
    hide Hits, Reaches;
    if b == [] {
      assert a + b == a;
    } else {
      assert (a + b)[..|a + b| - 1] == a + b[..|b| - 1];
      DueConcat(a, b[..|b| - 1], p, axis, code);
    }
  }

  lemma {:induction false} NotesDelivered(a: Ask, from: string, acts: seq<Action>, p: Rules, axis: string,
                                          code: string)
    ensures Total(DeliveredAll(a, from, acts, p).notes, axis, code) ==
            Total(a.notes, axis, code) + Due(HeardFrom(from, acts), p, axis, code)
  {
    hide Hits, Reaches, NotesOf, OutcomeOf, Times, Total;
    if acts != [] {
      var front, act := acts[..|acts| - 1], acts[|acts| - 1];
      NotesDelivered(a, from, front, p, axis, code);
      var before, n := DeliveredAll(a, from, front, p), Hits(p.prior, from, act);
      TotalConcat(before.notes, Times(NotesOf(act, p), n), axis, code);
      TotalTimes(NotesOf(act, p), n, axis, code);
      TotalNotes(act, p, axis, code);
      assert HeardFrom(from, acts)[..|acts| - 1] == HeardFrom(from, front);
      assert before.notes + [] == before.notes;
    }
  }

  /** Each note that was heard charges each bucket it reaches with its value, under its code, once for every rule that
      fits it; nothing else charges anything. */
  lemma {:induction false} NotesChargeWhatIsDue(prior: seq<Verdict>, p: Rules, axis: string, code: string)
    ensures Total(AskedOf(prior, p).notes, axis, code) == Due(Heard(prior), p, axis, code)
  {
    hide DeliveredAll, Due, Total;
    if prior == [] {
      NothingDue(p, axis, code);
    } else {
      var n := |prior| - 1;
      var v := prior[n];
      NotesChargeWhatIsDue(prior[..n], p, axis, code);
      NotesDelivered(AskedOf(prior[..n], p), v.inspector, v.actions, p, axis, code);
      DueConcat(Heard(prior[..n]), HeardFrom(v.inspector, v.actions), p, axis, code);
      assert Heard(prior[..n]) + [] == Heard(prior[..n]);
    }
  }

  lemma NothingDue(p: Rules, axis: string, code: string)
    ensures Total([], axis, code) == 0 == Due([], p, axis, code)
  {
  }

  /** The clearance that is let through answers the challenges that were applied, and nothing else. */
  lemma ClearedMeans(os: seq<Outcome>)
    ensures |ClearedAll(os)| == |os|
    ensures forall i | 0 <= i < |os| ::
              ClearedAll(os)[i] ==
              if os[i].verb == "challenge" && os[i].fate == Applied then os[i].(fate := WasCleared) else os[i]
  {
  }

  // ---- inspectors no rule names ----

  ghost predicate Unnamed(p: Rules, from: string) {
    forall i | 0 <= i < |p.prior| :: p.prior[i].from == ANY || p.prior[i].from != from
  }

  ghost predicate AllSound(p: Rules) {
    forall i | 0 <= i < |p.prior| :: Sound(p.prior[i])
  }

  /** The second ask charges and skips as the first does, and wants whatever it wants. */
  ghost predicate Tighter(a: Ask, b: Ask) {
    a.skip == b.skip && a.notes == b.notes && (a.want ==> b.want)
  }

  lemma UnnamedChallenges(p: Rules, from: string, act: Action)
    requires AllSound(p) && Unnamed(p, from) && Hits(p.prior, from, act) > 0
    ensures act.verb == CHALLENGE
  {
    HitsIff(p.prior, from, act);
    var i :| 0 <= i < |p.prior| && Fits(p.prior[i], from, act);
    var r := p.prior[i];
    assert Sound(r) && r.from == ANY;
    assert forall v | v in r.accept :: v == CHALLENGE;
  }

  lemma {:induction false} UnnamedTightens(a: Ask, from: string, acts: seq<Action>, p: Rules)
    requires AllSound(p) && Unnamed(p, from)
    ensures Tighter(a, DeliveredAll(a, from, acts, p))
  {
    hide AllSound, Unnamed, NotesOf, OutcomeOf;
    if acts != [] {
      var act := acts[|acts| - 1];
      UnnamedTightens(a, from, acts[..|acts| - 1], p);
      if Hits(p.prior, from, act) > 0 {
        UnnamedChallenges(p, from, act);
      }
    }
  }

  lemma {:induction false} DeliveringKeepsTighter(a: Ask, b: Ask, from: string, acts: seq<Action>, p: Rules)
    requires Tighter(a, b)
    ensures Tighter(DeliveredAll(a, from, acts, p), DeliveredAll(b, from, acts, p))
  {
    if acts != [] {
      DeliveringKeepsTighter(a, b, from, acts[..|acts| - 1], p);
    }
  }

  /** The longer list is the shorter one with verdicts of unnamed inspectors put in, anywhere. */
  ghost predicate Weaves(shorter: seq<Verdict>, longer: seq<Verdict>, p: Rules)
    decreases |longer|
  {
    if longer == [] then shorter == []
    else
      var (front, v) := (longer[..|longer| - 1], longer[|longer| - 1]);
      || (shorter != [] && shorter[|shorter| - 1] == v && Weaves(shorter[..|shorter| - 1], front, p))
      || (Unnamed(p, v.inspector) && Weaves(shorter, front, p))
  }

  /** Under rules fit for a profile, whoever is named by none of them can only add a challenge: no
      verdict of theirs, anywhere in the list, skips one, undoes one or charges a bucket. */
  lemma {:induction false} UnnamedOnlyTighten(shorter: seq<Verdict>, longer: seq<Verdict>, p: Rules)
    requires AllSound(p) && Weaves(shorter, longer, p)
    ensures Tighter(AskedOf(shorter, p), AskedOf(longer, p))
    decreases |longer|
  {
    hide AllSound, Unnamed, DeliveredAll;
    if longer != [] {
      var (front, v) := (longer[..|longer| - 1], longer[|longer| - 1]);
      if shorter != [] && shorter[|shorter| - 1] == v && Weaves(shorter[..|shorter| - 1], front, p) {
        var rest := shorter[..|shorter| - 1];
        UnnamedOnlyTighten(rest, front, p);
        DeliveringKeepsTighter(AskedOf(rest, p), AskedOf(front, p), v.inspector, v.actions, p);
      } else {
        UnnamedOnlyTighten(shorter, front, p);
        UnnamedTightens(AskedOf(front, p), v.inspector, v.actions, p);
      }
    }
  }

  /** The check on rules is what makes it so: one rule that lets anybody skip is enough to lose it. */
  lemma SkipFromAnybodyLoosens(from: string) returns (p: Rules, longer: seq<Verdict>)
    ensures p.prior == [PriorRule(ANY, [SKIP], [])] && !Sound(p.prior[0])
    ensures Weaves([], longer, p) && !Tighter(AskedOf([], p), AskedOf(longer, p))
  {
    var skip := Action(SKIP, "", "", 0, 0);
    var v := Verdict("", from, [skip]);
    p := Rules([PriorRule(ANY, [SKIP], [])], {});
    longer := [v];
    assert p.prior[0].accept[0] == SKIP != CHALLENGE;
    assert longer[..0] == [] && Unnamed(p, from);
    assert Fits(p.prior[0], from, skip) && v.actions[..0] == [] && p.prior[..0] == [];
    assert Hits(p.prior, from, skip) == 1;
    assert DeliveredAll(NOTHING, from, v.actions, p).skip;
  }
}
