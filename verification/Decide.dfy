/** The decision on a request (internal/decide/decide.go): open the clearance, decide whether a challenge
    is required and why, and answer with a pass, a redirect to the challenge or a refusal. A profile may
    enforce the answer, or only observe what it would have been. */
module Decide {
  import opened Bytes
  import Asked
  import Tickets

  datatype Mode = Enforce | Observe | Off

  datatype When = Always | OnBuckets | Never

  datatype PageRule = PageRule(path: string, exact: bool, methods: seq<string>, when: When)

  datatype Gate = Gate(
    redirectMethods: seq<string>, redirectStatus: int, denyResponse: string, htmlOnly: bool, inline: bool)

  datatype Profile = Profile(
    name: string, path: string, mode: Mode, pages: seq<PageRule>, when: When, gate: Gate,
    captchaAt: map<string, int>, header: string, list: string, grace: int,
    bindsNet: bool, bindsUa: bool, ticketTtl: int)

  datatype Clearance = Clearance(jti: string, cid: string, issued: int, expiry: int, provider: string,
                                 net: string, ua: string, fp: string)

  datatype Code =
    | NoCode | Passed | IsOff | Self | Observed | NotRequired | Required | Reverify
    | ClearanceBad | ClearanceExpired | ClearanceBind | ClearanceRevoked | ListUnavailable | UnknownProfile

  datatype Finding = Bad(rule: string) | WasRevoked(rule: string) | StoreDown(rule: string)
                   | ListDown(rule: string) | NoProfile(rule: string)

  datatype Opened = Opened(clearance: Option<Clearance>, code: Code, findings: seq<Finding>)

  datatype Trigger = NoTrigger | ByRule | ByPrior | ByReverify | ByHeat

  datatype Verdict = Allow | Redirect | Deny | Error

  datatype Event = NoEvent | Cleared | Uncleared

  datatype NextStep = Nothing | Challenge | Pass

  /** The request. Sealed cookies come as what unsealing them gives, and the hashes of the client's
      network and browser as computed. */
  datatype Input = Input(
    profile: Option<Profile>, ask: string, verb: string, uri: string, args: string,
    hasClearance: bool, clearance: Option<Clearance>, hasTicket: bool, ticket: Option<Tickets.Ticket>,
    net: string, ua: string, secFetchDest: string, upgradeInsecure: bool, acceptsHtml: bool,
    asked: Asked.Ask, levels: map<string, real>, storeDown: string, given: Option<Opened>, now: int)

  /** What lies outside: the roster, the list of clearances, a fresh nonce, and whether sealing works. */
  datatype World = World(
    revoked: Option<string -> bool>, lists: Option<(string, string) -> (bool, bool)>, nonce: string, seals: bool)

  /** The notes kept for the audit, entry by entry; what is None, empty or false has no entry. */
  datatype Engine = Engine(
    profile: Option<string>, mode: Option<Mode>, passive: bool, store: string, self: bool,
    actions: seq<Asked.Outcome>, buckets: map<string, real>, jti: Option<string>, provider: Option<string>,
    sessFull: bool, page: string, trigger: Trigger, reason: Option<Code>,
    wouldVerdict: Option<Verdict>, wouldCode: Option<Code>, attempt: Option<int>, inline: bool)

  const NO_NOTES :=
    Engine(None, None, false, "", false, [], map[], None, None, false, "", NoTrigger, None, None, None, None, false)

  datatype Result = Result(
    verdict: Verdict, code: Code, response: string, redirect: Option<(string, string)>, redirectStatus: int,
    inline: bool, cookie: Option<Tickets.Ticket>, header: Option<(string, string)>, clearance: Option<Clearance>,
    trigger: Trigger, findings: seq<Finding>, engine: Engine, event: Event, next: NextStep)

  const BLANK := Result(Allow, NoCode, "", None, 0, false, None, None, None, NoTrigger, [], NO_NOTES, NoEvent, Nothing)

  // ---- opening the clearance ----

  datatype Unsealed = Good(clearance: Clearance) | Unsealable | Expired | WrongBind

  /** The token's own checks, in their order. */
  function OpenClearance(plain: Option<Clearance>, now: int, net: string, ua: string): Unsealed {
    match plain
    case None => Unsealable
    case Some(c) =>
      if c.jti == "" || c.cid == "" || c.expiry == 0 then Unsealable
      else if Tickets.Unix(now) >= c.expiry then Expired
      else if net != "" && c.net != "" && net != c.net then WrongBind
      else if ua != "" && c.ua != "" && ua != c.ua then WrongBind
      else Good(c)
  }

  predicate FpRevoked(w: World, c: Clearance) {
    w.revoked.Some? && c.fp != "" && w.revoked.value("fp:" + c.fp)
  }

  predicate Listed(p: Profile, c: Clearance, now: int) {
    p.list != "" && now - c.issued * Tickets.SECOND > p.grace
  }

  function Open(q: Input, p: Profile, w: World): Opened {
    if !q.hasClearance then
      Opened(None, Required, if q.storeDown != "" then [StoreDown(q.storeDown)] else [])
    else
      match OpenClearance(q.clearance, q.now, if p.bindsNet then q.net else "", if p.bindsUa then q.ua else "")
      case Expired => Opened(None, ClearanceExpired, [])
      case WrongBind => Opened(None, ClearanceBind, [Bad("bind")])
      case Unsealable => Opened(None, ClearanceBad, [Bad("seal")])
      case Good(c) =>
        if FpRevoked(w, c) then Opened(None, ClearanceRevoked, [WasRevoked("fp:" + c.fp)])
        else if !Listed(p, c, q.now) then Opened(Some(c), Passed, [])
        else if w.lists.None? || !w.lists.value(p.list, c.jti).1 then Opened(None, ListUnavailable, [ListDown(p.list)])
        else if !w.lists.value(p.list, c.jti).0 then Opened(None, ClearanceRevoked, [WasRevoked(c.jti)])
        else Opened(Some(c), Passed, [])
  }

  // What opening comes to, from what the request brought and what the outside says of it.

  /** It brought a clearance that unseals whole. */
  predicate BroughtWhole(q: Input) {
    && q.hasClearance && q.clearance.Some?
    && q.clearance.value.jti != "" && q.clearance.value.cid != "" && q.clearance.value.expiry != 0
  }

  /** The clearance is bound to this client wherever both sides say. */
  predicate BoundHere(q: Input, p: Profile)
    requires BroughtWhole(q)
  {
    var c := q.clearance.value;
    && (p.bindsNet && q.net != "" && c.net != "" ==> q.net == c.net)
    && (p.bindsUa && q.ua != "" && c.ua != "" ==> q.ua == c.ua)
  }

  /** It is unexpired, bound to this client, and not revoked by its fingerprint. */
  predicate Rightful(q: Input, p: Profile, w: World) {
    && BroughtWhole(q)
    && var c := q.clearance.value;
    && q.now < c.expiry * 1_000_000_000 && BoundHere(q, p)
    && !(w.revoked.Some? && c.fp != "" && w.revoked.value("fp:" + c.fp))
  }

  /** The profile keeps a list, and the clearance is past its grace. */
  predicate PastGrace(q: Input, p: Profile)
    requires BroughtWhole(q)
  {
    p.list != "" && q.now - q.clearance.value.issued * 1_000_000_000 > p.grace
  }

  /** The list has to be asked, and is not there or not ready. */
  predicate ListSilent(q: Input, p: Profile, w: World) {
    && Rightful(q, p, w) && PastGrace(q, p)
    && (w.lists.None? || !w.lists.value(p.list, q.clearance.value.jti).1)
  }

  /** The list answers, and the clearance is not on it. */
  predicate Unlisted(q: Input, p: Profile, w: World) {
    && Rightful(q, p, w) && PastGrace(q, p)
    && w.lists.Some? && w.lists.value(p.list, q.clearance.value.jti) == (false, true)
  }

  /** It is rightful, and on the list if it has to be. */
  predicate HasClearance(q: Input, p: Profile, w: World) {
    && Rightful(q, p, w)
    && (PastGrace(q, p) ==> w.lists.Some? && w.lists.value(p.list, q.clearance.value.jti) == (true, true))
  }

  /** A clearance opens exactly when it is rightful, and past its grace is on the profile's list. */
  lemma OpensIff(q: Input, p: Profile, w: World)
    ensures Open(q, p, w).clearance.Some? <==> HasClearance(q, p, w)
    ensures Open(q, p, w).clearance.Some? <==> Open(q, p, w).code == Passed
    ensures Open(q, p, w).clearance.Some? ==> Open(q, p, w) == Opened(q.clearance, Passed, [])
  {
  }

  /** Otherwise the code says, and the findings name, the first thing found wrong: a clearance missing, unsealable,
      out of date, another client's, revoked by its fingerprint, past help from a list that cannot answer, or taken
      off it. */
  lemma WhyUnopened(q: Input, p: Profile, w: World)
    ensures var o := Open(q, p, w);
            && (o.code == Required <==> !q.hasClearance)
            && (o.code == Required ==> o.findings == if q.storeDown == "" then [] else [StoreDown(q.storeDown)])
            && (o.code == ClearanceBad <==> q.hasClearance && !BroughtWhole(q))
            && (o.code == ClearanceBad ==> o.findings == [Bad("seal")])
            && (o.code == ClearanceExpired <==>
                BroughtWhole(q) && q.clearance.value.expiry * 1_000_000_000 <= q.now)
            && (o.code == ClearanceExpired ==> o.findings == [])
            && (o.code == ClearanceBind <==>
                BroughtWhole(q) && q.now < q.clearance.value.expiry * 1_000_000_000 && !BoundHere(q, p))
            && (o.code == ClearanceBind ==> o.findings == [Bad("bind")])
            && (o.code == ListUnavailable <==> ListSilent(q, p, w))
            && (o.code == ListUnavailable ==> o.findings == [ListDown(p.list)])
            && (o.code == ClearanceRevoked <==>
                || Unlisted(q, p, w)
                || (BroughtWhole(q) && Rightful(q, p, w.(revoked := None)) && !Rightful(q, p, w)))
            && (o.code == ClearanceRevoked ==>
                  o.findings == [WasRevoked(if Unlisted(q, p, w) then q.clearance.value.jti
                                            else "fp:" + q.clearance.value.fp)])
            && o.code !in {NoCode, IsOff, Self, Observed, NotRequired, Reverify, UnknownProfile}
  {
  }

  // ---- whether a challenge is required ----

  predicate HasPrefix(s: string, prefix: string) {
    |prefix| <= |s| && s[..|prefix|] == prefix
  }

  function TrimSlashes(s: string): string {
    if s != "" && s[|s| - 1] == '/' then TrimSlashes(s[..|s| - 1]) else s
  }

  predicate OwnPath(p: Profile, uri: string) {
    p.path != "" && (uri == p.path || HasPrefix(uri, TrimSlashes(p.path) + "/"))
  }

  predicate Matches(r: PageRule, verb: string, uri: string) {
    && (r.methods == [] || verb in r.methods)
    && (uri == r.path || (!r.exact && HasPrefix(uri, r.path)))
  }

  datatype Rule = Rule(when: When, page: string)

  /** The first page rule that matches, or the profile's own. */
  function RuleFor(pages: seq<PageRule>, when: When, verb: string, uri: string): Rule {
    if pages == [] then Rule(when, "")
    else if Matches(pages[0], verb, uri) then Rule(pages[0].when, pages[0].path)
    else RuleFor(pages[1..], when, verb, uri)
  }

  method FindRule(p: Profile, verb: string, uri: string) returns (r: Rule)
    ensures r == RuleFor(p.pages, p.when, verb, uri)
  {
    for i := 0 to |p.pages|
      invariant RuleFor(p.pages[i..], p.when, verb, uri) == RuleFor(p.pages, p.when, verb, uri)
    {
      if Matches(p.pages[i], verb, uri) {
        return Rule(p.pages[i].when, p.pages[i].path);
      }
      assert p.pages[i..][1..] == p.pages[i + 1..];
    }
    r := Rule(p.when, "");
  }

  predicate Full(q: Input, p: Profile, kind: string) {
    && kind in p.captchaAt && p.captchaAt[kind] > 0
    && kind in q.levels && q.levels[kind] >= p.captchaAt[kind] as real
  }

  predicate Hot(q: Input, p: Profile) {
    Full(q, p, "ip") || Full(q, p, "asn_net") || Full(q, p, "asn_router")
  }

  function TriggerOf(q: Input, p: Profile, rule: Rule, hadClearance: bool, asked: Asked.Ask): Trigger {
    if hadClearance then ByReverify
    else if asked.skip then NoTrigger
    else if rule.when.Never? then NoTrigger
    else if rule.when.Always? then ByRule
    else if Hot(q, p) then ByHeat
    else if asked.want then ByPrior
    else NoTrigger
  }

  // ---- the answer ----

  predicate ShowsPage(q: Input) {
    if q.secFetchDest == "" then q.upgradeInsecure || q.acceptsHtml
    else q.secFetchDest in ["document", "iframe", "frame"]
  }

  predicate Navigational(q: Input, p: Profile) {
    q.verb in p.gate.redirectMethods && (p.gate.htmlOnly ==> ShowsPage(q))
  }

  function WouldBe(q: Input, p: Profile): Verdict {
    if Navigational(q, p) then Redirect else Deny
  }

  predicate Plain(s: string) {
    forall i | 0 <= i < |s| :: '!' <= s[i] <= '~' && s[i] != '\\'
  }

  /** Where to come back to: a path on this site, printable and not too long, or nothing. */
  function ReturnPath(uri: string, args: string): string {
    if uri == "" || uri[0] != '/' || HasPrefix(uri, "//") then ""
    else
      var back := uri + if args != "" then "?" + args else "";
      if |back| <= 1024 && Plain(back) then back else ""
  }

  function AttemptOf(q: Input, p: Profile): int {
    if !q.hasTicket then 1
    else
      match Tickets.OpenTicket(q.ticket, q.now)
      case Valid(t) => if t.profile == p.name then t.attempt + 1 else 1
      case _ => 1
  }

  function IssueTicket(q: Input, p: Profile, attempt: int, w: World): Option<Tickets.Ticket> {
    if !w.seals then None
    else
      Some(Tickets.Ticket(w.nonce, ReturnPath(q.uri, q.args), p.name, attempt,
                          Tickets.ExpiryOf(q.now, p.ticketTtl),
                          if p.bindsNet then q.net else "", if p.bindsUa then q.ua else ""))
  }

  function AllowWith(p: Profile, c: Option<Clearance>, code: Code, engine: Engine): Result {
    var noted := if c.Some? then engine.(jti := Some(c.value.jti), provider := Some(c.value.provider)) else engine;
    BLANK.(code := code, clearance := c, engine := noted,
           header := if p.header != "" then Some((p.header, if c.Some? then c.value.provider else "none")) else None)
  }

  function RedirectTo(q: Input, p: Profile, ticket: Option<Tickets.Ticket>, code: Code): Result {
    if ticket.None? then BLANK.(verdict := Deny, code := code, response := p.gate.denyResponse)
    else BLANK.(verdict := Redirect, code := code, redirect := Some((p.path, ReturnPath(q.uri, q.args))),
                redirectStatus := p.gate.redirectStatus, cookie := ticket)
  }

  function EventOf(q: Input, r: Result): Event {
    match r.code
    case Passed => if r.clearance.Some? then Cleared else NoEvent
    case IsOff => NoEvent
    case Self => NoEvent
    case UnknownProfile => NoEvent
    case ListUnavailable => NoEvent
    case NoCode => NoEvent
    case _ => if !q.hasClearance && q.storeDown != "" then NoEvent else Uncleared
  }

  function NextOf(r: Result): NextStep {
    if r.trigger != NoTrigger then Challenge
    else if r.verdict == Allow && r.code != IsOff && r.code != Self then Pass
    else Nothing
  }

  function Finished(q: Input, r: Result): Result {
    r.(event := EventOf(q, r), next := NextOf(r))
  }

  /** What is noted before anything is decided. */
  function Noted(q: Input, p: Profile): Engine {
    NO_NOTES.(profile := Some(p.name), mode := Some(p.mode), passive := p.mode.Observe?, store := q.storeDown)
  }

  function NotedAsks(q: Input, engine: Engine): Engine {
    engine.(actions := q.asked.outcomes, buckets := q.levels)
  }

  function OpenedOf(q: Input, p: Profile, w: World): Opened {
    if q.given.Some? then q.given.value else Open(q, p, w)
  }

  /** The request goes through on its clearance. */
  function PassOn(q: Input, p: Profile, c: Clearance): Result {
    AllowWith(p, Some(c), Passed, NotedAsks(q, Noted(q, p)).(actions := Asked.ClearedAll(q.asked.outcomes)))
  }

  /** A navigation is sent to the challenge, or shown the form in place. */
  function SentOff(q: Input, p: Profile, ticket: Option<Tickets.Ticket>, trigger: Trigger, code: Code,
                   findings: seq<Finding>, engine: Engine): Result {
    var r := RedirectTo(q, p, ticket, code);
    if p.gate.inline && ticket.Some? then
      r.(verdict := Deny, response := p.gate.denyResponse, inline := true, trigger := trigger,
         findings := findings, engine := engine.(inline := true))
    else r.(trigger := trigger, findings := findings, engine := engine)
  }

  /** A challenge is required. */
  function Challenged(q: Input, p: Profile, w: World, trigger: Trigger, code: Code, findings: seq<Finding>,
                      engine: Engine): Result {
    if p.mode.Observe? then
      AllowWith(p, None, Observed, engine.(wouldVerdict := Some(WouldBe(q, p)), wouldCode := Some(code)))
        .(findings := findings, trigger := trigger)
    else
      var attempt := AttemptOf(q, p);
      var noted := engine.(attempt := Some(attempt));
      var ticket := IssueTicket(q, p, attempt, w);
      if Navigational(q, p) then SentOff(q, p, ticket, trigger, code, findings, noted)
      else
        BLANK.(verdict := Deny, code := code, response := p.gate.denyResponse, cookie := ticket,
               trigger := trigger, findings := findings, engine := noted)
  }

  /** What the request comes to, whatever the profile then does about it. */
  datatype Ruling =
    | OwnSite
    | NoList(findings: seq<Finding>)
    | Through(clearance: Clearance)
    | Free(findings: seq<Finding>)
    | Asks(trigger: Trigger, code: Code, findings: seq<Finding>)

  function Ruled(q: Input, p: Profile, w: World): Ruling {
    if OwnPath(p, q.uri) then OwnSite
    else
      var o := OpenedOf(q, p, w);
      if o.code == ListUnavailable then NoList(o.findings)
      else if o.clearance.Some? && !Full(q, p, "sess") then Through(o.clearance.value)
      else
        var trigger := TriggerOf(q, p, RuleFor(p.pages, p.when, q.verb, q.uri), o.clearance.Some?, q.asked);
        if trigger == NoTrigger then Free(o.findings)
        else Asks(trigger, if o.clearance.Some? then Reverify else o.code, o.findings)
  }

  /** What is noted once the rule is known. */
  function NotedRule(q: Input, p: Profile, w: World): Engine {
    NotedAsks(q, Noted(q, p)).(
    sessFull := OpenedOf(q, p, w).clearance.Some?, page := RuleFor(p.pages, p.when, q.verb, q.uri).page)
  }

  function Answer(q: Input, w: World): Result {
    if q.profile.None? then BLANK.(verdict := Error, code := UnknownProfile, findings := [NoProfile(q.ask)])
    else
      var p := q.profile.value;
      if p.mode.Off? then AllowWith(p, None, IsOff, Noted(q, p))
      else
        match Ruled(q, p, w)
        case OwnSite => AllowWith(p, None, Self, Noted(q, p).(self := true))
        case NoList(findings) =>
          BLANK.(verdict := Error, code := ListUnavailable, findings := findings, engine := NotedAsks(q, Noted(q, p)))
        case Through(c) => PassOn(q, p, c)
        case Free(findings) => AllowWith(p, None, NotRequired, NotedRule(q, p, w)).(findings := findings)
        case Asks(trigger, code, findings) =>
          Challenged(q, p, w, trigger, code, findings,
                     NotedRule(q, p, w).(trigger := trigger, reason := Some(code)))
  }

  /** The decision, its notes filled in as it goes; the event and the next step follow from the answer,
      whichever way it came about. */
  method Check(q: Input, w: World) returns (out: Result)
    ensures out == Finished(q, Answer(q, w))
  {
    hide NotedAsks, NotedRule, AllowWith, PassOn, Open, RuleFor, OwnPath, Full, TriggerOf, Challenged, Finished;
    if q.profile.None? {
      out := BLANK.(verdict := Error, code := UnknownProfile, findings := [NoProfile(q.ask)]);
      return Finished(q, out);
    }
    var p := q.profile.value;
    var engine := StartNotes(q, p);
    if p.mode.Off? {
      return Finished(q, AllowWith(p, None, IsOff, engine));
    }
    if OwnPath(p, q.uri) {
      engine := engine.(self := true);
      return Finished(q, AllowWith(p, None, Self, engine));
    }
    engine := NoteAsks(q, engine);
    var o := if q.given.Some? then q.given.value else Open(q, p, w);
    if o.code == ListUnavailable {
      out := BLANK.(verdict := Error, code := o.code, findings := o.findings, engine := engine);
      return Finished(q, out);
    }
    out := Weigh(q, p, w, o, engine);
    out := Finished(q, out);
  }

  /** The decision once the clearance has been opened, or not. */
  method Weigh(q: Input, p: Profile, w: World, o: Opened, notes: Engine) returns (out: Result)
    requires q.profile == Some(p) && !p.mode.Off? && !OwnPath(p, q.uri)
    requires o == OpenedOf(q, p, w) && o.code != ListUnavailable && notes == NotedAsks(q, Noted(q, p))
    ensures out == Answer(q, w)
  {
    hide AllowWith, OpenedOf, RuleFor, OwnPath, Full, TriggerOf, Challenged, Asked.ClearedAll;
    NothingCleared(q.asked.outcomes);
    var code, engine := o.code, notes;
    if o.clearance.Some? {
      if !Full(q, p, "sess") {
        if |q.asked.outcomes| != 0 {
          engine := engine.(actions := Asked.ClearedAll(q.asked.outcomes));
        }
        return AllowWith(p, o.clearance, Passed, engine);
      }
      code := Reverify;
      engine := engine.(sessFull := true);
    }
    var rule := FindRule(p, q.verb, q.uri);
    if rule.page != "" {
      engine := engine.(page := rule.page);
    }
    var trigger := TriggerOf(q, p, rule, o.clearance.Some?, q.asked);
    if trigger == NoTrigger {
      out := AllowWith(p, None, NotRequired, engine);
      return out.(findings := o.findings);
    }
    engine := engine.(trigger := trigger);
    engine := engine.(reason := Some(code));
    out := AnswerChallenge(q, p, w, trigger, code, o.findings, engine);
  }

  method NoteAsks(q: Input, notes: Engine) returns (engine: Engine)
    requires notes.actions == [] && notes.buckets == map[]
    ensures engine == NotedAsks(q, notes)
  {
    engine := notes;
    if |q.asked.outcomes| != 0 {
      engine := engine.(actions := q.asked.outcomes);
    }
    if |q.levels| != 0 {
      engine := engine.(buckets := q.levels);
    }
  }

  method StartNotes(q: Input, p: Profile) returns (engine: Engine)
    ensures engine == Noted(q, p)
  {
    engine := NO_NOTES.(profile := Some(p.name), mode := Some(p.mode));
    if p.mode.Observe? {
      engine := engine.(passive := true);
    }
    if q.storeDown != "" {
      engine := engine.(store := q.storeDown);
    }
  }

  method AnswerChallenge(q: Input, p: Profile, w: World, trigger: Trigger, code: Code, findings: seq<Finding>,
                         notes: Engine) returns (out: Result)
    ensures out == Challenged(q, p, w, trigger, code, findings, notes)
  {
    hide Navigational, AttemptOf, IssueTicket, WouldBe, AllowWith, SentOff;
    var engine := notes;
    if p.mode.Observe? {
      engine := engine.(wouldVerdict := Some(WouldBe(q, p)));
      engine := engine.(wouldCode := Some(code));
      out := AllowWith(p, None, Observed, engine);
      return out.(findings := findings, trigger := trigger);
    }
    var attempt := AttemptOf(q, p);
    engine := engine.(attempt := Some(attempt));
    var ticket := IssueTicket(q, p, attempt, w);
    if Navigational(q, p) {
      out := SendOff(q, p, ticket, trigger, code, findings, engine);
      return;
    }
    out := BLANK.(verdict := Deny, code := code, response := p.gate.denyResponse, cookie := ticket,
                  trigger := trigger, findings := findings, engine := engine);
  }

  method SendOff(q: Input, p: Profile, ticket: Option<Tickets.Ticket>, trigger: Trigger, code: Code,
                 findings: seq<Finding>, notes: Engine) returns (out: Result)
    ensures out == SentOff(q, p, ticket, trigger, code, findings, notes)
  {
    hide RedirectTo;
    var engine := notes;
    out := RedirectTo(q, p, ticket, code);
    if p.gate.inline && ticket.Some? {
      out := out.(verdict := Deny, response := p.gate.denyResponse, inline := true);
      engine := engine.(inline := true);
    }
    out := out.(trigger := trigger, findings := findings, engine := engine);
  }

  // ---- rules and paths ----

  /** A page rule is for its methods, or all, and for its path alone or whatever begins with it. */
  lemma MatchesIff(r: PageRule, verb: string, uri: string)
    ensures Matches(r, verb, uri) <==>
            && (r.methods == [] || exists i :: 0 <= i < |r.methods| && r.methods[i] == verb)
            && (if r.exact then uri == r.path else r.path <= uri)
  {
    assert r.path <= uri <==> |r.path| <= |uri| && uri[..|r.path|] == r.path;
  }

  /** Only slashes follow the first n characters, which do not end in one. */
  predicate TrimsTo(s: string, n: nat) {
    n <= |s| && (n > 0 ==> s[n - 1] != '/') && forall i | n <= i < |s| :: s[i] == '/'
  }

  lemma {:induction false} Trimmed(s: string) returns (n: nat)
    ensures TrimsTo(s, n) && TrimSlashes(s) == s[..n]
  {
    n := |s|;
    if s != [] && s[|s| - 1] == '/' {
      n := Trimmed(s[..|s| - 1]);
      assert s[..|s| - 1][..n] == s[..n];
    }
  }

  /** The captcha's own pages are its path, and what lies below it, whatever slashes the path ends in. */
  lemma OwnPathIff(p: Profile, uri: string)
    ensures OwnPath(p, uri) <==>
            && p.path != ""
            && (|| uri == p.path
                || exists n: nat | TrimsTo(p.path, n) :: n < |uri| && uri[n] == '/' && uri[..n] == p.path[..n])
  {
    var n := Trimmed(p.path);
    var prefix := p.path[..n] + "/";
    assert |prefix| == n + 1;
    if HasPrefix(uri, prefix) {
      assert uri[..n + 1][n] == '/' && uri[..n + 1][..n] == uri[..n];
      assert prefix[..n] == p.path[..n];
    }
    if n < |uri| && uri[n] == '/' && uri[..n] == p.path[..n] {
      assert uri[..n + 1] == uri[..n] + [uri[n]] == prefix;
    }
    forall m: nat | TrimsTo(p.path, m) ensures m == n {
      TrimsToOne(p.path, m, n);
    }
  }

  lemma TrimsToOne(s: string, m: nat, n: nat)
    requires TrimsTo(s, m) && TrimsTo(s, n)
    ensures m == n
  {
  }

  /** The page rule is the first that matches; if none does, the profile's own setting counts. */
  lemma {:induction false} RuleIsFirst(pages: seq<PageRule>, when: When, verb: string, uri: string)
    ensures var r := RuleFor(pages, when, verb, uri);
            || (r == Rule(when, "") && forall i | 0 <= i < |pages| :: !Matches(pages[i], verb, uri))
            || (exists i | 0 <= i < |pages| :: Matches(pages[i], verb, uri) && r == Rule(pages[i].when, pages[i].path)
                                                 && forall j | 0 <= j < i :: !Matches(pages[j], verb, uri))
  {
    hide Matches;
    if pages != [] && !Matches(pages[0], verb, uri) {
      RuleIsFirst(pages[1..], when, verb, uri);
      if i :| 0 <= i < |pages[1..]| && Matches(pages[1..][i], verb, uri)
              && RuleFor(pages[1..], when, verb, uri) == Rule(pages[1..][i].when, pages[1..][i].path)
              && forall j | 0 <= j < i :: !Matches(pages[1..][j], verb, uri)
      {
        assert Matches(pages[i + 1], verb, uri);
        forall j | 0 <= j < i + 1 ensures !Matches(pages[j], verb, uri) {
          assert j == 0 || !Matches(pages[1..][j - 1], verb, uri);
        }
      } else {
        forall j | 0 <= j < |pages| ensures !Matches(pages[j], verb, uri) {
          assert j == 0 || !Matches(pages[1..][j - 1], verb, uri);
        }
      }
    }
  }

  /** Where a redirect comes back to is on this site: one slash in front, all of it printable, no backslash
      anywhere, and not too long. What is not so comes back to nowhere. */
  lemma ReturnsHere(uri: string, args: string)
    ensures var whole := if args == "" then uri else uri + "?" + args;
            var here := && uri != "" && uri[0] == '/' && (|uri| > 1 ==> uri[1] != '/') && |whole| <= 1024
                        && forall i | 0 <= i < |whole| :: '!' <= whole[i] <= '~' && whole[i] != '\\';
            ReturnPath(uri, args) == if here then whole else ""
  {
    hide Plain, HasPrefix;
    var whole := if args == "" then uri else uri + "?" + args;
    assert uri + "" == uri && uri + ("?" + args) == uri + "?" + args;
    PlainIff(whole);
    TwoSlashes(uri);
  }

  lemma PlainIff(s: string)
    ensures Plain(s) <==> forall i | 0 <= i < |s| :: '!' <= s[i] <= '~' && s[i] != '\\'
  {
  }

  lemma TwoSlashes(uri: string)
    ensures HasPrefix(uri, "//") <==> |uri| > 1 && uri[0] == '/' && uri[1] == '/'
  {
    assert |uri| > 1 ==> uri[..2] == [uri[0], uri[1]];
  }

  // ---- the answer, end by end ----

  /** The bucket's level is at what the profile asks a captcha at, if it does. */
  predicate AtLimit(q: Input, p: Profile, kind: string) {
    && kind in p.captchaAt && 0 < p.captchaAt[kind]
    && kind in q.levels && p.captchaAt[kind] as real <= q.levels[kind]
  }

  /** What every answer under a profile notes: the profile and its mode, and the store if it is down. */
  ghost function Start(q: Input, p: Profile): Engine {
    Engine(Some(p.name), Some(p.mode), p.mode == Observe, q.storeDown, false, [], map[], None, None, false, "",
           NoTrigger, None, None, None, None, false)
  }

  /** Without a profile, with the captcha off, and on its own pages nothing is asked, made an event of or done
      next. */
  lemma AnswerOutside(q: Input, w: World)
    ensures var r := Finished(q, Answer(q, w));
            q.profile == None ==>
              r == Result(Error, UnknownProfile, "", None, 0, false, None, None, None, NoTrigger,
                          [NoProfile(q.ask)], NO_NOTES, NoEvent, Nothing)
    ensures var r := Finished(q, Answer(q, w));
            q.profile.Some? && (q.profile.value.mode == Off || OwnPath(q.profile.value, q.uri)) ==>
              var p := q.profile.value;
              r == Result(Allow, if p.mode == Off then IsOff else Self, "", None, 0, false, None,
                          if p.header == "" then None else Some((p.header, "none")), None, NoTrigger, [],
                          Start(q, p).(self := p.mode != Off), NoEvent, Nothing)
  {
    hide OwnPath, NotedAsks, NotedRule, Challenged, PassOn;
  }

  /** Why a challenge is required: the session of the clearance that opened is full; the page's rule always asks; it
      asks when buckets run hot, and the address's, its network's or its router's does; or then, with none of them
      hot, an earlier inspector wants one. An earlier inspector may waive all but the first. */
  lemma WhyChallenged(q: Input, p: Profile, w: World)
    requires q.profile == Some(p) && p.mode != Off && !OwnPath(p, q.uri)
    ensures var t := Answer(q, w).trigger;
            var o := if q.given.Some? then q.given.value else Open(q, p, w);
            var when := RuleFor(p.pages, p.when, q.verb, q.uri).when;
            var hot := AtLimit(q, p, "ip") || AtLimit(q, p, "asn_net") || AtLimit(q, p, "asn_router");
            var bare := o.code != ListUnavailable && o.clearance == None && !q.asked.skip;
            && (t == ByReverify <==> o.code != ListUnavailable && o.clearance.Some? && AtLimit(q, p, "sess"))
            && (t == ByRule <==> bare && when == Always)
            && (t == ByHeat <==> bare && when == OnBuckets && hot)
            && (t == ByPrior <==> bare && when == OnBuckets && !hot && q.asked.want)
  {
    hide Noted, NotedAsks, NotedRule, OwnPath, RuleFor, Open, Challenged, AtLimit, Full;
    LimitsIff(q, p);
    forall trigger, code, findings, notes
      ensures Challenged(q, p, w, trigger, code, findings, notes).trigger == trigger
    {
      ChallengedFor(q, p, w, trigger, code, findings, notes);
    }
  }

  lemma LimitsIff(q: Input, p: Profile)
    ensures forall kind :: Full(q, p, kind) <==> AtLimit(q, p, kind)
  {
  }

  /** While the list cannot answer there is an error, and nothing else. */
  lemma AnswerDown(q: Input, p: Profile, w: World)
    requires q.profile == Some(p) && p.mode != Off && !OwnPath(p, q.uri)
    requires var o := if q.given.Some? then q.given.value else Open(q, p, w); o.code == ListUnavailable
    ensures var o := if q.given.Some? then q.given.value else Open(q, p, w);
            Finished(q, Answer(q, w)) ==
            Result(Error, ListUnavailable, "", None, 0, false, None, None, None, NoTrigger, o.findings,
                   Start(q, p).(actions := q.asked.outcomes, buckets := q.levels), NoEvent, Nothing)
  {
    hide OwnPath, RuleFor, Open, AllowWith, PassOn, Challenged, NotedRule, TriggerOf;
  }

  /** A request passes on the clearance that opened; the upstream learns who provided it, and the challenges that
      were asked for are noted as cleared. */
  lemma AnswerThrough(q: Input, p: Profile, w: World)
    requires q.profile == Some(p) && p.mode != Off && !OwnPath(p, q.uri) && Answer(q, w).trigger == NoTrigger
    requires var o := if q.given.Some? then q.given.value else Open(q, p, w);
             o.code != ListUnavailable && o.clearance.Some?
    ensures var c := (if q.given.Some? then q.given.value else Open(q, p, w)).clearance.value;
            Finished(q, Answer(q, w)) ==
            Result(Allow, Passed, "", None, 0, false, None,
                   if p.header == "" then None else Some((p.header, c.provider)), Some(c), NoTrigger, [],
                   Start(q, p).(actions := Asked.ClearedAll(q.asked.outcomes), buckets := q.levels,
                                jti := Some(c.jti), provider := Some(c.provider)),
                   Cleared, Pass)
  {
    hide OwnPath, RuleFor, Open, OpenedOf, Ruled, Challenged, NotedRule, Asked.ClearedAll;
    NothingCleared(q.asked.outcomes);
    RulingTold(q, p, w);
  }

  /** Or it passes without one, under a rule that asks nothing of it; what was wrong with the one it brought is still
      found. */
  lemma AnswerFree(q: Input, p: Profile, w: World)
    requires q.profile == Some(p) && p.mode != Off && !OwnPath(p, q.uri) && Answer(q, w).trigger == NoTrigger
    requires var o := if q.given.Some? then q.given.value else Open(q, p, w);
             o.code != ListUnavailable && o.clearance.None?
    ensures var o := if q.given.Some? then q.given.value else Open(q, p, w);
            Finished(q, Answer(q, w)) ==
            Result(Allow, NotRequired, "", None, 0, false, None,
                   if p.header == "" then None else Some((p.header, "none")), None, NoTrigger, o.findings,
                   Start(q, p).(actions := q.asked.outcomes, buckets := q.levels,
                                page := RuleFor(p.pages, p.when, q.verb, q.uri).page),
                   if !q.hasClearance && q.storeDown != "" then NoEvent else Uncleared, Pass)
  {
    hide OwnPath, RuleFor, Open, OpenedOf, Ruled, Challenged, PassOn;
    RulingTold(q, p, w);
  }

  lemma NothingCleared(os: seq<Asked.Outcome>)
    ensures os == [] ==> Asked.ClearedAll(os) == []
  {
  }

  /** What the trigger of an answer says of the ruling behind it. */
  lemma RulingTold(q: Input, p: Profile, w: World)
    requires q.profile == Some(p) && p.mode != Off && !OwnPath(p, q.uri)
    ensures var t := Answer(q, w).trigger;
            var o := if q.given.Some? then q.given.value else Open(q, p, w);
            && o == OpenedOf(q, p, w)
            && Ruled(q, p, w) ==
               (if t != NoTrigger then Asks(t, if o.clearance.Some? then Reverify else o.code, o.findings)
                else if o.code == ListUnavailable then NoList(o.findings)
                else if o.clearance.Some? then Through(o.clearance.value)
                else Free(o.findings))
  {
    hide OwnPath, RuleFor, Open, Challenged, TriggerOf, Full, Noted, NotedAsks, NotedRule;
    RuledCodes(q, p, w);
    FullReverifies(q, p, RuleFor(p.pages, p.when, q.verb, q.uri));
    forall trigger, code, findings, notes
      ensures Challenged(q, p, w, trigger, code, findings, notes).trigger == trigger
    {
      ChallengedFor(q, p, w, trigger, code, findings, notes);
    }
  }

  lemma ChallengedFor(q: Input, p: Profile, w: World, trigger: Trigger, code: Code, findings: seq<Finding>,
                      notes: Engine)
    ensures Challenged(q, p, w, trigger, code, findings, notes).trigger == trigger
  {
    hide Navigational, AttemptOf, IssueTicket, ReturnPath;
  }

  lemma FullReverifies(q: Input, p: Profile, rule: Rule)
    ensures TriggerOf(q, p, rule, true, q.asked) == ByReverify
  {
  }

  /** What is noted where a challenge is required. */
  ghost function ChallengeNotes(q: Input, p: Profile, o: Opened, trigger: Trigger): Engine {
    Engine(Some(p.name), Some(p.mode), p.mode == Observe, q.storeDown, false, q.asked.outcomes, q.levels, None, None,
           o.clearance.Some?, RuleFor(p.pages, p.when, q.verb, q.uri).page, trigger,
           Some(if o.clearance.Some? then Reverify else o.code), None, None, None, false)
  }

  lemma ChallengeNoted(q: Input, p: Profile, w: World)
    ensures var o := if q.given.Some? then q.given.value else Open(q, p, w);
            var code := if o.clearance.Some? then Reverify else o.code;
            forall t :: NotedRule(q, p, w).(trigger := t, reason := Some(code)) == ChallengeNotes(q, p, o, t)
  {
    hide Open, RuleFor;
  }

  /** A challenge that is required and only observed lets the request through, and notes what it would have been. */
  lemma AnswerObserved(q: Input, p: Profile, w: World)
    requires q.profile == Some(p) && p.mode == Observe && !OwnPath(p, q.uri) && Answer(q, w).trigger != NoTrigger
    ensures var r := Finished(q, Answer(q, w));
            var o := if q.given.Some? then q.given.value else Open(q, p, w);
            r == Result(Allow, Observed, "", None, 0, false, None,
                        if p.header == "" then None else Some((p.header, "none")), None, r.trigger, o.findings,
                        ChallengeNotes(q, p, o, r.trigger).(
                        wouldVerdict := Some(if Navigates(q, p) then Redirect else Deny),
                        wouldCode := Some(if o.clearance.Some? then Reverify else o.code)),
                        if !q.hasClearance && q.storeDown != "" then NoEvent else Uncleared, Challenge)
  {
    hide OwnPath, RuleFor, Open, OpenedOf, Ruled, Navigates, Challenged, AllowWith, PassOn, Noted, NotedAsks, NotedRule,
      ChallengeNotes;
    ChallengeNoted(q, p, w);
    RulingTold(q, p, w);
    forall trigger, code, findings, notes
      ensures Watched(q, p, trigger, code, findings, notes, Challenged(q, p, w, trigger, code, findings, notes))
    {
      WatchedTold(q, p, w, trigger, code, findings, notes);
    }
  }

  /** An observed challenge, but for its event and next step. */
  ghost predicate Watched(q: Input, p: Profile, trigger: Trigger, code: Code, findings: seq<Finding>, notes: Engine,
                          r: Result) {
    r == Result(Allow, Observed, "", None, 0, false, None,
                if p.header == "" then None else Some((p.header, "none")), None, trigger, findings,
                notes.(wouldVerdict := Some(if Navigates(q, p) then Redirect else Deny), wouldCode := Some(code)),
                NoEvent, Nothing)
  }

  lemma WatchedTold(q: Input, p: Profile, w: World, trigger: Trigger, code: Code, findings: seq<Finding>,
                    notes: Engine)
    requires p.mode == Observe
    ensures Watched(q, p, trigger, code, findings, notes, Challenged(q, p, w, trigger, code, findings, notes))
  {
    hide Navigational, Navigates;
    NavigatesIff(q, p);
  }

  /** A browser going to a page, as far as the profile can tell. */
  predicate Navigates(q: Input, p: Profile) {
    && (exists i :: 0 <= i < |p.gate.redirectMethods| && p.gate.redirectMethods[i] == q.verb)
    && (|| !p.gate.htmlOnly
        || (q.secFetchDest == "" && (q.upgradeInsecure || q.acceptsHtml))
        || q.secFetchDest == "document" || q.secFetchDest == "iframe" || q.secFetchDest == "frame")
  }

  /** One more than the attempt of the profile's own ticket, if the request brings one that is good. */
  predicate AttemptIs(q: Input, p: Profile, n: int) {
    if && q.hasTicket && q.ticket.Some? && q.ticket.value.nonce != "" && q.ticket.value.expiry != 0
       && q.now < q.ticket.value.expiry * 1_000_000_000 && q.ticket.value.profile == p.name
    then n == q.ticket.value.attempt + 1
    else n == 1
  }

  /** The ticket is for this profile, binds what it binds, and leads back to where the request was going. */
  predicate TicketFor(q: Input, p: Profile, w: World, t: Tickets.Ticket) {
    && t.nonce == w.nonce && t.profile == p.name && t.returnTo == ReturnPath(q.uri, q.args)
    && AttemptIs(q, p, t.attempt)
    && t.expiry * 1_000_000_000 <= q.now + p.ticketTtl < (t.expiry + 1) * 1_000_000_000
    && t.net == (if p.bindsNet then q.net else "") && t.ua == (if p.bindsUa then q.ua else "")
  }

  /** A challenge that is enforced comes with a ticket, if one can be sealed. With a ticket, navigations are redirected
      to the captcha's pages, or shown the form in place; all else is refused. The event and the next step follow. */
  ghost predicate Enforced(q: Input, p: Profile, w: World, trigger: Trigger, code: Code, findings: seq<Finding>,
                           notes: Engine, r: Result) {
    var sent := Navigates(q, p) && w.seals;
    var off := sent && !p.gate.inline;
    && (r.cookie.Some? <==> w.seals) && (w.seals ==> TicketFor(q, p, w, r.cookie.value))
    && r == Result(if off then Redirect else Deny, code, if off then "" else p.gate.denyResponse,
                   if sent then Some((p.path, ReturnPath(q.uri, q.args))) else None,
                   if sent then p.gate.redirectStatus else 0, sent && p.gate.inline, r.cookie, None, None, trigger,
                   findings, notes.(attempt := r.engine.attempt, inline := r.inline),
                   NoEvent, Nothing)
    && r.engine.attempt.Some? && AttemptIs(q, p, r.engine.attempt.value)
  }

  lemma AnswerEnforced(q: Input, p: Profile, w: World)
    requires q.profile == Some(p) && p.mode == Enforce && !OwnPath(p, q.uri) && Answer(q, w).trigger != NoTrigger
    ensures var r := Answer(q, w);
            var o := if q.given.Some? then q.given.value else Open(q, p, w);
            && Enforced(q, p, w, r.trigger, if o.clearance.Some? then Reverify else o.code, o.findings,
                        ChallengeNotes(q, p, o, r.trigger), r)
            && NextOf(r) == Challenge
  {
    hide OwnPath, RuleFor, Open, OpenedOf, Ruled, Challenged, AllowWith, PassOn, NotedRule, Enforced;
    ChallengeNoted(q, p, w);
    RulingTold(q, p, w);
    forall trigger, code, findings, notes: Engine | !notes.inline
      ensures Enforced(q, p, w, trigger, code, findings, notes, Challenged(q, p, w, trigger, code, findings, notes))
    {
      EnforcedTold(q, p, w, trigger, code, findings, notes);
    }
  }

  /** It is an event, unless the store is down and no clearance was brought. */
  lemma EnforcedEvent(q: Input, p: Profile, w: World)
    requires q.profile == Some(p) && p.mode == Enforce && !OwnPath(p, q.uri) && Answer(q, w).trigger != NoTrigger
    requires q.given.None?
    ensures var r := Finished(q, Answer(q, w));
            r.event == if !q.hasClearance && q.storeDown != "" then NoEvent else Uncleared
  {
    hide OwnPath, RuleFor, Open, OpenedOf, Ruled, AttemptIs, ReturnPath, Navigates, TicketFor, AllowWith,
      Challenged, PassOn, Noted, NotedAsks, NotedRule, ChallengeNotes;
    AnswerEnforced(q, p, w);
    WhyUnopened(q, p, w);
    RulingTold(q, p, w);
    RuledCodes(q, p, w);
  }

  lemma EnforcedTold(q: Input, p: Profile, w: World, trigger: Trigger, code: Code, findings: seq<Finding>,
                     notes: Engine)
    requires p.mode == Enforce && !notes.inline
    ensures Enforced(q, p, w, trigger, code, findings, notes, Challenged(q, p, w, trigger, code, findings, notes))
  {
    hide AttemptIs, AttemptOf, IssueTicket, TicketFor, ReturnPath, Navigational, Navigates;
    NavigatesIff(q, p);
    AttemptTold(q, p);
    TicketTold(q, p, w);
  }

  lemma TicketTold(q: Input, p: Profile, w: World)
    ensures var t := IssueTicket(q, p, AttemptOf(q, p), w);
            (t.Some? <==> w.seals) && (t.Some? ==> TicketFor(q, p, w, t.value))
  {
    hide AttemptIs, AttemptOf, ReturnPath;
    AttemptTold(q, p);
  }

  lemma NavigatesIff(q: Input, p: Profile)
    ensures Navigational(q, p) <==> Navigates(q, p)
  {
    assert q.verb in p.gate.redirectMethods <==>
           exists i :: 0 <= i < |p.gate.redirectMethods| && p.gate.redirectMethods[i] == q.verb;
    assert "document" == ["document", "iframe", "frame"][0] && "iframe" == ["document", "iframe", "frame"][1] &&
           "frame" == ["document", "iframe", "frame"][2];
  }

  lemma AttemptTold(q: Input, p: Profile)
    ensures AttemptIs(q, p, AttemptOf(q, p))
  {
  }

  // ---- what the decision means ----

  /** The reasons for a challenge, independent of their order. */
  predicate Challengeable(q: Input, p: Profile, w: World) {
    var when := RuleFor(p.pages, p.when, q.verb, q.uri).when;
    var hot := AtLimit(q, p, "ip") || AtLimit(q, p, "asn_net") || AtLimit(q, p, "asn_router");
    || (HasClearance(q, p, w) && AtLimit(q, p, "sess"))
    || (!HasClearance(q, p, w) && !q.asked.skip
        && (when == Always || (when == OnBuckets && (hot || q.asked.want))))
  }

  /** Off the captcha's own pages and while the list of clearances answers, a request is let through on a
      clearance with room, challenged for one of the reasons, or let through unchallenged; enforcing, it
      is let through exactly when it is not challenged. Events and next steps follow. */
  lemma DecisionMeaning(q: Input, p: Profile, w: World)
    requires q.profile == Some(p) && !p.mode.Off? && !OwnPath(p, q.uri) && OpenedHere(q, p, w)
    ensures var r := Finished(q, Answer(q, w));
            var down := ListSilent(q, p, w);
            && (r.verdict == Error <==> down)
            && (r.trigger != NoTrigger <==> !down && Challengeable(q, p, w))
            && (p.mode.Enforce? && !down ==> (r.verdict == Allow <==> !Challengeable(q, p, w)))
            && (r.event == Cleared <==> HasClearance(q, p, w) && !AtLimit(q, p, "sess"))
            && (r.next == Challenge <==> r.trigger != NoTrigger)
            && (r.next == Pass <==> !down && !Challengeable(q, p, w))
  {
    hide Noted, NotedAsks, NotedRule, OwnPath, OpenedOf, OpenedHere, Ruled, HasClearance, ListSilent, Challengeable,
      Navigational, AttemptOf, IssueTicket, ReturnPath;
    RulingMeaning(q, p, w);
    RuledCodes(q, p, w);
  }

  lemma RulingMeaning(q: Input, p: Profile, w: World)
    requires !OwnPath(p, q.uri) && OpenedHere(q, p, w)
    ensures var down := ListSilent(q, p, w);
            var rides := HasClearance(q, p, w) && !AtLimit(q, p, "sess");
            match Ruled(q, p, w)
            case OwnSite => false
            case NoList(_) => down && !rides
            case Through(_) => !down && rides && !Challengeable(q, p, w)
            case Free(_) => !down && !rides && !Challengeable(q, p, w)
            case Asks(_, _, _) => !down && !rides && Challengeable(q, p, w)
  {
    hide OwnPath, RuleFor, Open, Rightful, PastGrace, AtLimit, Full;
    LimitsIff(q, p);
    OpensIff(q, p, w);
    WhyUnopened(q, p, w);
  }

  // ---- observing and enforcing ----

  function In(q: Input, p: Profile, mode: Mode): Input {
    q.(profile := Some(p.(mode := mode)))
  }

  /** A clearance opened ahead is the one the request opens. */
  predicate OpenedHere(q: Input, p: Profile, w: World) {
    q.given.None? || q.given == Some(Open(q, p, w))
  }

  /** Whether enforcing answers with the verdict that observing notes. */
  predicate NotesVerdict(q: Input, p: Profile, w: World) {
    !Navigational(q, p) || (w.seals && !p.gate.inline)
  }

  /** A clearance opened ahead gives a reason to challenge that makes no event, where observing makes one. Opening
      the request's own gives no such reason. */
  predicate Muted(q: Input, p: Profile, w: World) {
    && Ruled(q, p, w).Asks? && Ruled(q, p, w).code in {NoCode, Passed, IsOff, Self, UnknownProfile, ListUnavailable}
    && (q.hasClearance || q.storeDown == "")
  }

  /** One request under one profile, observing and enforcing: the same trigger, findings and next step,
      and the same event unless a clearance opened ahead, not this request's own, mutes it. Observing lets the
      request through unless the list of clearances cannot be asked. */
  lemma ModesAgree(q: Input, p: Profile, w: World)
    ensures var a, b := Finished(q, Answer(In(q, p, Observe), w)), Finished(q, Answer(In(q, p, Enforce), w));
            && a.trigger == b.trigger && a.findings == b.findings && a.next == b.next
            && (OpenedHere(q, p, w) ==> a.event == b.event)
            && (a.event == b.event <==> !Muted(q, p, w))
            && (a.verdict == Allow || (a.verdict == Error && a.code == ListUnavailable && b.verdict == Error))
            && (a.trigger == NoTrigger ==> a.(engine := NO_NOTES) == b.(engine := NO_NOTES))
  {
    hide Answer, Ruled, OpenedHere, EventOf;
    RuledCodes(q, p, w);
    AnswerIn(q, p, w, Observe);
    AnswerIn(q, p, w, Enforce);
    SameEvents(q, Answer(In(q, p, Observe), w), Answer(In(q, p, Enforce), w));
  }

  /** The answer in each mode, by what the request comes to. */
  lemma AnswerIn(q: Input, p: Profile, w: World, mode: Mode)
    requires !mode.Off?
    ensures var r, ruled := Answer(In(q, p, mode), w), Ruled(q, p, w);
            match ruled
            case OwnSite => r.(engine := NO_NOTES) == AllowWith(p, None, Self, NO_NOTES).(engine := NO_NOTES)
            case NoList(f) => r.(engine := NO_NOTES) == BLANK.(verdict := Error, code := ListUnavailable, findings := f)
            case Through(c) => r.(engine := NO_NOTES) == AllowWith(p, Some(c), Passed, NO_NOTES).(engine := NO_NOTES)
            case Free(f) =>
              r.(engine := NO_NOTES) == AllowWith(p, None, NotRequired, NO_NOTES).(engine := NO_NOTES, findings := f)
            case Asks(trigger, code, f) =>
              && r.trigger == trigger && r.findings == f && r.clearance == None
              && r.code == (if mode.Observe? then Observed else code)
              && (mode.Observe? ==> r.verdict == Allow) && (mode.Enforce? ==> r.verdict != Allow)
  {
    hide Noted, NotedAsks, NotedRule, Ruled, Navigational, AttemptOf, IssueTicket, ReturnPath;
    RuledIgnoresMode(q, p, w, mode);
  }

  lemma SameEvents(q: Input, a: Result, b: Result)
    ensures a.code == b.code && a.clearance == b.clearance ==> EventOf(q, a) == EventOf(q, b)
    ensures a.code == Observed && b.clearance == None ==>
              (EventOf(q, a) == EventOf(q, b) <==>
               (b.code !in {NoCode, Passed, IsOff, Self, UnknownProfile, ListUnavailable} ||
                (!q.hasClearance && q.storeDown != "")))
  {
  }

  lemma OpenIgnoresMode(q: Input, p: Profile, w: World, mode: Mode)
    ensures OpenedOf(In(q, p, mode), p.(mode := mode), w) == OpenedOf(q, p, w)
  {
    hide OpenClearance;
  }

  lemma RuledIgnoresMode(q: Input, p: Profile, w: World, mode: Mode)
    ensures Ruled(In(q, p, mode), p.(mode := mode), w) == Ruled(q, p, w)
  {
    hide OpenedOf, TrimSlashes, RuleFor, HasPrefix;
    OpenIgnoresMode(q, p, w, mode);
  }

  /** The reasons a request of ours can be challenged for are not among those that make no event. */
  lemma RuledCodes(q: Input, p: Profile, w: World)
    ensures Ruled(q, p, w).Asks? ==> Ruled(q, p, w).trigger != NoTrigger
    ensures Ruled(q, p, w).Asks? && OpenedHere(q, p, w) ==>
              Ruled(q, p, w).code !in {NoCode, Passed, IsOff, Self, UnknownProfile, ListUnavailable}
  {
    hide OpenClearance, TrimSlashes, RuleFor, OwnPath, Full, Listed, FpRevoked, Hot;
  }

  /** When a challenge is required, what observing notes is what enforcing answers: always the code, and
      the verdict exactly when the request is not one to redirect, or is redirected for certain, with a
      ticket that seals and no form in place. */
  lemma WouldBeExact(q: Input, p: Profile, w: World)
    requires Answer(In(q, p, Observe), w).trigger != NoTrigger
    ensures var a, b := Answer(In(q, p, Observe), w), Answer(In(q, p, Enforce), w);
            && a.engine.wouldCode == Some(b.code) && a.engine.wouldVerdict.Some?
            && (a.engine.wouldVerdict == Some(b.verdict) <==> NotesVerdict(q, p, w))
  {
    hide Noted, NotedAsks, NotedRule, Ruled, AttemptOf, ReturnPath, ShowsPage, HasPrefix;
    RuledIgnoresMode(q, p, w, Observe);
    RuledIgnoresMode(q, p, w, Enforce);
    RuledCodes(q, p, w);
    SamePage(q, p, Observe);
    SamePage(q, p, Enforce);
  }

  /** Both ways of failing occur: a navigation that is challenged is noted as a redirect and refused, with the
      form in place where the ticket seals, and without one where it does not. */
  lemma NotedOtherwise(sealing: bool) returns (q: Input, p: Profile, w: World)
    ensures w.seals == sealing && (sealing ==> p.gate.inline)
    ensures var a, b := Answer(In(q, p, Observe), w), Answer(In(q, p, Enforce), w);
            && a.trigger != NoTrigger && b.trigger != NoTrigger
            && a.engine.wouldVerdict == Some(Redirect) && b.verdict == Deny && b.inline == sealing
  {
    var gate := Gate(["GET"], 302, "captcha_required", false, sealing);
    p := Profile("web", "/captcha", Enforce, [], Always, gate, map[], "X-WAF-Captcha", "", 0, false, false,
                 60 * Tickets.SECOND);
    q := Input(None, "", "GET", "/", "", false, None, false, None, "", "", "", false, false, Asked.NOTHING, map[],
               "", None, 0);
    w := World(None, None, "n", sealing);
    assert !OwnPath(p, q.uri) && Navigational(q, p) by {
      assert TrimSlashes("/captcha") == "/captcha";
      assert "GET" == p.gate.redirectMethods[0];
    }
    NothingBrought(q, p, w);
    RuledIgnoresMode(q, p, w, Observe);
    RuledIgnoresMode(q, p, w, Enforce);
    SamePage(q, p, Observe);
    SamePage(q, p, Enforce);
    hide Noted, NotedAsks, NotedRule, Ruled, AttemptOf, ReturnPath, ShowsPage, HasPrefix, OwnPath, Navigational;
  }

  lemma NothingBrought(q: Input, p: Profile, w: World)
    requires !q.hasClearance && q.storeDown == "" && q.given.None? && !q.asked.skip
    requires p.pages == [] && p.when.Always? && !OwnPath(p, q.uri)
    ensures Ruled(q, p, w) == Asks(ByRule, Required, [])
  {
    hide OwnPath;
  }

  lemma SamePage(q: Input, p: Profile, mode: Mode)
    ensures Navigational(In(q, p, mode), p.(mode := mode)) == Navigational(q, p)
  {
  }

  // ---- verdicts of inspectors no rule names ----

  /** Prior verdicts of inspectors named in no rule, put anywhere among the others, leave the trigger as it
      was or raise it from none to prior; they never lift a challenge. */
  lemma UnnamedOnlyRaise(q: Input, p: Profile, w: World, shorter: seq<Asked.Verdict>, longer: seq<Asked.Verdict>,
                         rules: Asked.Rules)
    requires Asked.AllSound(rules) && Asked.Weaves(shorter, longer, rules) && q.profile == Some(p)
    ensures var a := Answer(q.(asked := Asked.AskedOf(shorter, rules)), w).trigger;
            var b := Answer(q.(asked := Asked.AskedOf(longer, rules)), w).trigger;
            a == b || (a == NoTrigger && b == ByPrior)
  {
    hide Noted, NotedAsks, NotedRule, Ruled, Navigational, AttemptOf, IssueTicket, ReturnPath, Asked.AskedOf,
      Asked.Weaves, Asked.AllSound;
    Asked.UnnamedOnlyTighten(shorter, longer, rules);
    RuledByAsks(q, p, w, Asked.AskedOf(shorter, rules), Asked.AskedOf(longer, rules));
  }

  function TriggerIn(r: Ruling): Trigger {
    if r.Asks? then r.trigger else NoTrigger
  }

  lemma OpenIgnoresAsks(q: Input, p: Profile, w: World, asked: Asked.Ask)
    ensures OpenedOf(q.(asked := asked), p, w) == OpenedOf(q, p, w)
  {
    hide OpenClearance;
  }

  lemma RuledByAsks(q: Input, p: Profile, w: World, less: Asked.Ask, more: Asked.Ask)
    requires Asked.Tighter(less, more)
    ensures var a := TriggerIn(Ruled(q.(asked := less), p, w));
            var b := TriggerIn(Ruled(q.(asked := more), p, w));
            a == b || (a == NoTrigger && b == ByPrior)
  {
    hide OpenedOf, OwnPath, RuleFor;
    OpenIgnoresAsks(q, p, w, less);
    OpenIgnoresAsks(q, p, w, more);
  }
}
