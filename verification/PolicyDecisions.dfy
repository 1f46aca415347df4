/**
 The whole decision path: scoped exceptions first, then the pause state, then the resolved policy,
 and what the DNS and proxy adapters make of the outcome.
 */
module PolicyDecisions {
  import opened Wrappers
  import opened Domains
  import opened PolicyRules
  import G = Grants

  const DefaultGroupID: string := "default"

  /** A resolved requester: device and group for the grants, login for user-scoped rules. */
  datatype Requester = Requester(who: G.Identity, user: string)

  /** The state one decision reads. The default policy always exists. */
  datatype Context = Context(
    env: Env,
    groups: map<string, PolicyGroup>,
    exceptions: seq<G.Grant>,
    pauses: seq<G.Grant>,
    minuteIn: string -> int,
    gatewayCategories: seq<string>)
  {
    predicate Valid() { DefaultGroupID in groups }
  }

  function GroupOf(ctx: Context, who: G.Identity): PolicyGroup
    requires ctx.Valid()
  {
    if who.groupID in ctx.groups then ctx.groups[who.groupID] else ctx.groups[DefaultGroupID]
  }

  function ExceptionFor(ctx: Context, r: Requester, domain: string): Option<G.Grant> {
    G.Lookup(G.Exceptions, ctx.env.fold, ctx.exceptions, r.who, QueryName(ctx.env.fold, domain))
  }

  function PauseFor(ctx: Context, r: Requester): Option<G.Grant> {
    G.Lookup(G.Pauses, ctx.env.fold, ctx.pauses, r.who, "")
  }

  function RequestOf(ctx: Context, r: Requester, domain: string, layer: Layer): Request {
    Request(QueryName(ctx.env.fold, domain), r.user, ctx.minuteIn, layer, PauseFor(ctx, r).Some?, ctx.gatewayCategories)
  }

  function ScopeText(s: G.Scope): string {
    match s case Device => "device" case Group => "group" case Installation => "installation" case Unknown => ""
  }

  /** The pause, and nothing else, left the request unblocked. */
  ghost predicate PauseLetThrough(ctx: Context, r: Requester, domain: string, layer: Layer)
    requires ctx.Valid()
  {
    var g, req := GroupOf(ctx, r.who), RequestOf(ctx, r, domain, layer);
    && !SomeActive(ctx.env, g, req)
    && (SomeRuleHeldBack(ctx.env, g.rules, req, |g.rules|) || SomeListHeldBack(ctx.env, g, req))
  }

  /** What every evaluation answers. */
  ghost predicate Evaluated(ctx: Context, r: Requester, domain: string, layer: Layer, out: Outcome)
    requires ctx.Valid()
  {
    var exc, g, req := ExceptionFor(ctx, r, domain), GroupOf(ctx, r.who), RequestOf(ctx, r, domain, layer);
    var m := Meaning(ctx.env, g, req);
    if exc.Some? then
      && out.action == ActionAllow && out.ruleID == "" && out.matched == exc.value.domain
      && out.reason == "exception (" + ScopeText(exc.value.scope) + ")"
      && out.urlRegexes == [] && out.contentTypes == [] && out.proxyOnly == []
      && TraceExplains(out.trace, ActionAllow, true)
    else
      && (out.action, out.ruleID, out.matched) == (m.action, m.ruleID, m.matched)
      && (out.reason == if PauseLetThrough(ctx, r, domain, layer)
                        then "paused: " + ScopeText(PauseFor(ctx, r).value.scope) else m.reason)
      && Collected(ctx.env, g.rules, req, Reach(ctx.env, g.rules, req), out)
      && TraceExplains(out.trace, out.action, SomeActive(ctx.env, g, req))
  }

  lemma UndecidedHasNoReason(env: Env, group: PolicyGroup, req: Request)
    ensures SomeActive(env, group, req) <==> Meaning(env, group, req).reason != ""
    ensures !SomeActive(env, group, req) ==> Meaning(env, group, req) == Undecided
  {
    var cs := Clauses(env, group, req);
    forall k | 0 <= k < |cs|
      ensures cs[k].decision.reason != ""
    {
      if k < |group.rules| {
        assert cs[k] == RuleClause(env, group.rules[k], k, req);
      } else {
        assert cs[k] == ListClauses(env, group, req)[k - |group.rules|];
      }
    }
    FirstActiveReason(cs);
  }

  lemma {:induction false} FirstActiveReason(cs: seq<Clause>)
    requires forall k | 0 <= k < |cs| :: cs[k].decision.reason != ""
    ensures AnyActive(cs) <==> FirstActive(cs).reason != ""
    ensures !AnyActive(cs) ==> FirstActive(cs) == Undecided
    decreases |cs|
  {
    if cs != [] && !cs[0].active {
      FirstActiveReason(cs[1..]);
      if k :| 0 <= k < |cs| && cs[k].active {
        assert cs[1..][k - 1] == cs[k];
      }
      if k :| 0 <= k < |cs[1..]| && cs[1..][k].active {
        assert cs[k + 1].active;
      }
    }
  }

  /** evaluate. */
  method Evaluate(ctx: Context, r: Requester, domain: string, layer: Layer) returns (out: Outcome)
    requires ctx.Valid()
    ensures Evaluated(ctx, r, domain, layer, out)
  {
    var name := QueryName(ctx.env.fold, domain);
    var group := GroupOf(ctx, r.who);
    var exc := G.EvaluateIn(G.Exceptions, ctx.env.fold, ctx.exceptions, r.who, name);
    if exc.Some? {
      var scope := ScopeText(exc.value.scope);
      return Outcome(ActionAllow, "", exc.value.domain, "exception (" + scope + ")", [], [], "", "", [],
                     [TraceStep("exception", true, ActionAllow, scope + " exception for " + exc.value.domain)]);
    }
    var pause := G.EvaluateIn(G.Pauses, ctx.env.fold, ctx.pauses, r.who, "");
    var req := Request(name, r.user, ctx.minuteIn, layer, pause.Some?, ctx.gatewayCategories);
    out := EvaluateGroup(ctx.env, group, req);
    UndecidedHasNoReason(ctx.env, group, req);
    if pause.Some? && out.action != ActionBlock && out.reason == "" {
      var i := 0;
      while i < |out.trace| && !HasSuffix(out.trace[i].detail, ": paused")
        invariant 0 <= i <= |out.trace|
        invariant forall t | 0 <= t < i :: !HasSuffix(out.trace[t].detail, ": paused")
      {
        i := i + 1;
      }
      if i < |out.trace| {
        out := out.(reason := "paused: " + ScopeText(pause.value.scope));
      }
    }
  }

  // ---------------------------------------------------------------- adapters

  datatype ProxyMatch = ProxyMatch(
    matched: bool,
    allowed: bool,
    shouldBlock: bool,
    shouldMITM: bool,
    ruleID: string,
    reason: string,
    blockURLRegexes: seq<string>,
    blockContentTypes: seq<string>)

  /** evaluateProxyIn, after the evaluation. */
  function ToProxyMatch(out: Outcome): ProxyMatch {
    var conditional := out.urlRegexes != [] || out.contentTypes != [];
    if out.action == ActionBlock then ProxyMatch(true, false, true, false, out.ruleID, out.reason, [], [])
    else if conditional then
      ProxyMatch(true, out.action == ActionAllow, false, true, out.conditionRuleID, out.conditionReason, out.urlRegexes, out.contentTypes)
    else if out.action == ActionAllow then ProxyMatch(true, true, false, false, out.ruleID, out.reason, [], [])
    else ProxyMatch(false, false, false, false, out.ruleID, out.reason, [], [])
  }

  /**
   What the proxy is told: a block blocks, and otherwise the conditions that were collected, and only
   they, make it inspect, traced to the rule they come from; with neither, an allow is passed on and
   anything else leaves the gateway's own settings in charge.
   */
  lemma ProxyIsTold(ctx: Context, r: Requester, domain: string, layer: Layer, out: Outcome)
    requires ctx.Valid() && Evaluated(ctx, r, domain, layer, out) && ExceptionFor(ctx, r, domain).None?
    ensures var m, g, req := ToProxyMatch(out), GroupOf(ctx, r.who), RequestOf(ctx, r, domain, layer);
      var n := Reach(ctx.env, g.rules, req);
      var urls, types := UrlConditions(ctx.env, g.rules, req, n), TypeConditions(ctx.env, g.rules, req, n);
      && (m.shouldBlock <==> out.action == "block")
      && (m.shouldMITM <==> out.action != "block" && (urls != [] || types != []))
      && (m.shouldMITM ==> (m.blockURLRegexes, m.blockContentTypes) == (urls, types))
      && (m.shouldMITM ==> (m.ruleID, m.reason) == ConditionSource(ctx.env, g.rules, req, n))
      && (!m.shouldMITM ==> m.blockURLRegexes == [] && m.blockContentTypes == [] && (m.ruleID, m.reason) == (out.ruleID, out.reason))
      && (m.allowed <==> out.action == "allow")
      && (m.matched <==> m.shouldBlock || m.shouldMITM || m.allowed)
  {
  }

  /** Only the requester's own policy matters, and a requester without one has the default. */
  lemma OnlyOwnPolicyMatters(ctx: Context, other: Context, r: Requester, domain: string, layer: Layer, out: Outcome)
    requires ctx.Valid() && other.Valid() && other == ctx.(groups := other.groups)
    requires if r.who.groupID in ctx.groups
             then r.who.groupID in other.groups && other.groups[r.who.groupID] == ctx.groups[r.who.groupID]
             else r.who.groupID !in other.groups && other.groups["default"] == ctx.groups["default"]
    ensures Evaluated(ctx, r, domain, layer, out) <==> Evaluated(other, r, domain, layer, out)
  {
  }

  /** An exception overrides every policy on every layer, and asks for no inspection. */
  lemma ExceptionWins(ctx: Context, r: Requester, domain: string, layer: Layer, out: Outcome)
    requires ctx.Valid() && Evaluated(ctx, r, domain, layer, out)
    requires exists i | 0 <= i < |ctx.exceptions| ::
      G.Reaches(G.Exceptions, ctx.env.fold, ctx.exceptions[i], r.who, QueryName(ctx.env.fold, domain))
    ensures out.action == ActionAllow
    ensures out.reason in ["exception (device)", "exception (group)", "exception (installation)"]
    ensures var m := ToProxyMatch(out); m.allowed && !m.shouldBlock && !m.shouldMITM
  {
    G.LookupIsMostSpecific(G.Exceptions, ctx.env.fold, ctx.exceptions, r.who, QueryName(ctx.env.fold, domain));
    ExceptionReasons(ExceptionFor(ctx, r, domain).value.scope);
  }

  lemma ExceptionReasons(s: G.Scope)
    requires s != G.Unknown
    ensures "exception (" + ScopeText(s) + ")" in ["exception (device)", "exception (group)", "exception (installation)"]
  {
    var texts := ["exception (device)", "exception (group)", "exception (installation)"];
    match s {
      case Device => assert "exception (" + "device" + ")" == texts[0];
      case Group => assert "exception (" + "group" + ")" == texts[1];
      case Installation => assert "exception (" + "installation" + ")" == texts[2];
    }
  }

  /** For a requester no rule names, the DNS answer and the proxy decision never contradict each other. */
  lemma AdaptersAgree(ctx: Context, r: Requester, domain: string, layer: Layer, dns: Outcome, proxy: Outcome)
    requires ctx.Valid() && layer != DNS
    requires forall i | 0 <= i < |GroupOf(ctx, r.who).rules| :: r.user !in GroupOf(ctx, r.who).rules[i].users
    requires Evaluated(ctx, r, domain, DNS, dns) && Evaluated(ctx, r, domain, layer, proxy)
    ensures dns.action == proxy.action && dns.ruleID == proxy.ruleID && dns.matched == proxy.matched
    ensures dns.reason == proxy.reason
    ensures dns.action == ActionBlock <==> ToProxyMatch(proxy).shouldBlock
    ensures dns.action == ActionAllow <==> ToProxyMatch(proxy).allowed
    ensures dns.urlRegexes == [] && dns.contentTypes == [] && proxy.proxyOnly == []
  {
    if ExceptionFor(ctx, r, domain).None? {
      var g, req := GroupOf(ctx, r.who), RequestOf(ctx, r, domain, DNS);
      var other := RequestOf(ctx, r, domain, layer);
      LayersAgree(ctx.env, g, req, layer);
      UndecidedHasNoReason(ctx.env, g, req);
      UndecidedHasNoReason(ctx.env, g, other);
      PauseIgnoresLayer(ctx, r, domain, layer);
      NoNarrowing(ctx.env, g.rules, req, Reach(ctx.env, g.rules, req));
      OnlyMembers(proxy.proxyOnly);
    }
  }

  lemma PauseIgnoresLayer(ctx: Context, r: Requester, domain: string, layer: Layer)
    requires ctx.Valid()
    ensures var g, req, other := GroupOf(ctx, r.who), RequestOf(ctx, r, domain, DNS), RequestOf(ctx, r, domain, layer);
      && (SomeRuleHeldBack(ctx.env, g.rules, req, |g.rules|) <==> SomeRuleHeldBack(ctx.env, g.rules, other, |g.rules|))
      && (SomeListHeldBack(ctx.env, g, req) <==> SomeListHeldBack(ctx.env, g, other))
  {
  }

  /** Pausing anyone, at any scope, can only lift blocks: what is blocked with it is blocked without it. */
  lemma PausesOnlyLift(ctx: Context, r: Requester, domain: string, layer: Layer, with: Outcome, without: Outcome)
    requires ctx.Valid()
    requires Evaluated(ctx, r, domain, layer, with) && Evaluated(ctx.(pauses := []), r, domain, layer, without)
    ensures with.action == ActionBlock ==> without.action == ActionBlock
    ensures without.action == ActionAllow ==>
              && (with.action, with.ruleID) == (ActionAllow, without.ruleID)
              && (with.matched, with.reason) == (without.matched, without.reason)
  {
    if ExceptionFor(ctx, r, domain).None? {
      var g, req := GroupOf(ctx, r.who), RequestOf(ctx, r, domain, layer);
      assert RequestOf(ctx.(pauses := []), r, domain, layer) == req.(paused := false);
      if req.paused {
        assert req == req.(paused := true);
        if with.action == ActionBlock {
          PausedBlocksAreGateway(ctx.env, g, req);
        }
        if without.action == ActionAllow {
          PauseKeepsAllows(ctx.env, g, req);
          UndecidedHasNoReason(ctx.env, g, req);
          UndecidedHasNoReason(ctx.env, g, req.(paused := false));
        }
      } else {
        assert req == req.(paused := false);
      }
    }
  }
}
