/**
 One policy, one request: evaluateGroup and what it promises.

 Actions are the strings the source uses. `Env` carries what the evaluator reads besides the
 policy: string folding, the category sets and the text of a rule label (`%q` of its name, or `#n`).
 */
module PolicyRules {
  import opened Wrappers
  import opened Domains
  import opened Schedules

  type PolicyAction = string
  const ActionNone: PolicyAction := ""
  const ActionAllow: PolicyAction := "allow"
  const ActionBlock: PolicyAction := "block"

  datatype RuleTarget = RuleTarget(allTraffic: bool, domains: seq<string>, categories: seq<string>)

  datatype GroupRule = GroupRule(
    id: string,
    name: string,
    enabled: bool,
    action: PolicyAction,
    target: RuleTarget,
    urlRegexes: seq<string>,
    blockedContentTypes: seq<string>,
    schedule: Option<Schedule>,
    users: seq<string>)

  datatype PolicyGroup = PolicyGroup(
    blockedCategories: seq<string>,
    blockedDomains: seq<string>,
    allowedDomains: seq<string>,
    rules: seq<GroupRule>)

  datatype Layer = DNS | ExplicitProxy | TransparentProxy | Content

  /** `minuteIn` gives the local minute of the week of the request in a time zone. */
  datatype Request = Request(
    domain: string,
    user: string,
    minuteIn: string -> int,
    layer: Layer,
    paused: bool,
    gatewayCategories: seq<string>)

  datatype Env = Env(fold: Fold, sets: map<string, set<string>>, ruleLabel: (string, nat) -> string)

  datatype TraceStep = TraceStep(stage: string, applied: bool, action: PolicyAction, detail: string)

  datatype Outcome = Outcome(
    action: PolicyAction,
    ruleID: string,
    matched: string,
    reason: string,
    urlRegexes: seq<string>,
    contentTypes: seq<string>,
    conditionRuleID: string,
    conditionReason: string,
    proxyOnly: seq<string>,
    trace: seq<TraceStep>)

  // ------------------------------------------------------------ list matching

  /** The first listed value that hits, or "" when none does. */
  function FirstHit(values: seq<string>, hit: string -> bool): string {
    if values == [] then "" else if hit(values[0]) then values[0] else FirstHit(values[1..], hit)
  }

  ghost predicate IsFirstHit(values: seq<string>, hit: string -> bool, i: int) {
    0 <= i < |values| && hit(values[i]) && forall j | 0 <= j < i :: !hit(values[j])
  }

  lemma {:induction false} FirstHitIsLeast(values: seq<string>, hit: string -> bool, i: int)
    requires IsFirstHit(values, hit, i)
    ensures FirstHit(values, hit) == values[i]
    decreases |values|
  {
    if i > 0 {
      assert !hit(values[0]);
      assert IsFirstHit(values[1..], hit, i - 1) by {
        forall j | 0 <= j < i - 1 ensures !hit(values[1..][j]) { assert values[1..][j] == values[j + 1]; }
      }
      FirstHitIsLeast(values[1..], hit, i - 1);
    }
  }

  lemma {:induction false} NoHit(values: seq<string>, hit: string -> bool)
    requires forall i | 0 <= i < |values| :: !hit(values[i])
    ensures FirstHit(values, hit) == ""
    decreases |values|
  {
    if values != [] {
      NoHit(values[1..], hit);
    }
  }

  function MatchDomainList(env: Env, patterns: seq<string>, domain: string): string {
    FirstHit(patterns, p => MatchDomain(env.fold, p, domain))
  }

  function MatchCategoryList(env: Env, ids: seq<string>, domain: string): string {
    FirstHit(ids, id => CategoryCovers(env.fold, env.sets, id, domain))
  }

  /** For lists without a blank entry, a list match reports exactly whether some entry hits. */
  lemma FirstHitReports(values: seq<string>, hit: string -> bool)
    requires "" !in values || !hit("")
    ensures FirstHit(values, hit) != "" <==> exists i :: 0 <= i < |values| && hit(values[i])
  {
    if exists i :: 0 <= i < |values| && hit(values[i]) {
      var first := LeastHit(values, hit);
      FirstHitIsLeast(values, hit, first);
    } else {
      NoHit(values, hit);
    }
  }

  /** A category list answers exactly when one of its categories covers the domain. */
  lemma CategoryListReportsCoverage(env: Env, ids: seq<string>, domain: string)
    requires "" !in ids || "" !in env.sets
    ensures MatchCategoryList(env, ids, domain) != "" <==>
            exists i :: 0 <= i < |ids| && CategoryCovers(env.fold, env.sets, ids[i], domain)
  {
    FirstHitReports(ids, id => CategoryCovers(env.fold, env.sets, id, domain));
  }

  /** A domain list answers exactly when one of its patterns matches. */
  lemma DomainListReportsMatch(env: Env, patterns: seq<string>, domain: string)
    requires "" !in patterns
    ensures MatchDomainList(env, patterns, domain) != "" <==>
            exists i :: 0 <= i < |patterns| && MatchDomain(env.fold, patterns[i], domain)
  {
    FirstHitReports(patterns, p => MatchDomain(env.fold, p, domain));
  }

  lemma {:induction false} LeastHit(values: seq<string>, hit: string -> bool) returns (first: nat)
    requires exists i :: 0 <= i < |values| && hit(values[i])
    ensures IsFirstHit(values, hit, first)
  {
    first := 0;
    while !hit(values[first])
      invariant first < |values| && forall j | 0 <= j < first :: !hit(values[j])
      invariant exists i :: first <= i < |values| && hit(values[i])
      decreases |values| - first
    {
      first := first + 1;
    }
  }

  function MatchTarget(env: Env, target: RuleTarget, domain: string): string {
    if target.allTraffic then "*"
    else if MatchDomainList(env, target.domains, domain) != "" then MatchDomainList(env, target.domains, domain)
    else if MatchCategoryList(env, target.categories, domain) != "" then
      "category:" + MatchCategoryList(env, target.categories, domain)
    else ""
  }

  // -------------------------------------------------------- rule dispositions

  predicate Proxy(req: Request) { req.layer != DNS }

  function ConditionsNeedingProxy(rule: GroupRule): seq<string> {
    (if rule.urlRegexes != [] then ["url_regex"] else [])
    + (if rule.blockedContentTypes != [] then ["content_type"] else [])
    + (if rule.users != [] then ["user"] else [])
  }

  predicate Conditional(rule: GroupRule) {
    rule.urlRegexes != [] || rule.blockedContentTypes != []
  }

  predicate InSchedule(rule: GroupRule, req: Request) {
    rule.schedule.None? || On(rule.schedule.value, req.minuteIn(rule.schedule.value.timezone))
  }

  /** Enabled, covering the domain, inside its schedule, and not a paused block. */
  predicate Live(env: Env, rule: GroupRule, req: Request) {
    && rule.enabled
    && MatchTarget(env, rule.target, req.domain) != ""
    && InSchedule(rule, req)
    && !(rule.action == ActionBlock && req.paused)
  }

  /** The layer can see everything the rule asks about the requester. */
  predicate ForThisUser(rule: GroupRule, req: Request) {
    rule.users == [] || (Proxy(req) && req.user in rule.users)
  }

  /** The rule settles the request on this layer. */
  predicate Decides(env: Env, rule: GroupRule, req: Request) {
    Live(env, rule, req) && ForThisUser(rule, req) && !Conditional(rule)
  }

  /** The rule adds URL or content conditions for the proxy to test. */
  predicate Narrows(env: Env, rule: GroupRule, req: Request) {
    Live(env, rule, req) && ForThisUser(rule, req) && Conditional(rule) && Proxy(req)
  }

  /** DNS leaves the rule to the proxy. */
  predicate LeftToProxy(env: Env, rule: GroupRule, req: Request) {
    Live(env, rule, req) && !Proxy(req) && (Conditional(rule) || rule.users != [])
  }

  // ----------------------------------------------------- declarative meaning

  datatype Decision = Decision(action: PolicyAction, ruleID: string, matched: string, reason: string)

  const Undecided: Decision := Decision(ActionNone, "", "", "")

  /** One candidate answer; the first active clause decides. */
  datatype Clause = Clause(active: bool, decision: Decision)

  function RuleClause(env: Env, rule: GroupRule, i: nat, req: Request): Clause {
    Clause(Decides(env, rule, req),
           Decision(rule.action, rule.id, MatchTarget(env, rule.target, req.domain), "rule " + env.ruleLabel(rule.name, i)))
  }

  function AllowedClause(env: Env, group: PolicyGroup, req: Request): Clause {
    var p := MatchDomainList(env, group.allowedDomains, req.domain);
    Clause(p != "", Decision(ActionAllow, "", p, "allowed domain " + p))
  }

  function BlockedClause(env: Env, group: PolicyGroup, req: Request): Clause {
    var p := MatchDomainList(env, group.blockedDomains, req.domain);
    Clause(p != "" && !req.paused, Decision(ActionBlock, "", p, "blocked domain " + p))
  }

  function CategoryClause(env: Env, group: PolicyGroup, req: Request): Clause {
    var id := MatchCategoryList(env, group.blockedCategories, req.domain);
    Clause(id != "" && !req.paused, Decision(ActionBlock, "", "category:" + id, "blocked category " + id))
  }

  function GatewayClause(env: Env, req: Request): Clause {
    var id := MatchCategoryList(env, req.gatewayCategories, req.domain);
    Clause(id != "", Decision(ActionBlock, "", "category:" + id, "gateway category " + id))
  }

  function ListClauses(env: Env, group: PolicyGroup, req: Request): seq<Clause> {
    [AllowedClause(env, group, req), BlockedClause(env, group, req),
     CategoryClause(env, group, req), GatewayClause(env, req)]
  }

  function RuleClauses(env: Env, rules: seq<GroupRule>, req: Request): seq<Clause> {
    seq(|rules|, i requires 0 <= i < |rules| => RuleClause(env, rules[i], i, req))
  }

  function Clauses(env: Env, group: PolicyGroup, req: Request): seq<Clause> {
    RuleClauses(env, group.rules, req) + ListClauses(env, group, req)
  }

  function FirstActive(clauses: seq<Clause>): Decision {
    if clauses == [] then Undecided
    else if clauses[0].active then clauses[0].decision
    else FirstActive(clauses[1..])
  }

  /** What the policy decides: first match over rules, then the lists, then the gateway. */
  function Meaning(env: Env, group: PolicyGroup, req: Request): Decision {
    FirstActive(Clauses(env, group, req))
  }

  lemma {:induction false} FirstActiveAt(clauses: seq<Clause>, k: nat)
    requires k <= |clauses| && forall j | 0 <= j < k :: !clauses[j].active
    ensures FirstActive(clauses) == FirstActive(clauses[k..])
    decreases k
  {
    if k > 0 {
      FirstActiveAt(clauses, k - 1);
      assert clauses[k - 1..][1..] == clauses[k..];
    }
  }

  /** The rules before the first deciding one; all of them when none decides. */
  function Reach(env: Env, rules: seq<GroupRule>, req: Request): (n: nat)
    ensures n <= |rules|
    ensures forall j | 0 <= j < n :: !Decides(env, rules[j], req)
    ensures n < |rules| ==> Decides(env, rules[n], req)
  {
    if rules == [] || Decides(env, rules[0], req) then 0
    else 1 + Reach(env, rules[1..], req)
  }

  /** URL patterns of the narrowing rules among the first `n`, in order. */
  function UrlConditions(env: Env, rules: seq<GroupRule>, req: Request, n: nat): seq<string>
    requires n <= |rules|
  {
    if n == 0 then []
    else if Narrows(env, rules[n - 1], req) then UrlConditions(env, rules, req, n - 1) + rules[n - 1].urlRegexes
    else UrlConditions(env, rules, req, n - 1)
  }

  function TypeConditions(env: Env, rules: seq<GroupRule>, req: Request, n: nat): seq<string>
    requires n <= |rules|
  {
    if n == 0 then []
    else if Narrows(env, rules[n - 1], req) then TypeConditions(env, rules, req, n - 1) + rules[n - 1].blockedContentTypes
    else TypeConditions(env, rules, req, n - 1)
  }

  /** The rule a conditional block is traced to: the first narrowing rule that has an ID. */
  function ConditionSource(env: Env, rules: seq<GroupRule>, req: Request, n: nat): (string, string)
    requires n <= |rules|
  {
    if n == 0 then ("", "")
    else
      var prev := ConditionSource(env, rules, req, n - 1);
      if prev.0 == "" && Narrows(env, rules[n - 1], req)
      then (rules[n - 1].id, "rule " + env.ruleLabel(rules[n - 1].name, n - 1))
      else prev
  }

  /** The conditions DNS reports as left to the proxy: no other, none twice. */
  ghost predicate ReportsLeftToProxy(env: Env, rules: seq<GroupRule>, req: Request, n: nat, reported: seq<string>)
    requires n <= |rules|
  {
    && (forall i, j | 0 <= i < j < |reported| :: reported[i] != reported[j])
    && (forall c :: c in reported <==>
          exists i | 0 <= i < n :: LeftToProxy(env, rules[i], req) && c in ConditionsNeedingProxy(rules[i]))
  }

  /** The last step explains the decision; any earlier applied step is a conditional block. */
  ghost predicate TraceExplains(trace: seq<TraceStep>, action: PolicyAction, decided: bool) {
    && trace != []
    && trace[|trace| - 1].action == action
    && trace[|trace| - 1].applied == decided
    && PartialTrace(trace[..|trace| - 1])
  }

  ghost predicate PartialTrace(trace: seq<TraceStep>) {
    forall t | 0 <= t < |trace| :: trace[t].applied ==> trace[t].stage == "rule" && trace[t].action == ActionBlock
  }

  // -------------------------------------------------------------- evaluation

  function Join(parts: seq<string>, sep: string): string {
    if parts == [] then "" else if |parts| == 1 then parts[0] else parts[0] + sep + Join(parts[1..], sep)
  }

  /** appendUnique: the old values stay as they are, repeats included. */
  method AppendUnique(values: seq<string>, more: seq<string>) returns (r: seq<string>)
    ensures values <= r
    ensures forall i, j | 0 <= i < j < |r| && |values| <= j :: r[i] != r[j]
    ensures forall c :: c in r <==> c in values || c in more
  {
    r := values;
    for k := 0 to |more|
      invariant values <= r
      invariant forall i, j | 0 <= i < j < |r| && |values| <= j :: r[i] != r[j]
      invariant forall c :: c in r <==> c in values || c in more[..k]
    {
      if more[k] !in r {
        r := r + [more[k]];
      }
      assert more[..k + 1] == more[..k] + [more[k]];
    }
    assert more[..|more|] == more;
  }

  // The trace says ": paused" where, and only where, a pause held back a block.

  predicate NamesPause(trace: seq<TraceStep>) {
    exists t | 0 <= t < |trace| :: HasSuffix(trace[t].detail, ": paused")
  }

  /** Only the pause keeps this block rule from being considered further. */
  predicate HeldBack(env: Env, rule: GroupRule, req: Request) {
    req.paused && rule.action == ActionBlock && Live(env, rule, req.(paused := false))
  }

  ghost predicate SomeRuleHeldBack(env: Env, rules: seq<GroupRule>, req: Request, n: nat)
    requires n <= |rules|
  {
    exists i | 0 <= i < n :: HeldBack(env, rules[i], req)
  }

  predicate SomeListHeldBack(env: Env, group: PolicyGroup, req: Request) {
    req.paused && (MatchDomainList(env, group.blockedDomains, req.domain) != ""
                   || MatchCategoryList(env, group.blockedCategories, req.domain) != "")
  }

  lemma PausedSuffix(x: string, end: string)
    requires end != "" && end[|end| - 1] != 'd'
    ensures HasSuffix(x + ": paused", ": paused") && !HasSuffix(x + end, ": paused")
  {
    var s := x + end;
    assert s[|s| - 1] != 'd';
  }

  lemma NamesPauseAppend(trace: seq<TraceStep>, step: TraceStep)
    ensures NamesPause(trace + [step]) <==> NamesPause(trace) || HasSuffix(step.detail, ": paused")
  {
    if t :| 0 <= t < |trace| && HasSuffix(trace[t].detail, ": paused") {
      assert (trace + [step])[t] == trace[t];
    }
    if HasSuffix(step.detail, ": paused") {
      assert (trace + [step])[|trace|] == step;
    }
  }

  /** What the rule loop has established when rule `n` is next. */
  ghost predicate Scanned(env: Env, rules: seq<GroupRule>, req: Request, n: nat, out: Outcome) {
    && n <= |rules|
    && (forall j | 0 <= j < n :: !Decides(env, rules[j], req))
    && (out.action, out.ruleID, out.matched, out.reason) == (ActionNone, "", "", "")
    && Collected(env, rules, req, n, out)
    && PartialTrace(out.trace)
    && (NamesPause(out.trace) <==> SomeRuleHeldBack(env, rules, req, n))
  }

  ghost predicate Collected(env: Env, rules: seq<GroupRule>, req: Request, n: nat, out: Outcome)
    requires n <= |rules|
  {
    && out.urlRegexes == UrlConditions(env, rules, req, n)
    && out.contentTypes == TypeConditions(env, rules, req, n)
    && (out.conditionRuleID, out.conditionReason) == ConditionSource(env, rules, req, n)
    && ReportsLeftToProxy(env, rules, req, n, out.proxyOnly)
  }

  function Traced(out: Outcome, step: TraceStep): Outcome {
    out.(trace := out.trace + [step])
  }

  /** A step whose detail ends in `end`, and so does not mention a pause. */
  function QuietStep(trace: seq<TraceStep>, step: TraceStep, ghost start: string, ghost end: string): (r: seq<TraceStep>)
    requires step.detail == start + end && end != "" && end[|end| - 1] != 'd'
    ensures r == trace + [step]
    ensures NamesPause(r) <==> NamesPause(trace)
  {
    PausedSuffix(start, end);
    NamesPauseAppend(trace, step);
    trace + [step]
  }

  function PauseStep(trace: seq<TraceStep>, stage: string, what: string): (r: seq<TraceStep>)
    ensures r == trace + [TraceStep(stage, false, ActionNone, what + ": paused")]
    ensures NamesPause(r)
  {
    PausedSuffix(what, "-");
    NamesPauseAppend(trace, TraceStep(stage, false, ActionNone, what + ": paused"));
    trace + [TraceStep(stage, false, ActionNone, what + ": paused")]
  }

  lemma TraceConcat(a: seq<TraceStep>, b: seq<TraceStep>, action: PolicyAction, decided: bool)
    requires PartialTrace(a) && TraceExplains(b, action, decided)
    ensures TraceExplains(a + b, action, decided)
    ensures NamesPause(a + b) <==> NamesPause(a) || NamesPause(b)
  {
    var ab := a + b;
    assert ab[..|ab| - 1] == a + b[..|b| - 1];
    if t :| 0 <= t < |a| && HasSuffix(a[t].detail, ": paused") {
      assert ab[t] == a[t];
    }
    if t :| 0 <= t < |b| && HasSuffix(b[t].detail, ": paused") {
      assert ab[|a| + t] == b[t];
    }
  }

  lemma HeldBackExtends(env: Env, rules: seq<GroupRule>, req: Request, i: nat)
    requires i < |rules|
    ensures SomeRuleHeldBack(env, rules, req, i + 1) <==> SomeRuleHeldBack(env, rules, req, i) || HeldBack(env, rules[i], req)
  {
  }

  function Decide(out: Outcome, action: PolicyAction, matched: string, reason: string): Outcome {
    out.(action := action, matched := matched, reason := reason)
  }

  /** The outcome carries the decision, everything collected on the way, and an agreeing trace. */
  ghost predicate Answers(env: Env, group: PolicyGroup, req: Request, out: Outcome) {
    && DecisionOf(out) == Meaning(env, group, req)
    && Collected(env, group.rules, req, Reach(env, group.rules, req), out)
    && TraceExplains(out.trace, out.action, SomeActive(env, group, req))
    && (!SomeActive(env, group, req) ==>
          (NamesPause(out.trace) <==>
             SomeRuleHeldBack(env, group.rules, req, |group.rules|) || SomeListHeldBack(env, group, req)))
  }

  predicate SomeActive(env: Env, group: PolicyGroup, req: Request) {
    AnyActive(Clauses(env, group, req))
  }

  function DecisionOf(out: Outcome): Decision {
    Decision(out.action, out.ruleID, out.matched, out.reason)
  }

  /** A rule that neither decides, narrows nor is left to the proxy only adds to the trace. */
  lemma SkipKeepsScanned(env: Env, rules: seq<GroupRule>, req: Request, i: nat, out: Outcome, trace: seq<TraceStep>)
    requires i < |rules| && Scanned(env, rules, req, i, out)
    requires !Decides(env, rules[i], req) && !Narrows(env, rules[i], req) && !LeftToProxy(env, rules[i], req)
    requires PartialTrace(trace) && (NamesPause(trace) <==> NamesPause(out.trace) || HeldBack(env, rules[i], req))
    ensures Scanned(env, rules, req, i + 1, out.(trace := trace))
  {
    HeldBackExtends(env, rules, req, i);
  }

  lemma DeferKeepsScanned(env: Env, rules: seq<GroupRule>, req: Request, i: nat, out: Outcome, reported: seq<string>, trace: seq<TraceStep>)
    requires i < |rules| && Scanned(env, rules, req, i, out) && LeftToProxy(env, rules[i], req)
    requires forall j, k | 0 <= j < k < |reported| :: reported[j] != reported[k]
    requires forall c :: c in reported <==> c in out.proxyOnly || c in ConditionsNeedingProxy(rules[i])
    requires PartialTrace(trace) && (NamesPause(trace) <==> NamesPause(out.trace))
    ensures Scanned(env, rules, req, i + 1, out.(proxyOnly := reported, trace := trace))
  {
  }

  /** The outcome after a conditional rule has added its conditions. */
  function Narrowed(env: Env, rule: GroupRule, i: nat, out: Outcome): Outcome {
    var more := out.(urlRegexes := out.urlRegexes + rule.urlRegexes, contentTypes := out.contentTypes + rule.blockedContentTypes);
    if out.conditionRuleID == ""
    then more.(conditionRuleID := rule.id, conditionReason := "rule " + env.ruleLabel(rule.name, i))
    else more
  }

  lemma NarrowKeepsScanned(env: Env, rules: seq<GroupRule>, req: Request, i: nat, out: Outcome, trace: seq<TraceStep>)
    requires i < |rules| && Scanned(env, rules, req, i, out) && Narrows(env, rules[i], req)
    requires PartialTrace(trace) && (NamesPause(trace) <==> NamesPause(out.trace))
    ensures Scanned(env, rules, req, i + 1, Narrowed(env, rules[i], i, out).(trace := trace))
  {
  }

  /** One turn of the rule loop: either the rule decides, or the scan moves past it. */
  method VisitRule(env: Env, rules: seq<GroupRule>, req: Request, i: nat, out: Outcome) returns (next: Outcome, decided: bool)
    requires i < |rules| && Scanned(env, rules, req, i, out)
    ensures decided <==> Decides(env, rules[i], req)
    ensures !decided ==> Scanned(env, rules, req, i + 1, next)
    ensures decided ==>
      && DecisionOf(next) == RuleClause(env, rules[i], i, req).decision
      && Collected(env, rules, req, i, next)
      && TraceExplains(next.trace, next.action, true)
  {
    next := out;
    decided := false;
    var rule := rules[i];
    var text := env.ruleLabel(rule.name, i);
    if !rule.enabled {
      SkipKeepsScanned(env, rules, req, i, out, out.trace);
      return;
    }
    var matched := MatchTarget(env, rule.target, req.domain);
    if matched == "" {
      SkipKeepsScanned(env, rules, req, i, out, out.trace);
      return;
    }
    if !InSchedule(rule, req) {
      next := next.(trace := QuietStep(next.trace, TraceStep("rule", false, ActionNone, text + ": outside its schedule"),
                                       text, ": outside its schedule"));
      SkipKeepsScanned(env, rules, req, i, out, next.trace);
      return;
    }
    if rule.action == ActionBlock && req.paused {
      next := next.(trace := PauseStep(next.trace, "rule", text));
      SkipKeepsScanned(env, rules, req, i, out, next.trace);
      return;
    }
    var conditions := ConditionsNeedingProxy(rule);
    if !Proxy(req) && |conditions| > 0 {
      var reported := AppendUnique(next.proxyOnly, conditions);
      var detail := text + ": decided by the proxy (" + Join(conditions, ", ");
      next := next.(proxyOnly := reported,
                    trace := QuietStep(next.trace, TraceStep("rule", false, ActionNone, detail + ")"), detail, ")"));
      DeferKeepsScanned(env, rules, req, i, out, reported, next.trace);
      return;
    }
    if Proxy(req) && |rule.users| > 0 && req.user !in rule.users {
      SkipKeepsScanned(env, rules, req, i, out, out.trace);
      return;
    }
    if Proxy(req) && (|rule.urlRegexes| > 0 || |rule.blockedContentTypes| > 0) {
      next := Narrowed(env, rule, i, next);
      next := next.(trace := QuietStep(next.trace, TraceStep("rule", true, ActionBlock, text + ": blocks matching URLs and response types"),
                                       text, ": blocks matching URLs and response types"));
      NarrowKeepsScanned(env, rules, req, i, out, next.trace);
      return;
    }
    next := Decide(next, rule.action, matched, "rule " + text).(ruleID := rule.id);
    next := Traced(next, TraceStep("rule", true, rule.action, text + " matched " + matched));
    decided := true;
  }

  lemma FirstOfFour(a: Clause, b: Clause, c: Clause, d: Clause)
    ensures FirstActive([a, b, c, d])
         == if a.active then a.decision else if b.active then b.decision
            else if c.active then c.decision else if d.active then d.decision else Undecided
  {
    assert [d][1..] == [];
    assert FirstActive([d]) == if d.active then d.decision else Undecided;
    assert [c, d][1..] == [d];
    assert FirstActive([c, d]) == if c.active then c.decision else if d.active then d.decision else Undecided;
    assert [b, c, d][1..] == [c, d];
    assert [a, b, c, d][1..] == [b, c, d];
  }

  /** What the lists add to the trace when nothing decides: the blocks a pause held back, then the close. */
  function HeldBackSteps(env: Env, group: PolicyGroup, req: Request): seq<TraceStep> {
    var pattern := MatchDomainList(env, group.blockedDomains, req.domain);
    var id := MatchCategoryList(env, group.blockedCategories, req.domain);
    (if req.paused && pattern != "" then [Held("blocked_domains", pattern)] else [])
    + (if req.paused && id != "" then [Held("blocked_categories", id)] else [])
  }

  function Held(stage: string, what: string): TraceStep {
    TraceStep(stage, false, ActionNone, what + ": paused")
  }

  const NothingCovers: TraceStep := TraceStep("policy", false, ActionNone, "nothing in the policy covers this domain")

  lemma NothingCoversIsQuiet()
    ensures !HasSuffix(NothingCovers.detail, ": paused")
  {
  }

  lemma HeldBackStepsTrace(env: Env, group: PolicyGroup, req: Request)
    ensures TraceExplains(HeldBackSteps(env, group, req) + [NothingCovers], ActionNone, false)
  {
  }

  lemma HeldBackStepsArePauses(env: Env, group: PolicyGroup, req: Request)
    ensures var steps := HeldBackSteps(env, group, req);
      && (steps != [] <==> SomeListHeldBack(env, group, req))
      && forall t | 0 <= t < |steps| :: HasSuffix(steps[t].detail, ": paused")
  {
  }

  lemma AllPauses(steps: seq<TraceStep>)
    requires forall t | 0 <= t < |steps| :: HasSuffix(steps[t].detail, ": paused")
    ensures NamesPause(steps) <==> steps != []
  {
    if steps != [] {
      assert HasSuffix(steps[0].detail, ": paused");
    }
  }

  lemma HeldBackStepsNamePause(env: Env, group: PolicyGroup, req: Request)
    ensures NamesPause(HeldBackSteps(env, group, req) + [NothingCovers]) <==> SomeListHeldBack(env, group, req)
  {
    HeldBackStepsArePauses(env, group, req);
    var steps := HeldBackSteps(env, group, req);
    AllPauses(steps);
    NothingCoversIsQuiet();
    NamesPauseAppend(steps, NothingCovers);
  }

  predicate AnyActive(clauses: seq<Clause>) {
    exists k | 0 <= k < |clauses| :: clauses[k].active
  }

  /** The list stages after the rules: what they decide, and the steps they add to the trace. */
  method VisitLists(env: Env, group: PolicyGroup, req: Request) returns (d: Decision, steps: seq<TraceStep>, decided: bool)
    ensures d == FirstActive(ListClauses(env, group, req))
    ensures decided <==> AnyActive(ListClauses(env, group, req))
    ensures decided ==> TraceExplains(steps, d.action, true)
    ensures !decided ==> d == Undecided && steps == HeldBackSteps(env, group, req) + [NothingCovers]
  {
    var clauses := ListClauses(env, group, req);
    FirstOfFour(clauses[0], clauses[1], clauses[2], clauses[3]);
    steps := [];
    var pattern := MatchDomainList(env, group.allowedDomains, req.domain);
    if pattern != "" {
      assert clauses[0].active;
      return Decision(ActionAllow, "", pattern, "allowed domain " + pattern),
             [TraceStep("allowed_domains", true, ActionAllow, pattern)], true;
    }
    pattern := MatchDomainList(env, group.blockedDomains, req.domain);
    if pattern != "" {
      if req.paused {
        steps := [Held("blocked_domains", pattern)];
      } else {
        assert clauses[1].active;
        return Decision(ActionBlock, "", pattern, "blocked domain " + pattern),
               [TraceStep("blocked_domains", true, ActionBlock, pattern)], true;
      }
    }
    var id := MatchCategoryList(env, group.blockedCategories, req.domain);
    if id != "" {
      if req.paused {
        steps := steps + [Held("blocked_categories", id)];
      } else {
        assert clauses[2].active;
        return Decision(ActionBlock, "", "category:" + id, "blocked category " + id),
               steps + [TraceStep("blocked_categories", true, ActionBlock, id)], true;
      }
    }
    id := MatchCategoryList(env, req.gatewayCategories, req.domain);
    if id != "" {
      assert clauses[3].active;
      return Decision(ActionBlock, "", "category:" + id, "gateway category " + id),
             steps + [TraceStep("gateway_categories", true, ActionBlock, id)], true;
    }
    return Undecided, steps + [NothingCovers], false;
  }

  /** The loop over the rules; `decided` says that one of them has answered. */
  method VisitRules(env: Env, group: PolicyGroup, req: Request) returns (out: Outcome, decided: bool)
    ensures decided ==> Answers(env, group, req, out)
    ensures !decided ==> Scanned(env, group.rules, req, |group.rules|, out)
  {
    out := Outcome(ActionNone, "", "", "", [], [], "", "", [], []);
    for i := 0 to |group.rules|
      invariant Scanned(env, group.rules, req, i, out)
    {
      out, decided := VisitRule(env, group.rules, req, i, out);
      if decided {
        RuleSettles(env, group, req, i);
        return;
      }
    }
    decided := false;
  }

  /** evaluateGroup. */
  method EvaluateGroup(env: Env, group: PolicyGroup, req: Request) returns (out: Outcome)
    ensures Answers(env, group, req, out)
  {
    var decided;
    out, decided := VisitRules(env, group, req);
    if decided {
      return;
    }
    var d, steps;
    d, steps, decided := VisitLists(env, group, req);
    ListsSettle(env, group, req);
    HeldBackStepsNamePause(env, group, req);
    HeldBackStepsTrace(env, group, req);
    TraceConcat(out.trace, steps, d.action, decided);
    out := Decide(out, d.action, d.matched, d.reason).(trace := out.trace + steps);
  }

  lemma RuleSettles(env: Env, group: PolicyGroup, req: Request, i: nat)
    requires i < |group.rules| && Decides(env, group.rules[i], req)
    requires forall j | 0 <= j < i :: !Decides(env, group.rules[j], req)
    ensures Meaning(env, group, req) == RuleClause(env, group.rules[i], i, req).decision
    ensures Reach(env, group.rules, req) == i
    ensures SomeActive(env, group, req)
  {
    assert Clauses(env, group, req)[i].active;
    FirstActiveAt(Clauses(env, group, req), i);
  }

  lemma ListsSettle(env: Env, group: PolicyGroup, req: Request)
    requires forall j | 0 <= j < |group.rules| :: !Decides(env, group.rules[j], req)
    ensures Meaning(env, group, req) == FirstActive(ListClauses(env, group, req))
    ensures FirstActive(ListClauses(env, group, req)).ruleID == ""
    ensures Reach(env, group.rules, req) == |group.rules|
    ensures SomeActive(env, group, req) <==> AnyActive(ListClauses(env, group, req))
  {
    var cs, ls, n := Clauses(env, group, req), ListClauses(env, group, req), |group.rules|;
    FirstActiveAt(cs, n);
    assert cs[n..] == ls;
    FirstOfFour(ls[0], ls[1], ls[2], ls[3]);
    if k :| 0 <= k < |ls| && ls[k].active {
      assert cs[n + k] == ls[k];
    }
    if k :| 0 <= k < |cs| && cs[k].active {
      assert k >= n && cs[k] == ls[k - n];
    }
  }

  // ------------------------------------------------------- laws of the policy

  /** What a rule means once the requester is known: scopes that name them are dropped, others disable it. */
  function ForUser(rule: GroupRule, user: string): GroupRule {
    if rule.users == [] then rule
    else if user in rule.users then rule.(users := [])
    else rule.(enabled := false)
  }

  function GroupForUser(group: PolicyGroup, user: string): PolicyGroup {
    group.(rules := seq(|group.rules|, i requires 0 <= i < |group.rules| => ForUser(group.rules[i], user)))
  }

  lemma ClausesAgree(env: Env, g: PolicyGroup, h: PolicyGroup, r: Request, q: Request)
    requires |g.rules| == |h.rules|
    requires forall i | 0 <= i < |g.rules| :: RuleClause(env, g.rules[i], i, r) == RuleClause(env, h.rules[i], i, q)
    requires ListClauses(env, g, r) == ListClauses(env, h, q)
    ensures Meaning(env, g, r) == Meaning(env, h, q)
  {
    assert RuleClauses(env, g.rules, r) == RuleClauses(env, h.rules, q);
  }

  /** The proxy decides for a user exactly what DNS would decide on the policy resolved for that user. */
  lemma ProxyIsDnsForUser(env: Env, group: PolicyGroup, req: Request)
    requires Proxy(req)
    ensures Meaning(env, group, req) == Meaning(env, GroupForUser(group, req.user), req.(layer := DNS))
  {
    var h, q := GroupForUser(group, req.user), req.(layer := DNS);
    forall i | 0 <= i < |group.rules|
      ensures RuleClause(env, group.rules[i], i, req) == RuleClause(env, h.rules[i], i, q)
    {
      assert h.rules[i] == ForUser(group.rules[i], req.user);
    }
    ClausesAgree(env, group, h, req, q);
  }

  /** A user no rule names gets the same decision from DNS and from the proxy. */
  lemma LayersAgree(env: Env, group: PolicyGroup, req: Request, other: Layer)
    requires forall i | 0 <= i < |group.rules| :: req.user !in group.rules[i].users
    ensures Meaning(env, group, req) == Meaning(env, group, req.(layer := other))
  {
    ClausesAgree(env, group, group, req, req.(layer := other));
  }

  /** DNS never collects URL or content conditions, and the proxy never leaves any to itself. */
  lemma {:induction false} ConditionsBelongToTheirLayer(env: Env, group: PolicyGroup, req: Request, out: Outcome)
    requires Answers(env, group, req, out)
    ensures !Proxy(req) ==> out.urlRegexes == [] && out.contentTypes == [] && out.conditionRuleID == ""
    ensures Proxy(req) ==> out.proxyOnly == []
  {
    if !Proxy(req) {
      NoNarrowing(env, group.rules, req, Reach(env, group.rules, req));
    } else {
      OnlyMembers(out.proxyOnly);
    }
  }

  lemma OnlyMembers(values: seq<string>)
    ensures values == [] || exists c :: c in values
  {
    if values != [] {
      assert values[0] in values;
    }
  }

  lemma {:induction false} NoNarrowing(env: Env, rules: seq<GroupRule>, req: Request, n: nat)
    requires n <= |rules| && forall i | 0 <= i < n :: !Narrows(env, rules[i], req)
    ensures UrlConditions(env, rules, req, n) == [] && TypeConditions(env, rules, req, n) == []
    ensures ConditionSource(env, rules, req, n) == ("", "")
  {
    if n > 0 {
      NoNarrowing(env, rules, req, n - 1);
    }
  }

  /** The form NormalizeGroupRules leaves rules in, as far as decisions depend on it. */
  predicate NormalRule(rule: GroupRule) {
    && (rule.action == ActionAllow || rule.action == ActionBlock)
    && (Conditional(rule) ==> rule.action == ActionBlock)
  }

  predicate Normal(group: PolicyGroup) {
    forall i | 0 <= i < |group.rules| :: NormalRule(group.rules[i])
  }

  /** The least index whose clause is active, when there is one. */
  ghost predicate FirstIs(clauses: seq<Clause>, k: nat) {
    k < |clauses| && clauses[k].active && forall j | 0 <= j < k :: !clauses[j].active
  }

  lemma FirstIsDecision(clauses: seq<Clause>, k: nat)
    requires FirstIs(clauses, k)
    ensures FirstActive(clauses) == clauses[k].decision
  {
    FirstActiveAt(clauses, k);
  }

  lemma {:induction false} SomeFirst(clauses: seq<Clause>) returns (k: nat)
    requires FirstActive(clauses) != Undecided
    ensures FirstIs(clauses, k)
    decreases |clauses|
  {
    if clauses[0].active {
      k := 0;
    } else {
      var rest := SomeFirst(clauses[1..]);
      k := rest + 1;
      forall j | 0 <= j < k ensures !clauses[j].active {
        if j > 0 {
          assert clauses[j] == clauses[1..][j - 1];
        }
      }
    }
  }

  /** Pausing turns off the block clauses except the gateway's, and touches nothing else. */
  lemma PausedClauses(env: Env, group: PolicyGroup, req: Request, k: nat)
    requires k < |group.rules| + 4
    ensures var on, off := Clauses(env, group, req.(paused := true)), Clauses(env, group, req.(paused := false));
      && on[k].decision == off[k].decision
      && (on[k].active ==> off[k].active)
      && (off[k].active && !on[k].active ==> off[k].decision.action == ActionBlock)
      && (on[k].active && on[k].decision.action == ActionBlock ==> k == |group.rules| + 3)
  {
  }

  /** An unpaused allow survives a pause unchanged. */
  lemma PauseKeepsAllows(env: Env, group: PolicyGroup, req: Request)
    requires Meaning(env, group, req.(paused := false)).action == ActionAllow
    ensures Meaning(env, group, req.(paused := true)) == Meaning(env, group, req.(paused := false))
  {
    var on, off := Clauses(env, group, req.(paused := true)), Clauses(env, group, req.(paused := false));
    var k := SomeFirst(off);
    FirstIsDecision(off, k);
    forall j | 0 <= j <= k
      ensures on[j].decision == off[j].decision && on[j].active == off[j].active
    {
      PausedClauses(env, group, req, j);
    }
    FirstIsDecision(on, k);
  }

  /** A block under a pause comes from the gateway categories, and would be a block without it. */
  lemma PausedBlocksAreGateway(env: Env, group: PolicyGroup, req: Request)
    requires Meaning(env, group, req.(paused := true)).action == ActionBlock
    ensures Meaning(env, group, req.(paused := true)) == GatewayClause(env, req).decision
    ensures GatewayClause(env, req).active
    ensures Meaning(env, group, req.(paused := false)).action == ActionBlock
  {
    var paused := req.(paused := true);
    var on, off := Clauses(env, group, paused), Clauses(env, group, req.(paused := false));
    var k := SomeFirst(on);
    FirstIsDecision(on, k);
    PausedClauses(env, group, req, k);
    assert on[k] == ListClauses(env, group, paused)[3];
    FirstBlockSurvives(env, group, req, k);
  }

  /** If every clause ahead of the gateway's is off or a block, the unpaused decision is a block. */
  lemma FirstBlockSurvives(env: Env, group: PolicyGroup, req: Request, k: nat)
    requires FirstIs(Clauses(env, group, req.(paused := true)), k) && k == |group.rules| + 3
    ensures Meaning(env, group, req.(paused := false)).action == ActionBlock
  {
    var on, off := Clauses(env, group, req.(paused := true)), Clauses(env, group, req.(paused := false));
    forall j | 0 <= j <= k
      ensures off[j].active ==> off[j].decision.action == ActionBlock
      ensures on[j].active ==> off[j].active
    {
      PausedClauses(env, group, req, j);
      assert j == k ==> on[j] == ListClauses(env, group, req.(paused := true))[3];
    }
    BlockUpTo(off, k);
  }

  lemma {:induction false} BlockUpTo(clauses: seq<Clause>, k: nat)
    requires k < |clauses| && clauses[k].active
    requires forall j | 0 <= j <= k :: clauses[j].active ==> clauses[j].decision.action == ActionBlock
    ensures FirstActive(clauses).action == ActionBlock
    decreases k
  {
    if !clauses[0].active {
      assert clauses[1..][k - 1] == clauses[k];
      forall j | 0 <= j <= k - 1
        ensures clauses[1..][j].active ==> clauses[1..][j].decision.action == ActionBlock
      {
        assert clauses[1..][j] == clauses[j + 1];
      }
      BlockUpTo(clauses[1..], k - 1);
    }
  }

  /** Under a pause a normalised policy asks the proxy for no inspection at all. */
  lemma PausedCollectsNothing(env: Env, group: PolicyGroup, req: Request, out: Outcome)
    requires Normal(group) && req.paused && Answers(env, group, req, out)
    ensures out.urlRegexes == [] && out.contentTypes == []
  {
    forall i | 0 <= i < |group.rules|
      ensures !Narrows(env, group.rules[i], req)
    {
      assert NormalRule(group.rules[i]);
    }
    NoNarrowing(env, group.rules, req, Reach(env, group.rules, req));
  }
}
