/**
 What a policy decides, said without the clauses and dispositions of the evaluator: which rules
 fire, which lists match, and who comes first.
 */
module PolicyMeaning {
  import opened Wrappers
  import opened Domains
  import opened Schedules
  import opened PolicyRules

  ghost predicate SomeDomain(env: Env, patterns: seq<string>, domain: string) {
    exists i :: 0 <= i < |patterns| && MatchDomain(env.fold, patterns[i], domain)
  }

  ghost predicate SomeCategory(env: Env, ids: seq<string>, domain: string) {
    exists i :: 0 <= i < |ids| && CategoryCovers(env.fold, env.sets, ids[i], domain)
  }

  /** The lists of a saved policy hold no blank entry, and the clock gives minutes of the week. */
  ghost predicate Proper(group: PolicyGroup, req: Request) {
    && "" !in group.allowedDomains && "" !in group.blockedDomains
    && "" !in group.blockedCategories && "" !in req.gatewayCategories
    && (forall i | 0 <= i < |group.rules| :: ProperTarget(group.rules[i].target))
    && ClockOk(req)
  }

  predicate ProperTarget(target: RuleTarget) { "" !in target.domains && "" !in target.categories }

  ghost predicate ClockOk(req: Request) { forall tz :: 0 <= req.minuteIn(tz) < 10080 }

  ghost predicate Named(env: Env, target: RuleTarget, domain: string) {
    target.allTraffic || SomeDomain(env, target.domains, domain) || SomeCategory(env, target.categories, domain)
  }

  ghost predicate Scheduled(rule: GroupRule, req: Request) {
    rule.schedule.Some? ==>
      var sc := rule.schedule.value;
      exists i, day, k :: OpenFor(sc, i, day, k, req.minuteIn(sc.timezone))
  }

  /** Switched on, naming the domain, at its time, and no block held back by a pause. */
  ghost predicate Fires(env: Env, rule: GroupRule, req: Request) {
    && rule.enabled && Named(env, rule.target, req.domain) && Scheduled(rule, req)
    && (req.paused ==> rule.action != "block")
  }

  predicate Unconditional(rule: GroupRule) { rule.urlRegexes == [] && rule.blockedContentTypes == [] }

  /** DNS knows no user. */
  predicate KnownUser(rule: GroupRule, req: Request) {
    rule.users == [] || (req.layer != DNS && req.user in rule.users)
  }

  ghost predicate Settles(env: Env, rule: GroupRule, req: Request) {
    Fires(env, rule, req) && KnownUser(rule, req) && Unconditional(rule)
  }

  lemma TargetSpelledOut(env: Env, target: RuleTarget, domain: string)
    requires ProperTarget(target)
    ensures MatchTarget(env, target, domain) != "" <==> Named(env, target, domain)
  {
    DomainListReportsMatch(env, target.domains, domain);
    CategoryListReportsCoverage(env, target.categories, domain);
  }

  lemma LiveSpelledOut(env: Env, rule: GroupRule, req: Request)
    requires ProperTarget(rule.target) && ClockOk(req)
    ensures Live(env, rule, req) <==> Fires(env, rule, req)
  {
    TargetSpelledOut(env, rule.target, req.domain);
    if rule.schedule.Some? {
      OnSpelledOut(rule.schedule.value, req.minuteIn(rule.schedule.value.timezone));
    }
  }

  /** When a rule settles a request, when it adds conditions for the proxy, and when DNS leaves it. */
  lemma RuleSpelledOut(env: Env, rule: GroupRule, req: Request)
    requires ProperTarget(rule.target) && ClockOk(req)
    ensures Decides(env, rule, req) <==> Settles(env, rule, req)
    ensures Narrows(env, rule, req) <==>
            Fires(env, rule, req) && req.layer != DNS && KnownUser(rule, req) && !Unconditional(rule)
    ensures LeftToProxy(env, rule, req) <==>
            Fires(env, rule, req) && req.layer == DNS && (rule.users != [] || !Unconditional(rule))
  {
    LiveSpelledOut(env, rule, req);
  }

  ghost predicate FirstSettling(env: Env, rules: seq<GroupRule>, req: Request, i: int) {
    0 <= i < |rules| && Settles(env, rules[i], req) && forall j | 0 <= j < i :: !Settles(env, rules[j], req)
  }

  ghost predicate NoneSettles(env: Env, rules: seq<GroupRule>, req: Request) {
    forall i | 0 <= i < |rules| :: !Settles(env, rules[i], req)
  }

  /** The decision names the first matching pattern of the list. */
  ghost predicate ByPattern(env: Env, patterns: seq<string>, domain: string, m: Decision) {
    exists i :: 0 <= i < |patterns| && m.matched == patterns[i] && MatchDomain(env.fold, patterns[i], domain)
                && forall j | 0 <= j < i :: !MatchDomain(env.fold, patterns[j], domain)
  }

  ghost predicate ByCategory(env: Env, ids: seq<string>, domain: string, m: Decision) {
    exists i :: 0 <= i < |ids| && m.matched == "category:" + ids[i] && CategoryCovers(env.fold, env.sets, ids[i], domain)
                && forall j | 0 <= j < i :: !CategoryCovers(env.fold, env.sets, ids[j], domain)
  }

  /** The decision names what of the target matched. */
  ghost predicate ByTarget(env: Env, target: RuleTarget, domain: string, m: Decision) {
    if target.allTraffic then m.matched == "*"
    else if SomeDomain(env, target.domains, domain) then ByPattern(env, target.domains, domain, m)
    else ByCategory(env, target.categories, domain, m)
  }

  lemma TargetAnswers(env: Env, target: RuleTarget, domain: string, m: Decision)
    requires ProperTarget(target) && Named(env, target, domain) && m.matched == MatchTarget(env, target, domain)
    ensures ByTarget(env, target, domain, m)
  {
    DomainListReportsMatch(env, target.domains, domain);
    CategoryListReportsCoverage(env, target.categories, domain);
    if !target.allTraffic {
      if SomeDomain(env, target.domains, domain) {
        PatternAnswers(env, target.domains, domain, m);
      } else {
        CategoryAnswers(env, target.categories, domain, m);
      }
    }
  }

  /** First match over rules, allowed domains, blocked domains, blocked categories, gateway categories. */
  ghost predicate IsAnswer(env: Env, group: PolicyGroup, req: Request, m: Decision) {
    && (forall i | FirstSettling(env, group.rules, req, i) ::
          && m.action == group.rules[i].action && m.ruleID == group.rules[i].id
          && m.reason == "rule " + env.ruleLabel(group.rules[i].name, i)
          && ByTarget(env, group.rules[i].target, req.domain, m))
    && (NoneSettles(env, group.rules, req) ==> m.ruleID == "" && ListAnswer(env, group, req, m))
  }

  ghost predicate ListAnswer(env: Env, group: PolicyGroup, req: Request, m: Decision) {
    if SomeDomain(env, group.allowedDomains, req.domain) then
      m.action == "allow" && m.reason == "allowed domain " + m.matched && ByPattern(env, group.allowedDomains, req.domain, m)
    else if !req.paused && SomeDomain(env, group.blockedDomains, req.domain) then
      m.action == "block" && m.reason == "blocked domain " + m.matched && ByPattern(env, group.blockedDomains, req.domain, m)
    else if !req.paused && SomeCategory(env, group.blockedCategories, req.domain) then
      m.action == "block" && ByCategory(env, group.blockedCategories, req.domain, m)
    else if SomeCategory(env, req.gatewayCategories, req.domain) then
      m.action == "block" && ByCategory(env, req.gatewayCategories, req.domain, m)
    else m == Decision("", "", "", "")
  }

  lemma PatternAnswers(env: Env, patterns: seq<string>, domain: string, m: Decision)
    requires SomeDomain(env, patterns, domain) && m.matched == MatchDomainList(env, patterns, domain)
    ensures ByPattern(env, patterns, domain, m)
  {
    var hit := p => MatchDomain(env.fold, p, domain);
    var i := LeastHit(patterns, hit);
    FirstHitIsLeast(patterns, hit, i);
  }

  lemma CategoryAnswers(env: Env, ids: seq<string>, domain: string, m: Decision)
    requires SomeCategory(env, ids, domain) && m.matched == "category:" + MatchCategoryList(env, ids, domain)
    ensures ByCategory(env, ids, domain, m)
  {
    var hit := id => CategoryCovers(env.fold, env.sets, id, domain);
    var i := LeastHit(ids, hit);
    FirstHitIsLeast(ids, hit, i);
    assert ids[i] == MatchCategoryList(env, ids, domain);
  }

  lemma ListsSpelledOut(env: Env, group: PolicyGroup, req: Request, m: Decision)
    requires Proper(group, req) && m == FirstActive(ListClauses(env, group, req))
    ensures ListAnswer(env, group, req, m)
  {
    var cs := ListClauses(env, group, req);
    FirstOfFour(cs[0], cs[1], cs[2], cs[3]);
    DomainListReportsMatch(env, group.allowedDomains, req.domain);
    DomainListReportsMatch(env, group.blockedDomains, req.domain);
    CategoryListReportsCoverage(env, group.blockedCategories, req.domain);
    CategoryListReportsCoverage(env, req.gatewayCategories, req.domain);
    if SomeDomain(env, group.allowedDomains, req.domain) {
      PatternAnswers(env, group.allowedDomains, req.domain, m);
    } else if !req.paused && SomeDomain(env, group.blockedDomains, req.domain) {
      PatternAnswers(env, group.blockedDomains, req.domain, m);
    } else if !req.paused && SomeCategory(env, group.blockedCategories, req.domain) {
      CategoryAnswers(env, group.blockedCategories, req.domain, m);
    } else if SomeCategory(env, req.gatewayCategories, req.domain) {
      CategoryAnswers(env, req.gatewayCategories, req.domain, m);
    }
  }

  /** The meaning that evaluation is proved against is this first-match reading of the policy. */
  lemma MeaningSpelledOut(env: Env, group: PolicyGroup, req: Request)
    requires Proper(group, req)
    ensures IsAnswer(env, group, req, Meaning(env, group, req))
  {
    forall i | 0 <= i < |group.rules|
      ensures Decides(env, group.rules[i], req) <==> Settles(env, group.rules[i], req)
    {
      RuleSpelledOut(env, group.rules[i], req);
    }
    var n := Reach(env, group.rules, req);
    if n < |group.rules| {
      RuleSettles(env, group, req, n);
      TargetAnswers(env, group.rules[n].target, req.domain, Meaning(env, group, req));
      forall i | FirstSettling(env, group.rules, req, i)
        ensures i == n
      {
      }
    } else {
      ListsSettle(env, group, req);
      ListsSpelledOut(env, group, req, FirstActive(ListClauses(env, group, req)));
    }
  }

  // --------------------------------------------------------------- schedules

  function WithRule(group: PolicyGroup, i: nat, rule: GroupRule): PolicyGroup
    requires i < |group.rules|
  {
    group.(rules := group.rules[i := rule])
  }

  /** Inside its schedule a rule means what it means without one; outside, what it means switched off. */
  lemma ScheduleSwitchesRule(env: Env, group: PolicyGroup, req: Request, i: nat, sc: Schedule)
    requires i < |group.rules| && group.rules[i].schedule == Some(sc) && 0 <= req.minuteIn(sc.timezone) < 10080
    ensures var rule, m := group.rules[i], req.minuteIn(sc.timezone);
      Meaning(env, group, req)
      == if exists w, day, k :: OpenFor(sc, w, day, k, m)
         then Meaning(env, WithRule(group, i, rule.(schedule := None)), req)
         else Meaning(env, WithRule(group, i, rule.(enabled := false)), req)
  {
    var rule, m := group.rules[i], req.minuteIn(sc.timezone);
    OnSpelledOut(sc, m);
    var other := if On(sc, m) then rule.(schedule := None) else rule.(enabled := false);
    SameClause(env, group, req, i, other);
  }

  lemma SameClause(env: Env, group: PolicyGroup, req: Request, i: nat, other: GroupRule)
    requires i < |group.rules| && RuleClause(env, group.rules[i], i, req) == RuleClause(env, other, i, req)
    ensures Meaning(env, group, req) == Meaning(env, WithRule(group, i, other), req)
  {
    ClausesAgree(env, group, WithRule(group, i, other), req, req);
  }

  // -------------------------------------------------------------- conditions

  /** The conditions DNS reports, by name. */
  lemma ConditionNames(rule: GroupRule, c: string)
    ensures c in ConditionsNeedingProxy(rule) <==>
            || (c == "url_regex" && rule.urlRegexes != [])
            || (c == "content_type" && rule.blockedContentTypes != [])
            || (c == "user" && rule.users != [])
  {
  }

  /** What is collected is what the narrowing rules carry, no more and no less. */
  lemma {:induction false} ConditionsSpelledOut(env: Env, rules: seq<GroupRule>, req: Request, n: nat, c: string)
    requires n <= |rules|
    ensures c in UrlConditions(env, rules, req, n) <==>
            exists i :: 0 <= i < n && Narrows(env, rules[i], req) && c in rules[i].urlRegexes
    ensures c in TypeConditions(env, rules, req, n) <==>
            exists i :: 0 <= i < n && Narrows(env, rules[i], req) && c in rules[i].blockedContentTypes
    decreases n
  {
    if n > 0 {
      ConditionsSpelledOut(env, rules, req, n - 1, c);
    }
  }

  /** A conditional block is traced to the first narrowing rule that has an ID. */
  lemma {:induction false} SourceIsFirst(env: Env, rules: seq<GroupRule>, req: Request, n: nat, i: nat)
    requires i < n <= |rules| && Narrows(env, rules[i], req) && rules[i].id != ""
    requires forall j | 0 <= j < i && Narrows(env, rules[j], req) :: rules[j].id == ""
    ensures ConditionSource(env, rules, req, n) == (rules[i].id, "rule " + env.ruleLabel(rules[i].name, i))
    decreases n
  {
    if i < n - 1 {
      SourceIsFirst(env, rules, req, n - 1, i);
    } else {
      NoSource(env, rules, req, i);
    }
  }

  lemma {:induction false} NoSource(env: Env, rules: seq<GroupRule>, req: Request, n: nat)
    requires n <= |rules| && forall j | 0 <= j < n && Narrows(env, rules[j], req) :: rules[j].id == ""
    ensures ConditionSource(env, rules, req, n).0 == ""
    decreases n
  {
    if n > 0 {
      NoSource(env, rules, req, n - 1);
    }
  }
}
