/**
 NormalizeGroupRules: which rules an administrator may save, and the form they are saved in.

 `Norms` carries the string and library functions it uses: trimming, folding, the domain-pattern
 parser (None for a rejected entry, "" for a blank one), address detection, the category catalog,
 regular-expression and time-zone checks, and the generated IDs.
 */
module PolicyNormal {
  import opened Wrappers
  import opened Domains
  import opened Schedules
  import opened PolicyRules

  datatype Norms = Norms(
    trim: string -> string,
    fold: string -> string,
    pattern: string -> Option<string>,
    isAddress: string -> bool,
    catalog: set<string>,
    regexCompiles: string -> bool,
    zoneKnown: string -> bool,
    newID: nat -> string)

  function NormalUser(n: Norms, user: string): Option<string> {
    if n.trim(user) != "" && n.isAddress(n.trim(user)) then None else Some(n.trim(user))
  }

  function NormalCategory(n: Norms, id: string): Option<string> {
    if n.fold(id) != "" && n.fold(id) !in n.catalog then None else Some(n.fold(id))
  }

  function NormalType(n: Norms, contentType: string): Option<string> { Some(n.fold(contentType)) }

  function NormalRegex(n: Norms, pattern: string): Option<string> {
    if n.trim(pattern) != "" && !n.regexCompiles(n.trim(pattern)) then None else Some(n.trim(pattern))
  }

  /** The non-blank canonical values in order; with `once`, only the first occurrence of each. */
  function NormalList(raw: seq<string>, canon: string -> Option<string>, once: bool): seq<string> {
    if raw == [] then []
    else
      var init, v := NormalList(raw[..|raw| - 1], canon, once), canon(raw[|raw| - 1]);
      if v.None? || v.value == "" || (once && v.value in init) then init else init + [v.value]
  }

  ghost predicate AllAccepted(raw: seq<string>, canon: string -> Option<string>) {
    forall i | 0 <= i < |raw| :: canon(raw[i]).Some?
  }

  /** The shared loop of normalizeDomainList, normalizeUsers, NormalizeCategories and the conditions. */
  method NormalizeList(raw: seq<string>, canon: string -> Option<string>, once: bool) returns (r: Option<seq<string>>)
    ensures r.Some? <==> AllAccepted(raw, canon)
    ensures r.Some? ==> r.value == NormalList(raw, canon, once)
  {
    var out: seq<string> := [];
    for k := 0 to |raw|
      invariant AllAccepted(raw[..k], canon)
      invariant out == NormalList(raw[..k], canon, once)
    {
      var v := canon(raw[k]);
      if v.None? {
        return None;
      }
      assert raw[..k + 1][..k] == raw[..k];
      if v.value != "" && !(once && v.value in out) {
        out := out + [v.value];
      }
    }
    assert raw[..|raw|] == raw;
    return Some(out);
  }

  /** Some entry is neither blank nor rejected. */
  ghost predicate HasValue(raw: seq<string>, canon: string -> Option<string>) {
    exists i | 0 <= i < |raw| :: canon(raw[i]).Some? && canon(raw[i]).value != ""
  }

  /** The list holds exactly the non-blank canonical values, without repeats when `once`. */
  lemma {:induction false} NormalListContents(raw: seq<string>, canon: string -> Option<string>, once: bool)
    ensures forall v :: v in NormalList(raw, canon, once) <==> v != "" && exists i | 0 <= i < |raw| :: canon(raw[i]) == Some(v)
    ensures once ==> forall i, j | 0 <= i < j < |NormalList(raw, canon, once)| ::
      NormalList(raw, canon, once)[i] != NormalList(raw, canon, once)[j]
    decreases |raw|
  {
    if raw != [] {
      var init, last := raw[..|raw| - 1], raw[|raw| - 1];
      NormalListContents(init, canon, once);
      forall v
        ensures (exists i | 0 <= i < |raw| :: canon(raw[i]) == Some(v))
           <==> canon(last) == Some(v) || exists i | 0 <= i < |init| :: canon(init[i]) == Some(v)
      {
        if i :| 0 <= i < |init| && canon(init[i]) == Some(v) {
          assert canon(raw[i]) == Some(v);
        }
      }
    }
  }

  lemma EmptyMeansNoValue(raw: seq<string>, canon: string -> Option<string>, once: bool)
    ensures NormalList(raw, canon, once) != [] <==> HasValue(raw, canon)
  {
  }

  /** Exactly the rules that are accepted. */
  ghost predicate Acceptable(n: Norms, rule: GroupRule) {
    && (rule.action == ActionAllow || rule.action == ActionBlock)
    && AllAccepted(rule.target.domains, n.pattern)
    && AllAccepted(rule.target.categories, c => NormalCategory(n, c))
    && (rule.enabled && !rule.target.allTraffic ==>
          HasValue(rule.target.domains, n.pattern) || HasValue(rule.target.categories, c => NormalCategory(n, c)))
    && AllAccepted(rule.urlRegexes, p => NormalRegex(n, p))
    && (HasValue(rule.urlRegexes, p => NormalRegex(n, p)) ==> rule.action == ActionBlock)
    && (HasValue(rule.blockedContentTypes, t => NormalType(n, t)) ==> rule.action == ActionBlock)
    && AllAccepted(rule.users, u => NormalUser(n, u))
    && (rule.schedule.Some? ==> WellFormed(rule.schedule.value, n.zoneKnown))
  }

  /** The saved form of rule number `i`. */
  ghost predicate Saved(n: Norms, rule: GroupRule, i: nat, saved: GroupRule) {
    && saved.id == (if rule.id == "" then n.newID(i) else rule.id)
    && saved.name == n.trim(rule.name)
    && (saved.enabled, saved.action, saved.schedule) == (rule.enabled, rule.action, rule.schedule)
    && saved.target.allTraffic == rule.target.allTraffic
    && (rule.target.allTraffic ==> saved.target.domains == [] && saved.target.categories == [])
    && (!rule.target.allTraffic ==> saved.target.domains == NormalList(rule.target.domains, n.pattern, true))
    && (!rule.target.allTraffic ==>
          saved.target.categories == NormalList(rule.target.categories, c => NormalCategory(n, c), true))
    && saved.urlRegexes == NormalList(rule.urlRegexes, p => NormalRegex(n, p), false)
    && saved.blockedContentTypes == NormalList(rule.blockedContentTypes, t => NormalType(n, t), false)
    && saved.users == NormalList(rule.users, u => NormalUser(n, u), true)
  }

  method NormalizeRule(n: Norms, rule: GroupRule, i: nat) returns (r: Option<GroupRule>)
    ensures r.Some? <==> Acceptable(n, rule)
    ensures r.Some? ==> Saved(n, rule, i, r.value)
  {
    if rule.action != ActionAllow && rule.action != ActionBlock {
      return None;
    }
    var domains := NormalizeList(rule.target.domains, n.pattern, true);
    if domains.None? {
      return None;
    }
    var categories := NormalizeList(rule.target.categories, c => NormalCategory(n, c), true);
    if categories.None? {
      return None;
    }
    EmptyMeansNoValue(rule.target.domains, n.pattern, true);
    EmptyMeansNoValue(rule.target.categories, c => NormalCategory(n, c), true);
    if rule.enabled && !rule.target.allTraffic && domains.value == [] && categories.value == [] {
      return None;
    }
    var patterns := NormalizeList(rule.urlRegexes, p => NormalRegex(n, p), false);
    if patterns.None? {
      return None;
    }
    var types := NormalizeList(rule.blockedContentTypes, t => NormalType(n, t), false);
    EmptyMeansNoValue(rule.urlRegexes, p => NormalRegex(n, p), false);
    EmptyMeansNoValue(rule.blockedContentTypes, t => NormalType(n, t), false);
    if (patterns.value != [] || types.value != []) && rule.action != ActionBlock {
      return None;
    }
    var users := NormalizeList(rule.users, u => NormalUser(n, u), true);
    if users.None? {
      return None;
    }
    var valid := Validate(rule.schedule, n.zoneKnown);
    if !valid {
      return None;
    }
    var target := if rule.target.allTraffic then RuleTarget(true, [], [])
                  else RuleTarget(false, domains.value, categories.value);
    return Some(GroupRule(if rule.id == "" then n.newID(i) else rule.id, n.trim(rule.name), rule.enabled, rule.action,
                          target, patterns.value, types.value, rule.schedule, users.value));
  }

  /** All rules are saved in order, or none is: one unacceptable rule rejects the whole policy. */
  method NormalizeGroupRules(n: Norms, rules: seq<GroupRule>) returns (r: Option<seq<GroupRule>>)
    ensures r.Some? <==> forall i | 0 <= i < |rules| :: Acceptable(n, rules[i])
    ensures r.Some? ==> |r.value| == |rules| && forall i | 0 <= i < |rules| :: Saved(n, rules[i], i, r.value[i])
  {
    var out: seq<GroupRule> := [];
    for i := 0 to |rules|
      invariant |out| == i
      invariant forall j | 0 <= j < i :: Acceptable(n, rules[j]) && Saved(n, rules[j], j, out[j])
    {
      var saved := NormalizeRule(n, rules[i], i);
      if saved.None? {
        return None;
      }
      out := out + [saved.value];
    }
    return Some(out);
  }

  /** Whatever was saved satisfies the hypothesis of the pause laws, and every rule still means something. */
  lemma SavedRulesAreNormal(n: Norms, rule: GroupRule, i: nat, saved: GroupRule)
    requires Acceptable(n, rule) && Saved(n, rule, i, saved)
    ensures NormalRule(saved)
    ensures saved.enabled ==> saved.target.allTraffic || saved.target.domains != [] || saved.target.categories != []
    ensures forall u | u in saved.users :: u != "" && !n.isAddress(u)
    ensures forall c | c in saved.target.categories :: c != "" && c in n.catalog
    ensures forall p | p in saved.urlRegexes :: p != "" && n.regexCompiles(p)
    ensures "" !in saved.target.domains && "" !in saved.blockedContentTypes
    ensures saved.schedule.Some? ==> WellFormed(saved.schedule.value, n.zoneKnown)
    ensures saved.name == n.trim(rule.name) && (rule.id != "" ==> saved.id == rule.id) && (rule.id == "" ==> saved.id == n.newID(i))
    ensures saved.enabled == rule.enabled && saved.action == rule.action && saved.schedule == rule.schedule
    ensures saved.target.allTraffic == rule.target.allTraffic
    ensures saved.target.allTraffic ==> saved.target.domains == [] && saved.target.categories == []
  {
    NormalListContents(rule.users, u => NormalUser(n, u), true);
    NormalListContents(rule.target.categories, c => NormalCategory(n, c), true);
    NormalListContents(rule.urlRegexes, p => NormalRegex(n, p), false);
    NormalListContents(rule.target.domains, n.pattern, true);
    NormalListContents(rule.blockedContentTypes, t => NormalType(n, t), false);
    EmptyMeansNoValue(rule.urlRegexes, p => NormalRegex(n, p), false);
    EmptyMeansNoValue(rule.blockedContentTypes, t => NormalType(n, t), false);
    if !rule.target.allTraffic {
      EmptyMeansNoValue(rule.target.domains, n.pattern, true);
      EmptyMeansNoValue(rule.target.categories, c => NormalCategory(n, c), true);
    }
  }

  /** Exactly these rules are accepted, each test on the text as it was entered. */
  lemma AcceptableSpelledOut(n: Norms, rule: GroupRule)
    ensures Acceptable(n, rule) <==>
      && rule.action in {"allow", "block"}
      && (forall i | 0 <= i < |rule.target.domains| :: n.pattern(rule.target.domains[i]).Some?)
      && (forall i | 0 <= i < |rule.target.categories| ::
            n.fold(rule.target.categories[i]) == "" || n.fold(rule.target.categories[i]) in n.catalog)
      && (rule.enabled && !rule.target.allTraffic ==>
            || (exists i :: 0 <= i < |rule.target.domains| && n.pattern(rule.target.domains[i]) != Some("") )
            || (exists i :: 0 <= i < |rule.target.categories| && n.fold(rule.target.categories[i]) != ""))
      && (forall i | 0 <= i < |rule.urlRegexes| :: n.trim(rule.urlRegexes[i]) == "" || n.regexCompiles(n.trim(rule.urlRegexes[i])))
      && ((exists i :: 0 <= i < |rule.urlRegexes| && n.trim(rule.urlRegexes[i]) != "") ==> rule.action == "block")
      && ((exists i :: 0 <= i < |rule.blockedContentTypes| && n.fold(rule.blockedContentTypes[i]) != "") ==> rule.action == "block")
      && (forall i | 0 <= i < |rule.users| :: n.trim(rule.users[i]) == "" || !n.isAddress(n.trim(rule.users[i])))
      && (rule.schedule.Some? ==> WellFormed(rule.schedule.value, n.zoneKnown))
  {
  }

  /** Some entry, in its canonical form, hits. */
  ghost predicate SomeHit(raw: seq<string>, canon: string -> Option<string>, hit: string -> bool) {
    exists i | 0 <= i < |raw| :: canon(raw[i]).Some? && canon(raw[i]).value != "" && hit(canon(raw[i]).value)
  }

  /** A normal list never holds the blank value that reads as "no match", so it answers for what was entered. */
  lemma NormalListReports(raw: seq<string>, canon: string -> Option<string>, once: bool, hit: string -> bool)
    ensures FirstHit(NormalList(raw, canon, once), hit) != "" <==> SomeHit(raw, canon, hit)
  {
    var list := NormalList(raw, canon, once);
    NormalListContents(raw, canon, once);
    assert "" !in list;
    FirstHitReports(list, hit);
    if i :| 0 <= i < |list| && hit(list[i]) {
      assert list[i] in list;
    }
    if i :| 0 <= i < |raw| && canon(raw[i]).Some? && canon(raw[i]).value != "" && hit(canon(raw[i]).value) {
      var v := canon(raw[i]).value;
      assert v in list;
    }
  }

  /** A saved rule targets exactly the domains that the entered target names, all lists of a policy being saved this way. */
  lemma SavedTargetKeepsMeaning(n: Norms, rule: GroupRule, i: nat, saved: GroupRule, env: Env, domain: string)
    requires Saved(n, rule, i, saved)
    ensures MatchTarget(env, saved.target, domain) != "" <==>
            || rule.target.allTraffic
            || SomeHit(rule.target.domains, n.pattern, p => MatchDomain(env.fold, p, domain))
            || SomeHit(rule.target.categories, c => NormalCategory(n, c), id => CategoryCovers(env.fold, env.sets, id, domain))
  {
    NormalListReports(rule.target.domains, n.pattern, true, p => MatchDomain(env.fold, p, domain));
    NormalListReports(rule.target.categories, c => NormalCategory(n, c), true,
                      id => CategoryCovers(env.fold, env.sets, id, domain));
  }
}
