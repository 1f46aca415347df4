/**
 Domain names, domain patterns and the category index.

 `fold` stands for strings.ToLower(strings.TrimSpace(s)) and is left uninterpreted: every
 statement holds for all of them.
 */
module Domains {

  type Fold = string -> string

  predicate HasPrefix(s: string, p: string) {
    |p| <= |s| && s[..|p|] == p
  }

  predicate HasSuffix(s: string, p: string) {
    |p| <= |s| && s[|s| - |p|..] == p
  }

  function TrimPrefix(s: string, p: string): string {
    if HasPrefix(s, p) then s[|p|..] else s
  }

  function TrimSuffix(s: string, p: string): string {
    if HasSuffix(s, p) then s[..|s| - |p|] else s
  }

  /** normalizeCategoryDomain. */
  function NormalizeName(fold: Fold, domain: string): string {
    TrimSuffix(TrimPrefix(fold(domain), "*."), ".")
  }

  /** The name a pattern is compared with. */
  function QueryName(fold: Fold, domain: string): string {
    TrimSuffix(fold(domain), ".")
  }

  /** matchDomain. */
  predicate MatchDomain(fold: Fold, pattern: string, domain: string) {
    var p, d := fold(pattern), QueryName(fold, domain);
    && p != "" && d != ""
    && if HasPrefix(p, "*.") then HasSuffix(d, p[1..]) else d == p || HasSuffix(d, "." + p)
  }

  // ---------------------------------------------------------- label suffixes

  /** A non-empty suffix of `name` that starts at a label. */
  predicate LabelStart(name: string, k: int) {
    0 <= k < |name| && (k == 0 || name[k - 1] == '.')
  }

  /** `parent` is `name` itself or one of its parent domains. */
  ghost predicate IsParent(parent: string, name: string) {
    exists k :: LabelStart(name, k) && name[k..] == parent
  }

  /** Some parent of `name`, or `name` itself, is in the set. */
  predicate Covers(names: set<string>, name: string) {
    exists k | 0 <= k < |name| :: LabelStart(name, k) && name[k..] in names
  }

  lemma CoversIsParent(names: set<string>, name: string)
    ensures Covers(names, name) <==> exists n :: n in names && IsParent(n, name)
  {
  }

  /** Coverage extends to every subdomain. */
  lemma SubdomainsAreCovered(names: set<string>, name: string, labels: string)
    requires Covers(names, name)
    ensures Covers(names, labels + "." + name)
  {
    var k :| 0 <= k < |name| && LabelStart(name, k) && name[k..] in names;
    var longer := labels + "." + name;
    assert LabelStart(longer, |labels| + 1 + k);
    assert longer[|labels| + 1 + k..] == name[k..];
  }

  // ------------------------------------------------------------ the patterns

  /** A plain pattern covers the name and its subdomains, and nothing else. */
  lemma PlainPattern(fold: Fold, pattern: string, domain: string)
    requires !HasPrefix(fold(pattern), "*.")
    ensures MatchDomain(fold, pattern, domain) <==> IsParent(fold(pattern), QueryName(fold, domain))
  {
    var p, d := fold(pattern), QueryName(fold, domain);
    if MatchDomain(fold, pattern, domain) {
      if d == p {
        assert LabelStart(d, 0) && d[0..] == p;
      } else {
        var k := |d| - |p|;
        assert d[k - 1..] == "." + p;
        assert d[k - 1] == '.';
        assert d[k..] == d[k - 1..][1..];
        assert LabelStart(d, k);
      }
    }
    if IsParent(p, d) {
      var k :| LabelStart(d, k) && d[k..] == p;
      if k == 0 {
        assert d == p;
      } else {
        assert d[k - 1..] == [d[k - 1]] + d[k..];
      }
    }
  }

  /** A wildcard pattern covers exactly what its plain form covers, minus the apex. */
  lemma WildcardExcludesApex(fold: Fold, wildcard: string, plain: string, domain: string)
    requires fold(wildcard) == "*." + fold(plain)
    requires fold(plain) != "" && !HasPrefix(fold(plain), "*.")
    ensures MatchDomain(fold, wildcard, domain)
       <==> MatchDomain(fold, plain, domain) && QueryName(fold, domain) != fold(plain)
  {
  }

  // ------------------------------------------------------------- the index

  /** The set Replace builds from a feed. */
  function FeedSet(fold: Fold, domains: seq<string>): set<string> {
    set d | d in domains && NormalizeName(fold, d) != "" :: NormalizeName(fold, d)
  }

  /** What CategoryIndex.Contains answers. */
  predicate CategoryCovers(fold: Fold, sets: map<string, set<string>>, id: string, domain: string) {
    id in sets && Covers(sets[id], NormalizeName(fold, domain))
  }

  class CategoryIndex {
    const fold: Fold
    var sets: map<string, set<string>>
    var updated: map<string, int>

    constructor (fold: Fold)
      ensures this.fold == fold && sets == map[] && updated == map[]
    {
      this.fold := fold;
      sets := map[];
      updated := map[];
    }

    /** Swaps one category's set; the answers of all other categories stay what they were. */
    method Replace(id: string, domains: seq<string>, at: int)
      modifies this
      ensures sets == old(sets)[id := FeedSet(fold, domains)]
      ensures updated == old(updated)[id := at]
    {
      var names: set<string> := {};
      for i := 0 to |domains|
        invariant names == FeedSet(fold, domains[..i]) && sets == old(sets) && updated == old(updated)
      {
        var normalized := NormalizeName(fold, domains[i]);
        assert domains[..i + 1] == domains[..i] + [domains[i]];
        FeedSetMore(fold, domains[..i], domains[i]);
        if normalized != "" {
          names := names + {normalized};
        }
      }
      assert domains[..|domains|] == domains;
      sets := sets[id := names];
      updated := updated[id := at];
    }

    /** The loop over shrinking candidates finds a covering parent exactly when there is one. */
    method Contains(id: string, domain: string) returns (found: bool)
      ensures found <==> CategoryCovers(fold, sets, id, domain)
    {
      if id !in sets || sets[id] == {} {
        return false;
      }
      var name := NormalizeName(fold, domain);
      ghost var k := 0;
      var candidate := name;
      while candidate != ""
        invariant 0 <= k <= |name| && candidate == name[k..]
        invariant k == |name| || LabelStart(name, k)
        invariant forall j | 0 <= j < k :: LabelStart(name, j) ==> name[j..] !in sets[id]
        decreases |candidate|
      {
        if candidate in sets[id] {
          return true;
        }
        var dot := IndexOfDot(candidate);
        if dot < 0 {
          return false;
        }
        NextLabel(name, k, dot);
        candidate := candidate[dot + 1..];
        k := k + dot + 1;
      }
      return false;
    }

    method Drop(id: string)
      modifies this
      ensures sets == old(sets) - {id} && updated == old(updated) - {id}
    {
      sets := sets - {id};
      updated := updated - {id};
    }
  }

  lemma FeedSetMore(fold: Fold, front: seq<string>, d: string)
    ensures FeedSet(fold, front + [d])
         == if NormalizeName(fold, d) != "" then FeedSet(fold, front) + {NormalizeName(fold, d)} else FeedSet(fold, front)
  {
    assert forall x :: x in front + [d] <==> x in front || x == d;
  }

  /** After the label at `k` the next one starts behind the next dot. */
  lemma NextLabel(name: string, k: nat, dot: nat)
    requires k + dot < |name| && name[k + dot] == '.' && forall j | 0 <= j < dot :: name[k..][j] != '.'
    ensures forall j | k < j < k + dot + 1 :: !LabelStart(name, j)
    ensures k + dot + 1 == |name| || LabelStart(name, k + dot + 1)
    ensures name[k..][dot + 1..] == name[k + dot + 1..]
  {
    forall j | LabelStart(name, j) && k < j
      ensures j >= k + dot + 1
    {
      assert name[k..][j - 1 - k] == name[j - 1];
    }
  }

  /** strings.IndexByte(s, '.'). */
  method IndexOfDot(s: string) returns (i: int)
    ensures -1 <= i < |s|
    ensures i >= 0 ==> s[i] == '.'
    ensures forall j | 0 <= j < (if i < 0 then |s| else i) :: s[j] != '.'
  {
    i := 0;
    while i < |s|
      invariant 0 <= i <= |s|
      invariant forall j | 0 <= j < i :: s[j] != '.'
    {
      if s[i] == '.' {
        return i;
      }
      i := i + 1;
    }
    return -1;
  }

  /** After Replace, a category covers a query exactly when a listed name is one of its parents. */
  lemma ReplaceDecidesContains(fold: Fold, sets: map<string, set<string>>, id: string, domains: seq<string>, query: string)
    ensures CategoryCovers(fold, sets[id := FeedSet(fold, domains)], id, query)
       <==> exists i :: 0 <= i < |domains| && IsParent(NormalizeName(fold, domains[i]), NormalizeName(fold, query))
  {
  }

  /** A feed entry and a plain pattern mean the same set of queries. */
  lemma CategoryAgreesWithPattern(fold: Fold, entry: string, query: string, sets: map<string, set<string>>, id: string)
    requires !HasPrefix(fold(entry), "*.") && !HasSuffix(fold(entry), ".")
    requires !HasPrefix(fold(query), "*.")
    ensures CategoryCovers(fold, sets[id := FeedSet(fold, [entry])], id, query) <==> MatchDomain(fold, entry, query)
  {
    var name, n := QueryName(fold, query), fold(entry);
    NamesAgree(fold, entry, query);
    PlainPattern(fold, entry, query);
    ReplaceDecidesContains(fold, sets, id, [entry], query);
    assert NormalizeName(fold, [entry][0]) == n;
    if IsParent(n, name) {
      assert 0 <= 0 < |[entry]| && IsParent(NormalizeName(fold, [entry][0]), name);
    }
  }

  lemma NamesAgree(fold: Fold, entry: string, query: string)
    requires !HasPrefix(fold(entry), "*.") && !HasSuffix(fold(entry), ".") && !HasPrefix(fold(query), "*.")
    ensures NormalizeName(fold, entry) == fold(entry) && NormalizeName(fold, query) == QueryName(fold, query)
  {
  }

  /** A wildcard feed entry and the wildcard pattern of the same text differ on the apex and nowhere else. */
  lemma WildcardFeedAgreesOffApex(fold: Fold, entry: string, plain: string, query: string, sets: map<string, set<string>>, id: string)
    requires fold(entry) == "*." + fold(plain)
    requires fold(plain) != "" && !HasPrefix(fold(plain), "*.") && !HasSuffix(fold(plain), ".")
    requires !HasPrefix(fold(query), "*.")
    ensures (CategoryCovers(fold, sets[id := FeedSet(fold, [entry])], id, query) <==> MatchDomain(fold, entry, query))
       <==> QueryName(fold, query) != fold(plain)
  {
    SameFeed(fold, entry, plain);
    CategoryAgreesWithPattern(fold, plain, query, sets, id);
    WildcardExcludesApex(fold, entry, plain, query);
    PlainPattern(fold, plain, query);
    if QueryName(fold, query) == fold(plain) {
      assert LabelStart(fold(plain), 0) && fold(plain)[0..] == fold(plain);
    }
  }

  lemma SameFeed(fold: Fold, entry: string, plain: string)
    requires fold(entry) == "*." + fold(plain)
    requires !HasPrefix(fold(plain), "*.") && !HasSuffix(fold(plain), ".")
    ensures FeedSet(fold, [entry]) == FeedSet(fold, [plain])
  {
    assert NormalizeName(fold, entry) == fold(plain) == NormalizeName(fold, plain);
    assert [entry][0] == entry && [plain][0] == plain;
  }

  /** At the apex the feed entry covers what the pattern leaves reachable. */
  lemma ApexDisagrees(fold: Fold, sets: map<string, set<string>>, id: string)
    requires fold("*.example.com") == "*.example.com" && fold("example.com") == "example.com"
    ensures CategoryCovers(fold, sets[id := FeedSet(fold, ["*.example.com"])], id, "example.com")
    ensures !MatchDomain(fold, "*.example.com", "example.com")
  {
    var plain := "example.com";
    assert "*.example.com" == "*." + plain;
    assert plain[0] == 'e' && plain[|plain| - 1] == 'm';
    assert !HasPrefix(plain, "*.") && !HasSuffix(plain, ".");
    WildcardFeedAgreesOffApex(fold, "*.example.com", "example.com", "example.com", sets, id);
    WildcardExcludesApex(fold, "*.example.com", "example.com", "example.com");
  }

  /** A pattern that keeps its trailing dot matches no name without one, while a feed entry sheds the dot. */
  lemma TrailingDotNeverMatches(fold: Fold, pattern: string, domain: string)
    requires HasSuffix(fold(pattern), ".") && !HasSuffix(QueryName(fold, domain), ".")
    ensures !MatchDomain(fold, pattern, domain)
  {
    var p, d := fold(pattern), QueryName(fold, domain);
    if d != "" {
      assert d[|d| - 1..] == [d[|d| - 1]];
      assert p[|p| - 1..] == [p[|p| - 1]];
    }
  }

  /** The root dot of a fully qualified query changes no answer, of a pattern or of a category. */
  lemma RootDotIsIgnored(fold: Fold, dotted: string, plain: string, pattern: string, sets: map<string, set<string>>, id: string)
    requires fold(dotted) == fold(plain) + "."
    requires fold(plain) != "*" && (fold(plain) == "" || fold(plain)[|fold(plain)| - 1] != '.')
    ensures MatchDomain(fold, pattern, dotted) <==> MatchDomain(fold, pattern, plain)
    ensures CategoryCovers(fold, sets, id, dotted) <==> CategoryCovers(fold, sets, id, plain)
  {
    var n := fold(plain);
    DotTrims(n);
    NoDotStays(n);
    WildcardAndDot(n);
  }

  lemma DotTrims(n: string)
    ensures TrimSuffix(n + ".", ".") == n
  {
    assert (n + ".")[|n|..] == ".";
    assert (n + ".")[..|n|] == n;
  }

  lemma NoDotStays(n: string)
    requires n == "" || n[|n| - 1] != '.'
    ensures TrimSuffix(n, ".") == n
  {
    assert n != "" ==> n[|n| - 1..] == [n[|n| - 1]];
  }

  lemma WildcardAndDot(n: string)
    requires n != "*" && (n == "" || n[|n| - 1] != '.')
    ensures TrimSuffix(TrimPrefix(n + ".", "*."), ".") == TrimSuffix(TrimPrefix(n, "*."), ".")
  {
    SamePrefix(n);
    if HasPrefix(n, "*.") {
      DotTrims(n[2..]);
      NoDotStays(n[2..]);
    } else {
      DotTrims(n);
      NoDotStays(n);
    }
  }

  lemma SamePrefix(n: string)
    requires n != "*"
    ensures HasPrefix(n + ".", "*.") <==> HasPrefix(n, "*.")
    ensures |n| >= 2 ==> (n + ".")[2..] == n[2..] + "."
  {
    if |n| >= 2 {
      assert (n + ".")[..2] == n[..2];
    } else if |n| == 1 {
      assert (n + ".")[..2][0] == n[0];
    }
  }
}
