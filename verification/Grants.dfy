/**
 Temporary grants: scoped exceptions and pauses.

 Both are kept in one stored document each, both are mirrored in memory, and both follow the same
 life cycle. An exception names a domain, a pause does not. Times are integers on one clock; the
 storage either replaces the document or leaves it alone.
 */
module Grants {
  import opened Wrappers
  import opened Domains

  datatype Kind = Exceptions | Pauses {
    /** One minute, in seconds, for both. */
    function MinDuration(): int { 60 }
    /** Seven days for exceptions, one day for pauses. */
    function MaxDuration(): int { if Exceptions? then 7 * 24 * 3600 else 24 * 3600 }
  }

  datatype Scope = Device | Group | Installation | Unknown

  datatype Grant = Grant(
    id: string,
    domain: string,
    scope: Scope,
    deviceID: string,
    groupID: string,
    createdBy: string,
    createdAt: int,
    expiresAt: int,
    reason: string,
    active: bool,
    revokedBy: string,
    revokedAt: Option<int>)

  datatype Input = Input(domain: string, scope: Scope, deviceID: string, groupID: string, duration: string, reason: string)

  datatype Identity = Identity(deviceID: string, groupID: string)

  /** strings.TrimSpace, the folding of domains and time.ParseDuration (seconds). */
  datatype Text = Text(trim: string -> string, fold: Fold, parseDuration: string -> Option<int>) {
    predicate Blank(s: string) { trim(s) == "" }
  }

  // ------------------------------------------------------------- enforcement

  predicate InForce(g: Grant, now: int) { g.active && now < g.expiresAt }

  function Filter(grants: seq<Grant>, keep: Grant -> bool): seq<Grant> {
    if grants == [] then []
    else
      var init, last := Filter(grants[..|grants| - 1], keep), grants[|grants| - 1];
      if keep(last) then init + [last] else init
  }

  function ActiveAt(grants: seq<Grant>, now: int): seq<Grant> {
    Filter(grants, g => InForce(g, now))
  }

  /** ExceptionSnapshot and pausesActiveAt. */
  method SelectActive(grants: seq<Grant>, now: int) returns (r: seq<Grant>)
    ensures r == ActiveAt(grants, now)
  {
    r := [];
    for i := 0 to |grants|
      invariant r == ActiveAt(grants[..i], now)
    {
      assert grants[..i + 1][..i] == grants[..i];
      if grants[i].active && now < grants[i].expiresAt {
        r := r + [grants[i]];
      }
    }
    assert grants[..|grants|] == grants;
  }

  /** The grant reaches this identity through scope `s`, and its domain pattern covers the request. */
  predicate Applies(kind: Kind, fold: Fold, g: Grant, s: Scope, who: Identity, domain: string) {
    && g.scope == s
    && (s == Device ==> g.deviceID == who.deviceID)
    && (s == Group ==> g.groupID == who.groupID)
    && (kind.Exceptions? ==> MatchDomain(fold, g.domain, domain))
  }

  function FirstInScope(kind: Kind, fold: Fold, grants: seq<Grant>, s: Scope, who: Identity, domain: string): Option<Grant> {
    if grants == [] then None
    else if Applies(kind, fold, grants[0], s, who, domain) then Some(grants[0])
    else FirstInScope(kind, fold, grants[1..], s, who, domain)
  }

  function Lookup(kind: Kind, fold: Fold, grants: seq<Grant>, who: Identity, domain: string): Option<Grant> {
    var d := FirstInScope(kind, fold, grants, Device, who, domain);
    var g := FirstInScope(kind, fold, grants, Group, who, domain);
    if d.Some? then d else if g.Some? then g else FirstInScope(kind, fold, grants, Installation, who, domain)
  }

  method ScanScope(kind: Kind, fold: Fold, grants: seq<Grant>, s: Scope, who: Identity, domain: string) returns (r: Option<Grant>)
    ensures r == FirstInScope(kind, fold, grants, s, who, domain)
  {
    for i := 0 to |grants|
      invariant FirstInScope(kind, fold, grants, s, who, domain) == FirstInScope(kind, fold, grants[i..], s, who, domain)
    {
      if Applies(kind, fold, grants[i], s, who, domain) {
        return Some(grants[i]);
      }
      assert grants[i..][1..] == grants[i + 1..];
    }
    return None;
  }

  /** evaluateExceptionIn and evaluatePauseIn: three passes, most specific scope first. */
  method EvaluateIn(kind: Kind, fold: Fold, grants: seq<Grant>, who: Identity, domain: string) returns (r: Option<Grant>)
    ensures r == Lookup(kind, fold, grants, who, domain)
  {
    r := ScanScope(kind, fold, grants, Device, who, domain);
    if r.Some? {
      return;
    }
    r := ScanScope(kind, fold, grants, Group, who, domain);
    if r.Some? {
      return;
    }
    r := ScanScope(kind, fold, grants, Installation, who, domain);
  }

  function Rank(s: Scope): int {
    match s case Device => 0 case Group => 1 case Installation => 2 case Unknown => 3
  }

  predicate Reaches(kind: Kind, fold: Fold, g: Grant, who: Identity, domain: string) {
    g.scope != Unknown && Applies(kind, fold, g, g.scope, who, domain)
  }

  lemma {:induction false} FirstInScopeIs(kind: Kind, fold: Fold, grants: seq<Grant>, s: Scope, who: Identity, domain: string)
    ensures var r := FirstInScope(kind, fold, grants, s, who, domain);
      && (r.None? <==> forall i | 0 <= i < |grants| :: !Applies(kind, fold, grants[i], s, who, domain))
      && (r.Some? ==> exists i | 0 <= i < |grants| ::
            grants[i] == r.value && Applies(kind, fold, grants[i], s, who, domain) &&
            forall j | 0 <= j < i :: !Applies(kind, fold, grants[j], s, who, domain))
    decreases |grants|
  {
    if grants != [] && !Applies(kind, fold, grants[0], s, who, domain) {
      var rest := grants[1..];
      FirstInScopeIs(kind, fold, rest, s, who, domain);
      assert forall i | 0 < i < |grants| :: grants[i] == rest[i - 1];
      var r := FirstInScope(kind, fold, rest, s, who, domain);
      if r.Some? {
        var i :| 0 <= i < |rest| && rest[i] == r.value && Applies(kind, fold, rest[i], s, who, domain) &&
                 forall j | 0 <= j < i :: !Applies(kind, fold, rest[j], s, who, domain);
        assert grants[i + 1] == r.value;
      }
    }
  }

  /** The lookup answers whenever some grant reaches the request, and with none more specific. */
  lemma LookupIsMostSpecific(kind: Kind, fold: Fold, grants: seq<Grant>, who: Identity, domain: string)
    ensures var r := Lookup(kind, fold, grants, who, domain);
      && (r.None? <==> forall i | 0 <= i < |grants| :: !Reaches(kind, fold, grants[i], who, domain))
      && (r.Some? ==> r.value in grants && Reaches(kind, fold, r.value, who, domain))
      && (r.Some? ==> forall i | 0 <= i < |grants| && Reaches(kind, fold, grants[i], who, domain) ::
            Rank(r.value.scope) <= Rank(grants[i].scope))
  {
    FirstInScopeIs(kind, fold, grants, Device, who, domain);
    FirstInScopeIs(kind, fold, grants, Group, who, domain);
    FirstInScopeIs(kind, fold, grants, Installation, who, domain);
  }

  /** Who and what a grant is for, field by field. */
  predicate IsFor(kind: Kind, fold: Fold, g: Grant, who: Identity, domain: string) {
    && (match g.scope
        case Device => g.deviceID == who.deviceID
        case Group => g.groupID == who.groupID
        case Installation => true
        case Unknown => false)
    && (kind == Exceptions ==> MatchDomain(fold, g.domain, domain))
  }

  /** The lookup finds exactly the grants made for the request: device before group before installation, first come first. */
  lemma LookupSpelledOut(kind: Kind, fold: Fold, grants: seq<Grant>, who: Identity, domain: string)
    ensures var r := Lookup(kind, fold, grants, who, domain);
      && (r.None? <==> forall i | 0 <= i < |grants| :: !IsFor(kind, fold, grants[i], who, domain))
      && (r.Some? ==> exists i :: 0 <= i < |grants| && grants[i] == r.value && IsFor(kind, fold, grants[i], who, domain)
                                 && Precedes(kind, fold, grants, i, who, domain))
  {
    FirstInScopeIs(kind, fold, grants, Device, who, domain);
    FirstInScopeIs(kind, fold, grants, Group, who, domain);
    FirstInScopeIs(kind, fold, grants, Installation, who, domain);
    forall i | 0 <= i < |grants|
      ensures IsFor(kind, fold, grants[i], who, domain)
         <==> grants[i].scope != Unknown && Applies(kind, fold, grants[i], grants[i].scope, who, domain)
    {
    }
  }

  /** No other grant made for the request has a narrower scope, or the same and an earlier place. */
  ghost predicate Precedes(kind: Kind, fold: Fold, grants: seq<Grant>, i: int, who: Identity, domain: string)
    requires 0 <= i < |grants|
  {
    forall j | 0 <= j < |grants| && IsFor(kind, fold, grants[j], who, domain) ::
      match grants[i].scope
      case Device => grants[j].scope == Device ==> i <= j
      case Group => grants[j].scope != Device && (grants[j].scope == Group ==> i <= j)
      case _ => grants[j].scope == Installation && i <= j
  }

  lemma {:induction false} FilterMembers(grants: seq<Grant>, keep: Grant -> bool, g: Grant)
    ensures g in Filter(grants, keep) <==> g in grants && keep(g)
    decreases |grants|
  {
    if grants != [] {
      FilterMembers(grants[..|grants| - 1], keep, g);
      assert grants == grants[..|grants| - 1] + [grants[|grants| - 1]];
    }
  }

  /** What is in force at a moment. */
  lemma ActiveSpelledOut(grants: seq<Grant>, now: int, g: Grant)
    ensures g in ActiveAt(grants, now) <==> g in grants && g.active && now < g.expiresAt
  {
    FilterMembers(grants, h => InForce(h, now), g);
  }

  // ------------------------------------------------------------------ pruning

  /** What PruneExpired keeps: not yet ended, or ended or revoked after the cutoff. */
  predicate Keep(g: Grant, cutoff: int) {
    || (g.active && g.expiresAt > cutoff)
    || (!g.active && g.revokedAt.Some? && g.revokedAt.value > cutoff)
    || (!g.active && g.expiresAt > cutoff)
  }

  function Pruned(grants: seq<Grant>, cutoff: int): seq<Grant> {
    Filter(grants, g => Keep(g, cutoff))
  }

  method PruneGrants(grants: seq<Grant>, cutoff: int) returns (kept: seq<Grant>, pruned: nat)
    ensures kept == Pruned(grants, cutoff)
    ensures pruned + |kept| == |grants|
  {
    kept, pruned := [], 0;
    for i := 0 to |grants|
      invariant kept == Pruned(grants[..i], cutoff)
      invariant pruned + |kept| == i
    {
      var g := grants[i];
      assert grants[..i + 1][..i] == grants[..i];
      if g.active && g.expiresAt > cutoff {
        kept := kept + [g];
      } else if !g.active && g.revokedAt.Some? && g.revokedAt.value > cutoff {
        kept := kept + [g];
      } else if !g.active && g.expiresAt > cutoff {
        kept := kept + [g];
      } else {
        pruned := pruned + 1;
      }
    }
    assert grants[..|grants|] == grants;
  }

  /** Filtering by a weaker test first changes nothing. */
  lemma {:induction false} FilterTwice(grants: seq<Grant>, weak: Grant -> bool, strong: Grant -> bool)
    requires forall g :: strong(g) ==> weak(g)
    ensures Filter(Filter(grants, weak), strong) == Filter(grants, strong)
    decreases |grants|
  {
    if grants != [] {
      var init, last := grants[..|grants| - 1], grants[|grants| - 1];
      FilterTwice(init, weak, strong);
      if weak(last) {
        var filtered := Filter(init, weak);
        assert (filtered + [last])[..|filtered|] == filtered;
      }
    }
  }

  /** From the cutoff on, pruning is invisible to enforcement, for every identity and domain. */
  lemma PruningIsInvisible(kind: Kind, fold: Fold, grants: seq<Grant>, cutoff: int, t: int, who: Identity, domain: string)
    requires t >= cutoff
    ensures ActiveAt(Pruned(grants, cutoff), t) == ActiveAt(grants, t)
    ensures Lookup(kind, fold, ActiveAt(Pruned(grants, cutoff), t), who, domain) == Lookup(kind, fold, ActiveAt(grants, t), who, domain)
  {
    FilterTwice(grants, g => Keep(g, cutoff), g => InForce(g, t));
  }

  /** Pruning removes exactly what ended, and was revoked if at all, no later than the cutoff. */
  lemma PrunedSpelledOut(grants: seq<Grant>, cutoff: int, g: Grant)
    ensures g in Pruned(grants, cutoff) <==>
            g in grants && (g.expiresAt > cutoff || (!g.active && g.revokedAt.Some? && g.revokedAt.value > cutoff))
  {
    FilterMembers(grants, h => Keep(h, cutoff), g);
  }
}
