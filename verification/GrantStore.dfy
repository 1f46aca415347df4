/**
 The durable life cycle of exceptions and pauses: create, revoke, prune, reload.

 `Io` says how the storage behaves during one operation: the document write fails and leaves the
 old document, or the write succeeds and reading it back fails, or all works. A run is a sequence
 of operations one after the other.
 */
module GrantStore {
  import opened Wrappers
  import opened Domains
  import opened Grants

  datatype Io = Works | WriteFails | ReadBackFails

  datatype Document = Missing | Malformed | Document(version: int, grants: seq<Grant>, updatedAt: int)

  datatype Snapshot = Snapshot(grants: seq<Grant>, updatedAt: int)

  datatype State = State(stored: Document, snapshot: Snapshot)

  const DocumentVersion: int := 1

  /** Reading the stored document; None is a parse error or an unsupported version. */
  function Load(doc: Document): Option<Snapshot> {
    match doc
    case Missing => Some(Snapshot([], 0))
    case Malformed => None
    case Document(version, grants, at) => if version == DocumentVersion then Some(Snapshot(grants, at)) else None
  }

  /** The transaction's write and the read-back, once the transform has produced `next`. */
  function Commit(s: State, next: Option<seq<Grant>>, now: int, io: Io): State {
    if next.None? || io == WriteFails then s
    else if io == ReadBackFails then s.(stored := Document(DocumentVersion, next.value, now))
    else State(Document(DocumentVersion, next.value, now), Snapshot(next.value, now))
  }

  // -------------------------------------------------------------- transforms

  /** CreateExceptionInput.Validate and CreatePauseInput.Validate. */
  predicate ValidInput(kind: Kind, text: Text, input: Input) {
    && (kind.Exceptions? ==> !text.Blank(input.domain))
    && (match input.scope
        case Device => !text.Blank(input.deviceID)
        case Group => !text.Blank(input.groupID)
        case Installation => true
        case Unknown => false)
    && !text.Blank(input.duration)
    && text.parseDuration(input.duration).Some?
    && kind.MinDuration() <= text.parseDuration(input.duration).value <= kind.MaxDuration()
  }

  predicate MayCreate(kind: Kind, text: Text, input: Input, admin: string, groups: set<string>) {
    ValidInput(kind, text, input) && !text.Blank(admin) && (input.scope == Group ==> input.groupID in groups)
  }

  function NewGrant(kind: Kind, text: Text, input: Input, admin: string, id: string, now: int): Grant
    requires ValidInput(kind, text, input)
  {
    Grant(id, if kind.Exceptions? then text.fold(input.domain) else "", input.scope, input.deviceID, input.groupID, admin,
          now, now + text.parseDuration(input.duration).value, input.reason, true, "", None)
  }

  function GrantId(g: Grant): string { g.id }

  function RevokeFirst(grants: seq<Grant>, id: string, admin: string, now: int): Option<seq<Grant>> {
    var i := FirstIndex(Ids(grants, GrantId), id);
    if i < 0 || !grants[i].active then None
    else Some(grants[i := grants[i].(active := false, revokedBy := admin, revokedAt := Some(now))])
  }

  /** The grant is what was asked for, from now, for as long as was asked. */
  predicate AsRequested(kind: Kind, text: Text, input: Input, admin: string, id: string, now: int, g: Grant) {
    && (g.id, g.createdBy, g.reason) == (id, admin, input.reason)
    && (g.scope, g.deviceID, g.groupID) == (input.scope, input.deviceID, input.groupID)
    && g.domain == (if kind == Exceptions then text.fold(input.domain) else "")
    && g.active && g.revokedBy == "" && g.revokedAt.None?
    && g.createdAt == now && text.parseDuration(input.duration) == Some(g.expiresAt - g.createdAt)
  }

  /** What may be created: known scope with its ID, a duration in bounds, an administrator, an existing group. */
  lemma MayCreateSpelledOut(kind: Kind, text: Text, input: Input, admin: string, groups: set<string>)
    ensures MayCreate(kind, text, input, admin, groups) <==>
      && (kind == Exceptions ==> text.trim(input.domain) != "")
      && (|| (input.scope == Device && text.trim(input.deviceID) != "")
          || (input.scope == Group && text.trim(input.groupID) != "" && input.groupID in groups)
          || input.scope == Installation)
      && text.trim(input.duration) != "" && text.trim(admin) != ""
      && (exists d :: text.parseDuration(input.duration) == Some(d) && 60 <= d <= if kind == Exceptions then 604800 else 86400)
  {
    if text.parseDuration(input.duration).Some? {
      assert text.parseDuration(input.duration) == Some(text.parseDuration(input.duration).value);
    }
  }

  datatype Op =
    | Create(input: Input, admin: string, id: string, groups: set<string>, now: int, io: Io)
    | Revoke(id: string, admin: string, now: int, io: Io)
    | Prune(now: int, io: Io)
    | Reload(now: int, io: Io)

  /** The document an operation wants to write, or None when it is refused. */
  function Transform(kind: Kind, text: Text, grants: seq<Grant>, op: Op): Option<seq<Grant>> {
    match op
    case Create(input, admin, id, groups, now, _) =>
      if MayCreate(kind, text, input, admin, groups) then Some(grants + [NewGrant(kind, text, input, admin, id, now)]) else None
    case Revoke(id, admin, now, _) => if text.Blank(id) then None else RevokeFirst(grants, id, admin, now)
    case Prune(now, _) => Some(Pruned(grants, now - kind.MaxDuration()))
    case Reload(_, _) => None
  }

  function Apply(kind: Kind, text: Text, s: State, op: Op): State {
    var loaded := Load(s.stored);
    if op.Reload? then (if op.io == Works && loaded.Some? then s.(snapshot := loaded.value) else s)
    else if loaded.None? then s
    else Commit(s, Transform(kind, text, loaded.value.grants, op), op.now, op.io)
  }

  // --------------------------------------------------------------- the store

  class Store {
    const kind: Kind
    const text: Text
    var stored: Document
    var snapshot: Snapshot

    ghost function Abs(): State
      reads this
    {
      State(stored, snapshot)
    }

    constructor (kind: Kind, text: Text)
      ensures this.kind == kind && this.text == text && Abs() == State(Missing, Snapshot([], 0))
    {
      this.kind, this.text := kind, text;
      stored, snapshot := Missing, Snapshot([], 0);
    }

    /** updateExceptions and updatePauses after the transform. */
    method Write(next: seq<Grant>, now: int, io: Io) returns (ok: bool)
      modifies this
      ensures Abs() == Commit(old(Abs()), Some(next), now, io)
      ensures ok <==> io == Works
    {
      if io == WriteFails {
        return false;
      }
      stored := Document(DocumentVersion, next, now);
      if io == ReadBackFails {
        return false;
      }
      snapshot := Snapshot(next, now);
      return true;
    }

    /** CreateException and CreatePause. */
    method CreateGrant(input: Input, admin: string, id: string, groups: set<string>, now: int, io: Io) returns (r: Option<Grant>)
      modifies this
      ensures Abs() == Apply(kind, text, old(Abs()), Create(input, admin, id, groups, now, io))
      ensures r.Some? <==> Load(old(stored)).Some? && MayCreate(kind, text, input, admin, groups) && io == Works
      ensures r.Some? ==> AsRequested(kind, text, input, admin, id, now, r.value)
      ensures r.Some? ==>
                && Abs() == State(Document(1, snapshot.grants, now), Snapshot(snapshot.grants, now))
                && (old(stored).Missing? ==> snapshot.grants == [r.value])
                && (!old(stored).Missing? ==> old(stored).Document? && old(stored).version == 1
                                              && snapshot.grants == old(stored).grants + [r.value])
    {
      if !ValidInput(kind, text, input) || text.Blank(admin) {
        return None;
      }
      var grant := NewGrant(kind, text, input, admin, id, now);
      var loaded := Load(stored);
      if loaded.None? || (input.scope == Group && input.groupID !in groups) {
        return None;
      }
      var ok := Write(loaded.value.grants + [grant], now, io);
      return if ok then Some(grant) else None;
    }

    /** RevokeException and RevokePause: the loop stops at the first record with the ID. */
    method RevokeGrant(id: string, admin: string, now: int, io: Io) returns (ok: bool)
      modifies this
      ensures Abs() == Apply(kind, text, old(Abs()), Revoke(id, admin, now, io))
      ensures ok <==> Load(old(stored)).Some? && io == Works &&
                      Transform(kind, text, Load(old(stored)).value.grants, Revoke(id, admin, now, io)).Some?
      ensures ok ==>
                && old(stored).Document?
                && var i := FirstIndex(Ids(old(stored).grants, GrantId), id);
                   && i >= 0 && old(stored).grants[i].active
                   && snapshot.grants ==
                      old(stored).grants[i := old(stored).grants[i].(active := false, revokedBy := admin, revokedAt := Some(now))]
    {
      if text.Blank(id) {
        return false;
      }
      var loaded := Load(stored);
      if loaded.None? {
        return false;
      }
      var grants := loaded.value.grants;
      var i := 0;
      while i < |grants| && grants[i].id != id
        invariant 0 <= i <= |grants|
        invariant forall j | 0 <= j < i :: grants[j].id != id
      {
        i := i + 1;
      }
      if i == |grants| || !grants[i].active {
        return false;
      }
      ok := Write(grants[i := grants[i].(active := false, revokedBy := admin, revokedAt := Some(now))], now, io);
    }

    /** PruneExpiredExceptions and PruneExpiredPauses. */
    method PruneExpired(now: int, io: Io) returns (pruned: nat, ok: bool)
      modifies this
      ensures Abs() == Apply(kind, text, old(Abs()), Prune(now, io))
      ensures ok <==> Load(old(stored)).Some? && io == Works
      ensures Load(old(stored)).Some? ==>
        pruned + |Pruned(Load(old(stored)).value.grants, now - kind.MaxDuration())| == |Load(old(stored)).value.grants|
    {
      var loaded := Load(stored);
      if loaded.None? {
        return 0, false;
      }
      var kept;
      kept, pruned := PruneGrants(loaded.value.grants, now - kind.MaxDuration());
      ok := Write(kept, now, io);
    }
  }

  // -------------------------------------------------------------------- runs

  predicate Lifetime(kind: Kind, g: Grant) {
    g.createdAt + kind.MinDuration() <= g.expiresAt <= g.createdAt + kind.MaxDuration()
  }

  ghost predicate Sound(kind: Kind, grants: seq<Grant>) {
    && (forall i | 0 <= i < |grants| :: Lifetime(kind, grants[i]))
    && (forall i, j | 0 <= i < j < |grants| :: grants[i].id != grants[j].id)
  }

  /** The in-memory snapshot is the stored document. */
  predicate Synced(s: State) { Load(s.stored) == Some(s.snapshot) }

  ghost predicate Good(kind: Kind, s: State) {
    Sound(kind, s.snapshot.grants) && (Load(s.stored).Some? ==> Sound(kind, Load(s.stored).value.grants))
  }

  /** Generated IDs do not repeat one that is still stored. */
  predicate FreshId(s: State, op: Op) {
    op.Create? && Load(s.stored).Some? ==> FirstIndex(Ids(Load(s.stored).value.grants, GrantId), op.id) < 0
  }

  predicate IsRun(kind: Kind, text: Text, s: State, ops: seq<Op>)
    decreases |ops|
  {
    ops == [] || (FreshId(s, ops[0]) && IsRun(kind, text, Apply(kind, text, s, ops[0]), ops[1..]))
  }

  function After(kind: Kind, text: Text, s: State, ops: seq<Op>): State
    decreases |ops|
  {
    if ops == [] then s else After(kind, text, Apply(kind, text, s, ops[0]), ops[1..])
  }

  lemma {:induction false} FilterSound(kind: Kind, grants: seq<Grant>, keep: Grant -> bool)
    requires Sound(kind, grants)
    ensures Sound(kind, Filter(grants, keep))
    ensures forall g | g in Filter(grants, keep) :: g in grants && keep(g)
    decreases |grants|
  {
    if grants != [] {
      var init, last := grants[..|grants| - 1], grants[|grants| - 1];
      FilterSound(kind, init, keep);
      var kept := Filter(init, keep);
      forall i | 0 <= i < |kept|
        ensures kept[i].id != last.id
      {
        assert kept[i] in kept;
        assert kept[i] in init;
      }
    }
  }

  lemma TransformSound(kind: Kind, text: Text, grants: seq<Grant>, op: Op)
    requires Sound(kind, grants) && (op.Create? ==> FirstIndex(Ids(grants, GrantId), op.id) < 0)
    ensures var next := Transform(kind, text, grants, op); next.Some? ==> Sound(kind, next.value)
  {
    if op.Prune? {
      FilterSound(kind, grants, g => Keep(g, op.now - kind.MaxDuration()));
    }
  }

  lemma StepIsGood(kind: Kind, text: Text, s: State, op: Op)
    requires Good(kind, s) && FreshId(s, op)
    ensures Good(kind, Apply(kind, text, s, op))
    ensures Synced(s) && op.io != ReadBackFails ==> Synced(Apply(kind, text, s, op))
  {
    if Load(s.stored).Some? {
      TransformSound(kind, text, Load(s.stored).value.grants, op);
    }
  }

  /** Every run keeps lifetimes within bounds and IDs unique, in storage and in memory. */
  lemma {:induction false} RunIsGood(kind: Kind, text: Text, s: State, ops: seq<Op>)
    requires Good(kind, s) && IsRun(kind, text, s, ops)
    ensures Good(kind, After(kind, text, s, ops))
    decreases |ops|
  {
    if ops != [] {
      StepIsGood(kind, text, s, ops[0]);
      RunIsGood(kind, text, Apply(kind, text, s, ops[0]), ops[1..]);
    }
  }

  /** As long as read-backs succeed, memory is the stored document after every operation. */
  lemma {:induction false} RunIsSynced(kind: Kind, text: Text, s: State, ops: seq<Op>)
    requires Synced(s) && forall i | 0 <= i < |ops| :: ops[i].io != ReadBackFails
    ensures Synced(After(kind, text, s, ops))
    decreases |ops|
  {
    if ops != [] {
      RunIsSynced(kind, text, Apply(kind, text, s, ops[0]), ops[1..]);
    }
  }

  /** The operation gets as far as a write, or is a reload. */
  predicate Effective(kind: Kind, text: Text, s: State, op: Op) {
    || op.Reload?
    || (op.io != WriteFails && Load(s.stored).Some? && Transform(kind, text, Load(s.stored).value.grants, op).Some?)
  }

  /** Helper: an operation without effect leaves both copies alone. */
  lemma RefusalChangesNothing(kind: Kind, text: Text, s: State, op: Op)
    requires !Effective(kind, text, s, op)
    ensures Apply(kind, text, s, op) == s
  {
  }

  /** The run without its refused and unwritten operations. */
  function Effects(kind: Kind, text: Text, s: State, ops: seq<Op>): seq<Op>
    decreases |ops|
  {
    if ops == [] then []
    else if Effective(kind, text, s, ops[0]) then [ops[0]] + Effects(kind, text, Apply(kind, text, s, ops[0]), ops[1..])
    else Effects(kind, text, s, ops[1..])
  }

  /** Refused and unwritten operations leave no trace in any run: dropping them all gives the same final state. */
  lemma {:induction false} RefusalsAreInvisible(kind: Kind, text: Text, s: State, ops: seq<Op>)
    ensures After(kind, text, s, Effects(kind, text, s, ops)) == After(kind, text, s, ops)
    decreases |ops|
  {
    if ops != [] {
      var t, rest := Apply(kind, text, s, ops[0]), ops[1..];
      if Effective(kind, text, s, ops[0]) {
        RefusalsAreInvisible(kind, text, t, rest);
        assert ([ops[0]] + Effects(kind, text, t, rest))[1..] == Effects(kind, text, t, rest);
      } else {
        RefusalChangesNothing(kind, text, s, ops[0]);
        RefusalsAreInvisible(kind, text, s, rest);
      }
    }
  }

  lemma {:induction false} AfterLast(kind: Kind, text: Text, s: State, ops: seq<Op>)
    requires ops != []
    ensures After(kind, text, s, ops)
         == Apply(kind, text, After(kind, text, s, ops[..|ops| - 1]), ops[|ops| - 1])
    decreases |ops|
  {
    if |ops| > 1 {
      AfterLast(kind, text, Apply(kind, text, s, ops[0]), ops[1..]);
      assert ops[1..][..|ops| - 2] == ops[..|ops| - 1][1..];
    }
  }

  /** Helper: one step keeps the snapshot or ends with memory equal to storage. */
  lemma StepKeepsOrResyncs(kind: Kind, text: Text, s: State, op: Op)
    ensures Apply(kind, text, s, op).snapshot == s.snapshot || Synced(Apply(kind, text, s, op))
    ensures op.io == Works && Load(s.stored).Some? && Effective(kind, text, s, op) ==> Synced(Apply(kind, text, s, op))
  {
  }

  /**
   Whatever fails, memory is always some document that storage held: the one after operation `k`,
   after which no operation both took effect and was read back.
   */
  lemma {:induction false} MemoryIsAnEarlierDocument(kind: Kind, text: Text, s: State, ops: seq<Op>) returns (k: nat)
    requires Synced(s)
    ensures k <= |ops| && Synced(After(kind, text, s, ops[..k]))
    ensures After(kind, text, s, ops).snapshot == After(kind, text, s, ops[..k]).snapshot
    ensures forall j | k <= j < |ops| :: Lags(kind, text, After(kind, text, s, ops[..j]), ops[j])
    decreases |ops|
  {
    assert ops[..|ops|] == ops;
    if Synced(After(kind, text, s, ops)) {
      k := |ops|;
    } else {
      var init, last := ops[..|ops| - 1], ops[|ops| - 1];
      k := MemoryIsAnEarlierDocument(kind, text, s, init);
      AfterLast(kind, text, s, ops);
      StepKeepsOrResyncs(kind, text, After(kind, text, s, init), last);
      assert init[..k] == ops[..k];
      forall j | k <= j < |ops|
        ensures Lags(kind, text, After(kind, text, s, ops[..j]), ops[j])
      {
        if j < |init| {
          assert init[..j] == ops[..j] && init[j] == ops[j];
        }
      }
    }
  }

  /** The operation had no effect, or its result could not be read back, or there is no document to read. */
  predicate Lags(kind: Kind, text: Text, s: State, op: Op) {
    op.io != Works || Load(s.stored).None? || !Effective(kind, text, s, op)
  }

  ghost predicate NoneActive(grants: seq<Grant>, id: string) {
    forall i | 0 <= i < |grants| && grants[i].id == id :: !grants[i].active
  }

  ghost predicate Inactive(s: State, id: string) {
    NoneActive(s.snapshot.grants, id) && (Load(s.stored).Some? ==> NoneActive(Load(s.stored).value.grants, id))
  }

  lemma {:induction false} FilterNoneActive(grants: seq<Grant>, keep: Grant -> bool, id: string)
    requires NoneActive(grants, id)
    ensures NoneActive(Filter(grants, keep), id)
    decreases |grants|
  {
    if grants != [] {
      FilterNoneActive(grants[..|grants| - 1], keep, id);
    }
  }

  /** A successful revocation ends the grant. */
  lemma RevokeEndsGrant(kind: Kind, text: Text, s: State, op: Op)
    requires Good(kind, s) && op.Revoke? && op.io == Works && Load(s.stored).Some?
    requires Transform(kind, text, Load(s.stored).value.grants, op).Some?
    ensures Inactive(Apply(kind, text, s, op), op.id)
  {
  }

  lemma StepKeepsInactive(kind: Kind, text: Text, s: State, op: Op, id: string)
    requires Inactive(s, id) && (op.Create? ==> op.id != id)
    ensures Inactive(Apply(kind, text, s, op), id)
  {
    if op.Prune? && Load(s.stored).Some? {
      FilterNoneActive(Load(s.stored).value.grants, g => Keep(g, op.now - kind.MaxDuration()), id);
    }
  }

  /** A revoked grant never acts again: in no later state does any lookup return it. */
  lemma {:induction false} RevokedStaysRevoked(kind: Kind, text: Text, s: State, ops: seq<Op>, id: string)
    requires Inactive(s, id) && forall i | 0 <= i < |ops| && ops[i].Create? :: ops[i].id != id
    ensures Inactive(After(kind, text, s, ops), id)
    decreases |ops|
  {
    if ops != [] {
      StepKeepsInactive(kind, text, s, ops[0], id);
      RevokedStaysRevoked(kind, text, Apply(kind, text, s, ops[0]), ops[1..], id);
    }
  }

  lemma InactiveIsNeverFound(kind: Kind, fold: Fold, s: State, id: string, t: int, who: Identity, domain: string)
    requires Inactive(s, id)
    ensures var r := Lookup(kind, fold, ActiveAt(s.snapshot.grants, t), who, domain); r.Some? ==> r.value.id != id
  {
    var r := Lookup(kind, fold, ActiveAt(s.snapshot.grants, t), who, domain);
    LookupIsMostSpecific(kind, fold, ActiveAt(s.snapshot.grants, t), who, domain);
    if r.Some? {
      FilterMembers(s.snapshot.grants, g => InForce(g, t), r.value);
    }
  }

  /** A created grant acts for whom it was made until its time is up, and never after. */
  lemma CreatedGrantActs(kind: Kind, text: Text, s: State, op: Op, who: Identity, domain: string, t: int)
    requires Good(kind, s) && FreshId(s, op) && op.Create? && op.io == Works
    requires Load(s.stored).Some? && MayCreate(kind, text, op.input, op.admin, op.groups)
    requires op.input.scope == Device ==> op.input.deviceID == who.deviceID
    requires op.input.scope == Group ==> op.input.groupID == who.groupID
    requires kind == Exceptions ==> MatchDomain(text.fold, text.fold(op.input.domain), domain)
    ensures var d := text.parseDuration(op.input.duration).value;
      var r := Lookup(kind, text.fold, ActiveAt(Apply(kind, text, s, op).snapshot.grants, t), who, domain);
      && (t < op.now + d ==> r.Some?)
      && (t >= op.now + d ==> r.None? || r.value.id != op.id)
  {
    var g := NewGrant(kind, text, op.input, op.admin, op.id, op.now);
    assert Apply(kind, text, s, op).snapshot.grants == Load(s.stored).value.grants + [g];
    AddedGrantActs(kind, text.fold, Load(s.stored).value.grants, g, who, domain, t);
  }

  lemma AddedGrantActs(kind: Kind, fold: Fold, grants: seq<Grant>, g: Grant, who: Identity, domain: string, t: int)
    requires FirstIndex(Ids(grants, GrantId), g.id) < 0 && g.active && IsFor(kind, fold, g, who, domain)
    ensures var r := Lookup(kind, fold, ActiveAt(grants + [g], t), who, domain);
      && (t < g.expiresAt ==> r.Some?)
      && (t >= g.expiresAt ==> r.None? || r.value.id != g.id)
  {
    var live := ActiveAt(grants + [g], t);
    LookupSpelledOut(kind, fold, live, who, domain);
    ActiveSpelledOut(grants + [g], t, g);
    if g in live {
      var i :| 0 <= i < |live| && live[i] == g;
      assert IsFor(kind, fold, live[i], who, domain);
    } else {
      NoneWithId(grants, g, t);
    }
  }

  lemma NoneWithId(grants: seq<Grant>, g: Grant, t: int)
    requires FirstIndex(Ids(grants, GrantId), g.id) < 0 && g !in ActiveAt(grants + [g], t)
    ensures forall h | h in ActiveAt(grants + [g], t) :: h.id != g.id
  {
    forall h | h in ActiveAt(grants + [g], t)
      ensures h.id != g.id
    {
      ActiveSpelledOut(grants + [g], t, h);
      var i :| 0 <= i < |grants + [g]| && (grants + [g])[i] == h;
      assert i < |grants| && Ids(grants, GrantId)[i] == h.id;
    }
  }

  /** A document that cannot be parsed, or of another version, is never overwritten and never read. */
  lemma {:induction false} UnreadableIsKept(kind: Kind, text: Text, s: State, ops: seq<Op>)
    requires s.stored.Malformed? || (s.stored.Document? && s.stored.version != 1)
    ensures After(kind, text, s, ops) == s
    decreases |ops|
  {
    if ops != [] {
      UnreadableIsKept(kind, text, s, ops[1..]);
    }
  }

  /** Temporary access stays temporary: nothing acts longer than the maximum after its creation. */
  lemma AccessIsBounded(kind: Kind, fold: Fold, s: State, t: int, who: Identity, domain: string)
    requires Good(kind, s)
    ensures var r := Lookup(kind, fold, ActiveAt(s.snapshot.grants, t), who, domain);
      r.Some? ==> t < r.value.createdAt + kind.MaxDuration()
  {
    var r := Lookup(kind, fold, ActiveAt(s.snapshot.grants, t), who, domain);
    LookupIsMostSpecific(kind, fold, ActiveAt(s.snapshot.grants, t), who, domain);
    if r.Some? {
      FilterMembers(s.snapshot.grants, g => InForce(g, t), r.value);
      var i :| 0 <= i < |s.snapshot.grants| && s.snapshot.grants[i] == r.value;
      assert Lifetime(kind, s.snapshot.grants[i]);
    }
  }

  /** Ended and revoked grants stay on record for one more maximum duration, and then go. */
  lemma PruneSpelledOut(kind: Kind, text: Text, s: State, now: int, g: Grant)
    requires Load(s.stored).Some?
    ensures var cutoff := now - if kind == Exceptions then 604800 else 86400;
      g in Load(Apply(kind, text, s, Prune(now, Works)).stored).value.grants <==>
      && g in Load(s.stored).value.grants
      && (g.expiresAt > cutoff || (!g.active && g.revokedAt.Some? && g.revokedAt.value > cutoff))
  {
    PrunedSpelledOut(Load(s.stored).value.grants, now - kind.MaxDuration(), g);
  }

  /** An operation whose result cannot be read back has been stored all the same; only memory waits. */
  lemma UnreadResultIsStored(kind: Kind, text: Text, s: State, op: Op)
    requires !op.Reload? && op.io == ReadBackFails
    ensures Apply(kind, text, s, op).stored == Apply(kind, text, s, op.(io := Works)).stored
    ensures Apply(kind, text, s, op).snapshot == s.snapshot
  {
  }
}
