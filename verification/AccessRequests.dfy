/**
 Public access requests and their review.

 A request never grants access. Approving one first creates an exception and then marks the
 request; when the second step fails the exception stays, as the source documents.
 */
module AccessRequests {
  import opened Wrappers
  import opened Domains
  import opened Grants
  import GrantStore
  import RateLimiter

  const MaxStored: nat := 200

  datatype Status = Pending | Approved | Rejected

  datatype AccessRequest = AccessRequest(
    id: string,
    domain: string,
    clientIP: string,
    reason: string,
    status: Status,
    createdAt: int,
    reviewedBy: string,
    reviewedAt: Option<int>,
    exceptionID: string)

  datatype Document = Missing | Malformed | Document(version: int, requests: seq<AccessRequest>, updatedAt: int)

  /** None is a parse error or an unsupported version. */
  function Load(doc: Document): Option<seq<AccessRequest>> {
    match doc
    case Missing => Some([])
    case Malformed => None
    case Document(version, requests, _) => if version == 1 then Some(requests) else None
  }

  /** `created` and `made` are history: request IDs in creation order, and who created which exception. */
  datatype State = State(
    doc: Document,
    exceptions: GrantStore.State,
    created: seq<string>,
    made: map<string, string>)

  datatype Op =
    | Submit(domain: string, reason: string, ip: string, id: string, permitted: bool, now: int, writes: bool)
    | Approve(request: string, input: Input, admin: string, exc: string, groups: set<string>, now: int, io: GrantStore.Io, writes: bool)
    | Reject(request: string, admin: string, now: int, writes: bool)
    | Administer(op: GrantStore.Op)

  // -------------------------------------------------------------- transforms

  function Latest<T>(xs: seq<T>, n: nat): seq<T> {
    if |xs| > n then xs[|xs| - n..] else xs
  }

  function NewRequest(text: Text, domain: string, reason: string, ip: string, id: string, now: int): AccessRequest {
    AccessRequest(id, text.fold(domain), ip, reason, Pending, now, "", None, "")
  }

  function RequestId(r: AccessRequest): string { r.id }

  /** Only an approval writes the exception's ID. */
  function Reviewed(r: AccessRequest, status: Status, admin: string, now: int, exc: string): AccessRequest {
    r.(status := status, reviewedBy := admin, reviewedAt := Some(now),
       exceptionID := if status == Approved then exc else r.exceptionID)
  }

  /** Marks the first request with the ID, if it is still pending. */
  function Review(requests: seq<AccessRequest>, id: string, status: Status, admin: string, now: int, exc: string): Option<seq<AccessRequest>> {
    var i := FirstIndex(Ids(requests, RequestId), id);
    if i < 0 || requests[i].status != Pending then None
    else Some(requests[i := Reviewed(requests[i], status, admin, now, exc)])
  }

  function Write(s: State, next: Option<seq<AccessRequest>>, now: int, writes: bool): State {
    if next.None? || !writes then s else s.(doc := Document(1, next.value, now))
  }

  /** An operation on the exceptions, with the history of who created what. */
  function Administered(text: Text, s: State, op: GrantStore.Op): State {
    var after := GrantStore.Apply(Exceptions, text, s.exceptions, op);
    var made := if op.Create? && after.stored != s.exceptions.stored then s.made[op.id := op.admin] else s.made;
    s.(exceptions := after, made := made)
  }

  predicate Creates(text: Text, s: State, op: GrantStore.Op)
    requires op.Create?
  {
    && GrantStore.Load(s.exceptions.stored).Some?
    && GrantStore.MayCreate(Exceptions, text, op.input, op.admin, op.groups)
    && op.io == GrantStore.Works
  }

  function Apply(text: Text, s: State, op: Op): State {
    match op
    case Submit(domain, reason, ip, id, permitted, now, writes) =>
      var stored := Load(s.doc);
      if text.Blank(domain) || !permitted || stored.None? || !writes then s
      else
        var next := Latest(stored.value + [NewRequest(text, domain, reason, ip, id, now)], MaxStored);
        s.(doc := Document(1, next, now), created := s.created + [id])
    case Approve(request, input, admin, exc, groups, now, io, writes) =>
      if text.Blank(request) || !GrantStore.ValidInput(Exceptions, text, input) || text.Blank(admin) then s
      else
        var create := GrantStore.Create(input, admin, exc, groups, now, io);
        var t := Administered(text, s, create);
        if !Creates(text, s, create) || Load(s.doc).None? then t
        else Write(t, Review(Load(s.doc).value, request, Approved, admin, now, exc), now, writes)
    case Reject(request, admin, now, writes) =>
      if text.Blank(request) || text.Blank(admin) || Load(s.doc).None? then s
      else Write(s, Review(Load(s.doc).value, request, Rejected, admin, now, ""), now, writes)
    case Administer(gop) => Administered(text, s, gop)
  }

  /** The first request with the ID exists and is still pending. */
  predicate CanReview(s: State, id: string) {
    var i := FirstIndex(Ids(Requests(s), RequestId), id);
    Load(s.doc).Some? && i >= 0 && Requests(s)[i].status == Pending
  }

  /** The one review that a successful approval or rejection performs. */
  ghost predicate HasReviewed(before: State, after: State, id: string, status: Status, admin: string, now: int, exc: string) {
    && before.doc.Document? && before.doc.version == 1
    && var requests := before.doc.requests;
       var i := FirstIndex(Ids(requests, RequestId), id);
       && i >= 0 && requests[i].status == Pending
       && after.doc == Document(1, requests[i := requests[i].(
            status := status, reviewedBy := admin, reviewedAt := Some(now),
            exceptionID := if status == Approved then exc else requests[i].exceptionID)], now)
  }

  // ---------------------------------------------------------------- the desk

  class Desk {
    const text: Text
    const limiter: RateLimiter.Limiter
    const exceptions: GrantStore.Store
    var doc: Document
    ghost var created: seq<string>
    ghost var made: map<string, string>

    ghost predicate Valid()
      reads this, limiter, exceptions
    {
      limiter.Valid() && exceptions.kind == Exceptions && exceptions.text == text
    }

    ghost function Abs(): State
      reads this, exceptions
    {
      State(doc, exceptions.Abs(), created, made)
    }

    constructor (text: Text, limiter: RateLimiter.Limiter, exceptions: GrantStore.Store)
      requires limiter.Valid() && exceptions.kind == Exceptions && exceptions.text == text
      ensures Valid() && doc == Missing && created == [] && made == map[]
      ensures this.limiter == limiter && this.exceptions == exceptions && this.text == text
    {
      this.text, this.limiter, this.exceptions := text, limiter, exceptions;
      doc, created, made := Missing, [], map[];
    }

    /** CreateAccessRequest: counted against the limiter, stored, and nothing else. */
    method CreateAccessRequest(domain: string, reason: string, ip: string, id: string, now: int, writes: bool) returns (r: Option<AccessRequest>)
      requires Valid()
      requires limiter.log != [] ==> limiter.log[|limiter.log| - 1].at <= now
      modifies this, limiter
      ensures Valid()
      ensures var permitted := RateLimiter.InWindow(old(limiter.log), ip, now, limiter.window) < limiter.maxHits;
        Abs() == Apply(text, old(Abs()), Submit(domain, reason, ip, id, permitted, now, writes))
      ensures r.Some? <==>
                && !text.Blank(domain)
                && RateLimiter.InWindow(old(limiter.log), ip, now, limiter.window) < limiter.maxHits
                && Load(old(doc)).Some? && writes
      ensures r.Some? ==> r.value == AccessRequest(id, text.fold(domain), ip, reason, Pending, now, "", None, "")
      ensures r.Some? ==>
                && Abs().created == old(Abs().created) + [id]
                && doc.Document? && doc.version == 1 && doc.requests != [] && doc.requests[|doc.requests| - 1] == r.value
    {
      if text.Blank(domain) {
        return None;
      }
      var permitted := limiter.Allow(ip, now);
      if !permitted {
        return None;
      }
      var request := NewRequest(text, domain, reason, ip, id, now);
      var stored := Load(doc);
      if stored.None? || !writes {
        return None;
      }
      var next := stored.value + [request];
      if |next| > MaxStored {
        next := next[|next| - MaxStored..];
      }
      doc, created := Document(1, next, now), created + [id];
      return Some(request);
    }

    /** The loop both reviews run inside the transaction. */
    method MarkReviewed(id: string, status: Status, admin: string, now: int, exc: string, writes: bool) returns (ok: bool)
      modifies this`doc
      ensures Abs() == if Load(old(doc)).None? then old(Abs())
                       else Write(old(Abs()), Review(Load(old(doc)).value, id, status, admin, now, exc), now, writes)
      ensures ok <==> Load(old(doc)).Some? && writes && Review(Load(old(doc)).value, id, status, admin, now, exc).Some?
    {
      var stored := Load(doc);
      if stored.None? {
        return false;
      }
      var requests := stored.value;
      var i := 0;
      while i < |requests| && requests[i].id != id
        invariant 0 <= i <= |requests|
        invariant forall j | 0 <= j < i :: requests[j].id != id
      {
        i := i + 1;
      }
      if i == |requests| || requests[i].status != Pending || !writes {
        return false;
      }
      doc := Document(1, requests[i := Reviewed(requests[i], status, admin, now, exc)], now);
      return true;
    }

    /** ApproveAccessRequest: the exception first, then the mark. */
    method ApproveAccessRequest(request: string, input: Input, admin: string, exc: string, groups: set<string>,
                                now: int, io: GrantStore.Io, writes: bool) returns (ok: bool)
      requires Valid()
      modifies this, exceptions
      ensures Valid()
      ensures Abs() == Apply(text, old(Abs()), Approve(request, input, admin, exc, groups, now, io, writes))
      ensures ok <==>
                && !text.Blank(request)
                && Creates(text, old(Abs()), GrantStore.Create(input, admin, exc, groups, now, io))
                && CanReview(old(Abs()), request) && writes
      ensures ok ==> HasReviewed(old(Abs()), Abs(), request, Approved, admin, now, exc)
    {
      if text.Blank(request) || !GrantStore.ValidInput(Exceptions, text, input) || text.Blank(admin) {
        return false;
      }
      ghost var before := exceptions.stored;
      var grant := exceptions.CreateGrant(input, admin, exc, groups, now, io);
      if exceptions.stored != before {
        made := made[exc := admin];
      }
      if grant.None? {
        return false;
      }
      ok := MarkReviewed(request, Approved, admin, now, exc, writes);
    }

    /** RejectAccessRequest. */
    method RejectAccessRequest(request: string, admin: string, now: int, writes: bool) returns (ok: bool)
      requires Valid()
      modifies this`doc
      ensures Valid()
      ensures Abs() == Apply(text, old(Abs()), Reject(request, admin, now, writes))
      ensures ok <==> !text.Blank(request) && !text.Blank(admin) && CanReview(old(Abs()), request) && writes
      ensures ok ==> HasReviewed(old(Abs()), Abs(), request, Rejected, admin, now, "")
      ensures !ok ==> Abs() == old(Abs())
    {
      if text.Blank(request) || text.Blank(admin) {
        return false;
      }
      ok := MarkReviewed(request, Rejected, admin, now, "", writes);
    }
  }

  // -------------------------------------------------------------------- runs

  function After(text: Text, s: State, ops: seq<Op>): State
    decreases |ops|
  {
    if ops == [] then s else After(text, Apply(text, s, ops[0]), ops[1..])
  }

  function Requests(s: State): seq<AccessRequest> {
    if Load(s.doc).Some? then Load(s.doc).value else []
  }

  /** The stored list is the most recent at most 200 requests, in creation order. */
  ghost predicate KeepsLatest(s: State) {
    Load(s.doc).Some? && Ids(Requests(s), RequestId) == Latest(s.created, MaxStored)
  }

  /** Approval and exception go together; nothing else carries an exception. */
  predicate Linked(r: AccessRequest, made: map<string, string>) {
    match r.status
    case Pending => r.exceptionID == "" && r.reviewedBy == "" && r.reviewedAt.None?
    case Rejected => r.exceptionID == "" && r.reviewedAt.Some?
    case Approved => r.exceptionID in made && made[r.exceptionID] == r.reviewedBy && r.reviewedAt.Some?
  }

  ghost predicate AllLinked(s: State) {
    forall i | 0 <= i < |Requests(s)| :: Linked(Requests(s)[i], s.made)
  }

  /** Exception IDs are generated and do not repeat. */
  predicate FreshException(s: State, op: Op) {
    && (op.Approve? ==> op.exc !in s.made)
    && (op.Administer? && op.op.Create? ==> op.op.id !in s.made)
  }

  predicate IsRun(text: Text, s: State, ops: seq<Op>)
    decreases |ops|
  {
    ops == [] || (FreshException(s, ops[0]) && IsRun(text, Apply(text, s, ops[0]), ops[1..]))
  }

  lemma IdsOf(requests: seq<AccessRequest>, more: AccessRequest, created: seq<string>)
    requires Ids(requests, RequestId) == Latest(created, MaxStored)
    ensures Ids(Latest(requests + [more], MaxStored), RequestId) == Latest(created + [more.id], MaxStored)
  {
  }

  lemma ReviewKeepsIds(requests: seq<AccessRequest>, id: string, status: Status, admin: string, now: int, exc: string)
    ensures var next := Review(requests, id, status, admin, now, exc); next.Some? ==> Ids(next.value, RequestId) == Ids(requests, RequestId)
  {
  }

  lemma StepKeepsLatest(text: Text, s: State, op: Op)
    requires KeepsLatest(s)
    ensures KeepsLatest(Apply(text, s, op))
  {
    match op
    case Submit(domain, reason, ip, id, _, now, _) =>
      IdsOf(Requests(s), NewRequest(text, domain, reason, ip, id, now), s.created);
    case Approve(request, _, admin, exc, _, now, _, _) => ReviewKeepsIds(Requests(s), request, Approved, admin, now, exc);
    case Reject(request, admin, now, _) => ReviewKeepsIds(Requests(s), request, Rejected, admin, now, "");
    case Administer(_) =>
  }

  /** In every run the list is the latest 200 in creation order. */
  lemma {:induction false} RunKeepsLatest(text: Text, s: State, ops: seq<Op>)
    requires KeepsLatest(s)
    ensures KeepsLatest(After(text, s, ops))
    ensures var t := After(text, s, ops);
      var ids := Ids(Requests(t), RequestId);
      && |ids| == (if |t.created| < 200 then |t.created| else 200)
      && ids == t.created[|t.created| - |ids|..]
    decreases |ops|
  {
    if ops != [] {
      StepKeepsLatest(text, s, ops[0]);
      RunKeepsLatest(text, Apply(text, s, ops[0]), ops[1..]);
    }
  }

  /** A created exception is in the history under its creator. */
  lemma CreatedIsMade(text: Text, s: State, create: GrantStore.Op)
    requires create.Create? && Creates(text, s, create)
    ensures var t := Administered(text, s, create); create.id in t.made && t.made[create.id] == create.admin
  {
    var loaded := GrantStore.Load(s.exceptions.stored).value;
    var after := GrantStore.Apply(Exceptions, text, s.exceptions, create);
    assert |after.stored.grants| == |loaded.grants| + 1;
  }

  ghost predicate EachLinked(requests: seq<AccessRequest>, made: map<string, string>) {
    forall i | 0 <= i < |requests| :: Linked(requests[i], made)
  }

  lemma SubmitKeepsLinked(requests: seq<AccessRequest>, r: AccessRequest, made: map<string, string>)
    requires EachLinked(requests, made) && Linked(r, made)
    ensures EachLinked(Latest(requests + [r], MaxStored), made)
  {
  }

  lemma ReviewKeepsLinked(requests: seq<AccessRequest>, made: map<string, string>, id: string, status: Status, admin: string, now: int, exc: string)
    requires EachLinked(requests, made)
    requires (status == Rejected && exc == "") || (status == Approved && exc in made && made[exc] == admin)
    ensures var next := Review(requests, id, status, admin, now, exc); next.Some? ==> EachLinked(next.value, made)
  {
  }

  lemma StepKeepsLinked(text: Text, s: State, op: Op)
    requires AllLinked(s) && FreshException(s, op)
    ensures AllLinked(Apply(text, s, op))
  {
    assert EachLinked(Requests(s), s.made);
    match op
    case Submit(domain, reason, ip, id, _, now, _) =>
      SubmitKeepsLinked(Requests(s), NewRequest(text, domain, reason, ip, id, now), s.made);
      assert EachLinked(Requests(Apply(text, s, op)), s.made);
    case Approve(request, input, admin, exc, groups, now, io, _) =>
      var create := GrantStore.Create(input, admin, exc, groups, now, io);
      var t := Administered(text, s, create);
      assert EachLinked(Requests(s), t.made);
      if Creates(text, s, create) {
        CreatedIsMade(text, s, create);
        ReviewKeepsLinked(Requests(s), t.made, request, Approved, admin, now, exc);
      }
    case Reject(request, admin, now, _) =>
      ReviewKeepsLinked(Requests(s), s.made, request, Rejected, admin, now, "");
    case Administer(_) =>
  }

  /** In every run, exactly the approved requests carry an exception, created by whoever approved them. */
  lemma {:induction false} RunKeepsLinked(text: Text, s: State, ops: seq<Op>)
    requires AllLinked(s) && IsRun(text, s, ops)
    ensures AllLinked(After(text, s, ops))
    decreases |ops|
  {
    if ops != [] {
      StepKeepsLinked(text, s, ops[0]);
      RunKeepsLinked(text, Apply(text, s, ops[0]), ops[1..]);
    }
  }

  /** Whatever is stored under the ID of `r` is `r`. */
  ghost predicate Only(requests: seq<AccessRequest>, r: AccessRequest) {
    forall i | 0 <= i < |requests| && requests[i].id == r.id :: requests[i] == r
  }

  lemma StepKeepsReviewed(text: Text, s: State, op: Op, r: AccessRequest)
    requires Only(Requests(s), r) && r.status != Pending && (op.Submit? ==> op.id != r.id)
    ensures Only(Requests(Apply(text, s, op)), r)
  {
  }

  /** A request is reviewed at most once: after its review the record never changes again. */
  lemma {:induction false} ReviewedOnce(text: Text, s: State, ops: seq<Op>, r: AccessRequest)
    requires Only(Requests(s), r) && r.status != Pending
    requires forall i | 0 <= i < |ops| && ops[i].Submit? :: ops[i].id != r.id
    ensures Only(Requests(After(text, s, ops)), r)
    decreases |ops|
  {
    if ops != [] {
      StepKeepsReviewed(text, s, ops[0], r);
      ReviewedOnce(text, Apply(text, s, ops[0]), ops[1..], r);
    }
  }

  /** Requests and rejections never touch the exceptions, so nobody can grant themselves access. */
  lemma {:induction false} RequestsGrantNothing(text: Text, s: State, ops: seq<Op>)
    requires forall i | 0 <= i < |ops| :: ops[i].Submit? || ops[i].Reject?
    ensures After(text, s, ops).exceptions == s.exceptions
    decreases |ops|
  {
    if ops != [] {
      RequestsGrantNothing(text, Apply(text, s, ops[0]), ops[1..]);
    }
  }

  /** A request document that cannot be parsed, or of another version, is never overwritten. */
  lemma {:induction false} UnreadableIsKept(text: Text, s: State, ops: seq<Op>)
    requires s.doc.Malformed? || (s.doc.Document? && s.doc.version != 1)
    ensures After(text, s, ops).doc == s.doc
    decreases |ops|
  {
    if ops != [] {
      UnreadableIsKept(text, Apply(text, s, ops[0]), ops[1..]);
    }
  }
}
