/**
 Reading the decision history: paging, the dashboard summary and its rankings.

 `rows` is what the index scan delivers, newest first. `matches` stands for the free-text filter.
 */
module Decisions {
  import opened Wrappers
  import opened Rankings

  /** `host` is decisionHost of the URL. */
  datatype LogEntry = LogEntry(
    time: int, ip: string, url: string, host: string, action: string, layer: string, reason: string, groupID: string)

  datatype Row = Unparsable | Parsed(entry: LogEntry)

  datatype Window = Window(from: int, to: int)

  // ------------------------------------------------------------------ filter

  /** DecisionFilter.limit: zero or negative means 100, and never more than 500. */
  function Limit(requested: int): (n: nat)
    ensures 1 <= n <= 500
    ensures 1 <= requested <= 500 ==> n == requested
    ensures requested <= 0 ==> n == 100
    ensures requested >= 500 ==> n == 500
  {
    if requested <= 0 then 100 else if requested > 500 then 500 else requested
  }

  /** DecisionFilter.window: open ends default to now and to seven days back. */
  function ResolveWindow(from: int, to: int, now: int): (w: Window)
    ensures w.from <= w.to
    ensures 0 < from <= to ==> w == Window(from, to)
    ensures to <= 0 ==> w.to == now
    ensures from <= 0 < to && now - 604800 <= to ==> w == Window(now - 604800, to)
  {
    var upper := if to <= 0 then now else to;
    var lower := if from <= 0 then now - 7 * 24 * 3600 else from;
    Window(if lower > upper then upper else lower, upper)
  }

  /** The matching entries, in scan order. */
  function Matching(rows: seq<Row>, matches: LogEntry -> bool): seq<LogEntry> {
    if rows == [] then []
    else
      var init, last := Matching(rows[..|rows| - 1], matches), rows[|rows| - 1];
      if last.Parsed? && matches(last.entry) then init + [last.entry] else init
  }

  predicate Hit(row: Row, matches: LogEntry -> bool) { row.Parsed? && matches(row.entry) }

  /** `at` lists, in scan order, exactly the parsable rows that match. */
  ghost predicate Picks(rows: seq<Row>, matches: LogEntry -> bool, at: seq<nat>) {
    && (forall k | 0 <= k < |at| :: at[k] < |rows| && Hit(rows[at[k]], matches))
    && (forall j, k | 0 <= j < k < |at| :: at[j] < at[k])
    && (forall i | 0 <= i < |rows| && Hit(rows[i], matches) :: i in at)
  }

  ghost predicate EntriesAt(entries: seq<LogEntry>, rows: seq<Row>, at: seq<nat>) {
    && |entries| == |at|
    && (forall k | 0 <= k < |at| :: at[k] < |rows| && rows[at[k]] == Parsed(entries[k]))
  }

  lemma PicksLonger(rows: seq<Row>, matches: LogEntry -> bool, at: seq<nat>, row: Row)
    requires Picks(rows, matches, at)
    ensures Picks(rows + [row], matches, if Hit(row, matches) then at + [|rows|] else at)
  {
    var more, next := rows + [row], if Hit(row, matches) then at + [|rows|] else at;
    forall i | 0 <= i < |more| && Hit(more[i], matches)
      ensures i in next
    {
      if i < |rows| {
        assert more[i] == rows[i];
        assert i in at;
        var k :| 0 <= k < |at| && at[k] == i;
        assert next[k] == i;
      } else {
        assert next[|at|] == i;
      }
    }
  }

  lemma EntriesAtLonger(entries: seq<LogEntry>, rows: seq<Row>, at: seq<nat>, row: Row)
    requires EntriesAt(entries, rows, at)
    ensures EntriesAt(entries, rows + [row], at)
    ensures row.Parsed? ==> EntriesAt(entries + [row.entry], rows + [row], at + [|rows|])
  {
  }

  lemma MatchingLonger(rows: seq<Row>, matches: LogEntry -> bool, row: Row)
    ensures Matching(rows + [row], matches)
         == if Hit(row, matches) then Matching(rows, matches) + [row.entry] else Matching(rows, matches)
  {
    assert (rows + [row])[..|rows|] == rows;
  }

  ghost predicate Spelled(rows: seq<Row>, matches: LogEntry -> bool, at: seq<nat>) {
    Picks(rows, matches, at) && EntriesAt(Matching(rows, matches), rows, at)
  }

  lemma SpelledLonger(rows: seq<Row>, matches: LogEntry -> bool, at: seq<nat>, row: Row)
    requires Spelled(rows, matches, at)
    ensures Spelled(rows + [row], matches, if Hit(row, matches) then at + [|rows|] else at)
  {
    PicksLonger(rows, matches, at, row);
    EntriesAtLonger(Matching(rows, matches), rows, at, row);
    MatchingLonger(rows, matches, row);
  }

  /** The matching entries are those of the matching rows, each once and in order, and no others. */
  lemma {:induction false} MatchingSpelledOut(rows: seq<Row>, matches: LogEntry -> bool) returns (at: seq<nat>)
    ensures Spelled(rows, matches, at)
    decreases |rows|
  {
    if rows == [] {
      at := [];
      SpelledNone(matches);
    } else {
      var init, row := rows[..|rows| - 1], rows[|rows| - 1];
      var before := MatchingSpelledOut(init, matches);
      at := AddRow(init, matches, before, row, rows);
    }
  }

  lemma SpelledNone(matches: LogEntry -> bool)
    ensures Spelled([], matches, [])
  {
  }

  lemma AddRow(init: seq<Row>, matches: LogEntry -> bool, before: seq<nat>, row: Row, rows: seq<Row>) returns (at: seq<nat>)
    requires Spelled(init, matches, before) && rows == init + [row]
    ensures Spelled(rows, matches, at)
  {
    SpelledLonger(init, matches, before, row);
    at := if Hit(row, matches) then before + [|init|] else before;
  }

  lemma {:induction false} MatchingPrefix(rows: seq<Row>, matches: LogEntry -> bool, i: nat)
    requires i <= |rows|
    ensures Matching(rows[..i], matches) <= Matching(rows, matches)
    decreases |rows|
  {
    if i < |rows| {
      var init := rows[..|rows| - 1];
      assert init[..i] == rows[..i];
      MatchingPrefix(init, matches, i);
    } else {
      assert rows[..i] == rows;
    }
  }

  // ------------------------------------------------------------------ paging

  function Min(a: int, b: int): int { if a <= b then a else b }

  function Skip(offset: int): nat { if offset < 0 then 0 else offset }

  /** The slice of a list a page shows. */
  function Page<T>(xs: seq<T>, skip: nat, limit: nat): seq<T> {
    xs[Min(skip, |xs|)..Min(skip + limit, |xs|)]
  }

  /** Once a page is full, later entries cannot change it. */
  lemma FullPage<T>(xs: seq<T>, ys: seq<T>, skip: nat, limit: nat)
    requires xs <= ys && skip + limit <= |xs|
    ensures Page(xs, skip, limit) == Page(ys, skip, limit)
  {
  }

  lemma PageLonger<T>(xs: seq<T>, x: T, skip: nat, limit: nat)
    ensures Page(xs + [x], skip, limit)
         == if |xs| >= skip && |Page(xs, skip, limit)| < limit then Page(xs, skip, limit) + [x] else Page(xs, skip, limit)
    ensures |Page(xs, skip, limit)| >= limit > 0 ==> skip + limit <= |xs|
  {
  }

  /** QueryDecisions: the scan may stop early and still returns exactly the page of the whole history. */
  method QueryDecisions(rows: seq<Row>, matches: LogEntry -> bool, offset: int, requested: int) returns (results: seq<LogEntry>)
    ensures results == Page(Matching(rows, matches), Skip(offset), Limit(requested))
  {
    var limit := Limit(requested);
    var seen := 0;
    results := [];
    for i := 0 to |rows|
      invariant seen == Min(|Matching(rows[..i], matches)|, Skip(offset))
      invariant results == Page(Matching(rows[..i], matches), Skip(offset), limit)
    {
      assert rows[..i + 1] == rows[..i] + [rows[i]];
      MatchingLonger(rows[..i], matches, rows[i]);
      if rows[i].Parsed? && matches(rows[i].entry) {
        PageLonger(Matching(rows[..i], matches), rows[i].entry, Skip(offset), limit);
        if seen < offset {
          seen := seen + 1;
        } else if |results| >= limit {
          MatchingPrefix(rows, matches, i);
          FullPage(Matching(rows[..i], matches), Matching(rows, matches), Skip(offset), limit);
          return;
        } else {
          results := results + [rows[i].entry];
        }
      }
    }
    assert rows[..|rows|] == rows;
  }

  /** The first `k` pages of size `limit`, one after the other. */
  function Pages<T>(xs: seq<T>, limit: nat, k: nat): seq<T> {
    if k == 0 then [] else Pages(xs, limit, k - 1) + Page(xs, (k - 1) * limit, limit)
  }

  /** A page is the stretch of at most `limit` entries from the offset on; before the start means the start. */
  lemma PageSpelledOut<T>(xs: seq<T>, offset: int, limit: nat)
    ensures var from := if offset < 0 then 0 else if offset > |xs| then |xs| else offset;
      var end := if from + limit > |xs| then |xs| else from + limit;
      Page(xs, Skip(offset), limit) == xs[from..end]
  {
  }

  /** Successive pages tile the history: no gap, no repeat, nothing out of order. */
  lemma {:induction false} PagesTile<T>(xs: seq<T>, limit: nat, k: nat)
    ensures Pages(xs, limit, k) == xs[..Min(k * limit, |xs|)]
  {
    if k > 0 {
      PagesTile(xs, limit, k - 1);
      var done := (k - 1) * limit;
      assert done + limit == k * limit;
      JoinPage(xs, done, limit);
    }
  }

  lemma JoinPage<T>(xs: seq<T>, done: nat, limit: nat)
    ensures xs[..Min(done, |xs|)] + Page(xs, done, limit) == xs[..Min(done + limit, |xs|)]
  {
  }

  // ----------------------------------------------------------------- timeline

  datatype Bucket = Bucket(start: int, total: nat, blocked: nat)

  /** Hourly up to two days, daily beyond. */
  function TimelineStep(w: Window): (step: int)
    ensures step > 0
    ensures w.to - w.from <= 172800 ==> step == 3600
    ensures w.to - w.from > 172800 ==> step == 86400
  {
    if w.to - w.from <= 2 * 86400 then 3600 else 86400
  }

  /** Go's %, which takes the sign of the dividend. */
  function Remainder(a: int, b: int): int
    requires b > 0
  {
    if a >= 0 then a % b else -((-a) % b)
  }

  function TimelineStart(w: Window): int {
    w.from - Remainder(w.from, TimelineStep(w))
  }

  /** The loop that lays out the empty buckets, up to the one that holds `end`. */
  method LayOut(start: int, end: int, step: int) returns (buckets: seq<Bucket>)
    requires step > 0
    ensures forall i | 0 <= i < |buckets| :: buckets[i] == Bucket(start + i * step, 0, 0)
    ensures forall i | 0 <= i < |buckets| :: buckets[i].start <= end
    ensures start + |buckets| * step > end
  {
    buckets := [];
    var t := start;
    assert 0 * step == 0;
    while t <= end
      invariant t == start + |buckets| * step
      invariant forall i | 0 <= i < |buckets| :: buckets[i] == Bucket(start + i * step, 0, 0)
      invariant forall i | 0 <= i < |buckets| :: buckets[i].start <= end
      decreases end - t
    {
      NextMultiple(|buckets|, step);
      buckets := buckets + [Bucket(t, 0, 0)];
      t := t + step;
    }
  }

  lemma NextMultiple(k: int, step: int)
    ensures (k + 1) * step == k * step + step
  {
  }

  /** The bucket a time falls into; -1 when the code counts it in none. */
  function BucketOf(t: int, start: int, step: int, n: nat): (i: int)
    requires step > 0
    ensures -1 <= i < n
    ensures i >= 0 ==> t >= start && i == (t - start) / step
  {
    if t >= start && (t - start) / step < n then (t - start) / step else -1
  }

  /** A time in a bucket lies between the bucket's start and the next one. */
  lemma BucketHolds(t: int, start: int, step: int, n: nat)
    requires step > 0
    ensures var i := BucketOf(t, start, step, n); i >= 0 ==> start + i * step <= t < start + i * step + step
    ensures start <= t < start + n * step ==> BucketOf(t, start, step, n) >= 0
  {
  }

  /**
   Every moment of the window has a bucket exactly when the window does not start before 1970 at an
   odd moment: Go's remainder of a negative time moves the first bucket past the window's start.
   */
  lemma WindowIsCovered(w: Window, n: nat)
    requires w.from <= w.to && TimelineStart(w) + n * TimelineStep(w) > w.to
    ensures (forall t | w.from <= t <= w.to :: BucketOf(t, TimelineStart(w), TimelineStep(w), n) >= 0)
       <==> w.from >= 0 || w.from % TimelineStep(w) == 0
  {
    var start, step := TimelineStart(w), TimelineStep(w);
    if start <= w.from {
      forall t | w.from <= t <= w.to
        ensures BucketOf(t, start, step, n) >= 0
      {
        BucketHolds(t, start, step, n);
      }
    } else {
      assert BucketOf(w.from, start, step, n) == -1;
    }
    StartBeforeWindow(w.from, step);
  }

  /** A request's window starts before 1970 only when the clock reads less than the retention time after it. */
  lemma ResolvedStart(from: int, to: int, now: int)
    ensures ResolveWindow(from, to, now).from < 0 <==> if from <= 0 then now < 604800 else to <= 0 && now < 0
  {
  }

  /** So with any clock past the first week of 1970, every moment of every requested window has a bucket. */
  lemma RequestedWindowIsCovered(from: int, to: int, now: int, n: nat, t: int)
    requires now >= 604800
    requires var w := ResolveWindow(from, to, now);
      TimelineStart(w) + n * TimelineStep(w) > w.to && w.from <= t <= w.to
    ensures var w := ResolveWindow(from, to, now); BucketOf(t, TimelineStart(w), TimelineStep(w), n) >= 0
  {
    ResolvedStart(from, to, now);
    WindowIsCovered(ResolveWindow(from, to, now), n);
  }

  /** With an earlier clock the default window has moments that no bucket counts. */
  lemma EarlyClockMissesBucket(n: nat)
    ensures var w := ResolveWindow(0, 0, 599800);
      w.from == -5000 && w.from <= -1 <= w.to && BucketOf(-1, TimelineStart(w), TimelineStep(w), n) == -1
  {
  }

  lemma StartBeforeWindow(from: int, step: int)
    requires step > 0
    ensures from - Remainder(from, step) <= from <==> from >= 0 || from % step == 0
  {
    if from < 0 {
      var a := -from;
      assert from == (-(a / step)) * step - a % step by { assert a == (a / step) * step + a % step; }
      ModOfNegative(a, step);
    }
  }

  lemma ModOfNegative(a: int, step: int)
    requires step > 0
    ensures (-a) % step == 0 <==> a % step == 0
  {
    assert a == (a / step) * step + a % step;
    assert -a == ((-a) / step) * step + (-a) % step;
    var k := a / step + (-a) / step;
    assert k * step + a % step + (-a) % step == 0 by {
      assert k * step == (a / step) * step + ((-a) / step) * step;
    }
    if a % step == 0 && (-a) % step != 0 {
      SmallMultiple(k, step, (-a) % step);
    }
    if (-a) % step == 0 && a % step != 0 {
      SmallMultiple(k, step, a % step);
    }
  }

  /** No multiple of `step` lies strictly between 0 and `step`. */
  lemma SmallMultiple(k: int, step: int, r: int)
    requires step > 0 && k * step + r == 0
    ensures !(0 < r < step)
  {
  }

  // ------------------------------------------------------------------ summary

  /** The counting maps of one summary. */
  datatype Tallies = Tallies(
    byAction: map<string, nat>,
    byLayer: map<string, nat>,
    reasons: map<string, nat>,
    addresses: map<string, nat>,
    domains: map<string, nat>,
    blockedDomains: map<string, nat>,
    groups: map<string, nat>)

  datatype Summary = Summary(window: Window, total: nat, tallies: Tallies, inspectionFailures: nat, timeline: seq<Bucket>)

  const NoTallies: Tallies := Tallies(map[], map[], map[], map[], map[], map[], map[])

  // The key under which each map counts an entry, if it does.

  function Present(s: string): Option<string> { if s == "" then None else Some(s) }

  function ActionOf(e: LogEntry): Option<string> { Present(e.action) }
  function LayerOf(e: LogEntry): Option<string> { Present(e.layer) }
  function ReasonOf(e: LogEntry): Option<string> { Present(e.reason) }
  function AddressOf(e: LogEntry): Option<string> { Present(e.ip) }
  function HostOf(e: LogEntry): Option<string> { Present(e.host) }
  function BlockedHostOf(e: LogEntry): Option<string> { if e.action == "block" && e.url != "" then Some(e.host) else None }
  function BlockedGroupOf(e: LogEntry): Option<string> { if e.action == "block" then Present(e.groupID) else None }

  function Bump(counts: map<string, nat>, key: Option<string>): map<string, nat> {
    if key.None? then counts else counts[key.value := (if key.value in counts then counts[key.value] else 0) + 1]
  }

  function BumpAll(t: Tallies, e: LogEntry): Tallies {
    Tallies(Bump(t.byAction, ActionOf(e)), Bump(t.byLayer, LayerOf(e)), Bump(t.reasons, ReasonOf(e)),
            Bump(t.addresses, AddressOf(e)), Bump(t.domains, HostOf(e)), Bump(t.blockedDomains, BlockedHostOf(e)),
            Bump(t.groups, BlockedGroupOf(e)))
  }

  function AddTo(buckets: seq<Bucket>, e: LogEntry, start: int, step: int): (r: seq<Bucket>)
    requires step > 0
    ensures |r| == |buckets|
  {
    var i := BucketOf(e.time, start, step, |buckets|);
    if i < 0 then buckets
    else
      var b := buckets[i];
      buckets[i := b.(total := b.total + 1, blocked := b.blocked + if e.action == "block" then 1 else 0)]
  }

  /** One entry counted. */
  function Counted(s: Summary, e: LogEntry): Summary {
    Summary(s.window, s.total + 1, BumpAll(s.tallies, e), s.inspectionFailures + (if e.action == "error" then 1 else 0),
            AddTo(s.timeline, e, TimelineStart(s.window), TimelineStep(s.window)))
  }

  /** The summary after the entries so far, starting from empty buckets. */
  function Summarized(entries: seq<LogEntry>, empty: Summary): (s: Summary)
    ensures |s.timeline| == |empty.timeline| && s.window == empty.window
  {
    if entries == [] then empty
    else
      Counted(Summarized(entries[..|entries| - 1], empty), entries[|entries| - 1])
  }

  /** The rankings and distinct counts shown beside the summary. */
  datatype Dashboard = Dashboard(
    topBlockedDomains: seq<DecisionCount>,
    topReasons: seq<DecisionCount>,
    affectedAddresses: seq<DecisionCount>,
    topDomains: seq<DecisionCount>,
    blocksByGroup: seq<DecisionCount>,
    uniqueClients: nat,
    uniqueDomains: nat)

  ghost predicate Ranks(d: Dashboard, t: Tallies) {
    && IsTop(d.topBlockedDomains, t.blockedDomains, 10)
    && IsTop(d.topReasons, t.reasons, 10)
    && IsTop(d.affectedAddresses, t.addresses, 10)
    && IsTop(d.topDomains, t.domains, 10)
    && IsTop(d.blocksByGroup, t.groups, 10)
    && d.uniqueClients == |t.addresses| && d.uniqueDomains == |t.domains|
  }

  method Rank(t: Tallies) returns (d: Dashboard)
    ensures Ranks(d, t)
  {
    var blocked := TopN(t.blockedDomains, 10);
    var reasons := TopN(t.reasons, 10);
    var addresses := TopN(t.addresses, 10);
    var domains := TopN(t.domains, 10);
    var groups := TopN(t.groups, 10);
    d := Dashboard(blocked, reasons, addresses, domains, groups, |t.addresses|, |t.domains|);
  }

  /** DecisionSummary: one scan of the rows, then the rankings. */
  method DecisionSummary(rows: seq<Row>, matches: LogEntry -> bool, w: Window) returns (s: Summary, d: Dashboard)
    requires w.from <= w.to
    ensures s.window == w && TrueCounts(s, Matching(rows, matches))
    ensures TimelineOf(s.timeline, Matching(rows, matches), w)
    ensures InsideWindow(Matching(rows, matches), w) && (w.from >= 0 || w.from % TimelineStep(w) == 0) ==> Conserves(s)
    ensures Ranks(d, s.tallies)
  {
    var buckets := LayOut(TimelineStart(w), w.to, TimelineStep(w));
    var empty := Summary(w, 0, NoTallies, 0, buckets);
    s := Scan(rows, matches, empty);
    SummaryIsTrue(Matching(rows, matches), empty, w, |buckets|);
    d := Rank(s.tallies);
  }

  lemma ScanStep(rows: seq<Row>, matches: LogEntry -> bool, empty: Summary, i: nat)
    requires i < |rows|
    ensures var before, after := Matching(rows[..i], matches), Matching(rows[..i + 1], matches);
      if rows[i].Parsed? && matches(rows[i].entry)
      then Summarized(after, empty) == Counted(Summarized(before, empty), rows[i].entry)
      else after == before
  {
    assert rows[..i + 1][..i] == rows[..i];
    var before := Matching(rows[..i], matches);
    if rows[i].Parsed? && matches(rows[i].entry) {
      assert (before + [rows[i].entry])[..|before|] == before;
    }
  }

  /** The scan callback, row after row. */
  method Scan(rows: seq<Row>, matches: LogEntry -> bool, empty: Summary) returns (s: Summary)
    ensures s == Summarized(Matching(rows, matches), empty)
  {
    s := empty;
    for i := 0 to |rows|
      invariant s == Summarized(Matching(rows[..i], matches), empty)
    {
      ScanStep(rows, matches, empty, i);
      if rows[i].Parsed? && matches(rows[i].entry) {
        s := Counted(s, rows[i].entry);
      }
    }
    assert rows[..|rows|] == rows;
  }

  /** Total, failures and every tally are the true counts over the entries. */
  ghost predicate TrueCounts(s: Summary, entries: seq<LogEntry>) {
    && s.total == |entries|
    && s.inspectionFailures == Count(entries, ActionOf, "error")
    && TrueTallies(s.tallies, entries)
  }

  ghost predicate TrueTallies(t: Tallies, entries: seq<LogEntry>) {
    && Tallied(t.byAction, entries, ActionOf)
    && Tallied(t.byLayer, entries, LayerOf)
    && Tallied(t.reasons, entries, ReasonOf)
    && Tallied(t.addresses, entries, AddressOf)
    && Tallied(t.domains, entries, HostOf)
    && Tallied(t.blockedDomains, entries, BlockedHostOf)
    && Tallied(t.groups, entries, BlockedGroupOf)
  }

  /** Evenly spaced buckets reaching past the window, each counting exactly the entries that fall into it. */
  ghost predicate TimelineOf(line: seq<Bucket>, entries: seq<LogEntry>, w: Window) {
    && TimelineStart(w) + |line| * TimelineStep(w) > w.to
    && forall i | 0 <= i < |line| ::
         && line[i].start == TimelineStart(w) + i * TimelineStep(w)
         && line[i].total == Falling(entries, w, |line|, i, false)
         && line[i].blocked == Falling(entries, w, |line|, i, true)
  }

  /** How many entries, or blocked entries, fall into bucket `i`. */
  function Falling(entries: seq<LogEntry>, w: Window, n: nat, i: int, blockedOnly: bool): nat {
    if entries == [] then 0
    else
      var e := entries[|entries| - 1];
      Falling(entries[..|entries| - 1], w, n, i, blockedOnly)
      + if BucketOf(e.time, TimelineStart(w), TimelineStep(w), n) == i && (blockedOnly ==> e.action == "block") then 1 else 0
  }

  ghost predicate InsideWindow(entries: seq<LogEntry>, w: Window) {
    forall i | 0 <= i < |entries| :: w.from <= entries[i].time <= w.to
  }

  /** The timeline adds up to the summary's own totals. */
  ghost predicate Conserves(s: Summary) {
    && SumTotals(s.timeline) == s.total
    && SumBlocked(s.timeline) == (if "block" in s.tallies.byAction then s.tallies.byAction["block"] else 0)
  }

  lemma SummaryIsTrue(entries: seq<LogEntry>, empty: Summary, w: Window, n: nat)
    requires w.from <= w.to && Blank(empty, w, n) && TimelineStart(w) + n * TimelineStep(w) > w.to
    ensures var s := Summarized(entries, empty);
      && TrueCounts(s, entries)
      && TimelineOf(s.timeline, entries, w)
      && (InsideWindow(entries, w) && (w.from >= 0 || w.from % TimelineStep(w) == 0) ==> Conserves(s))
  {
    SummaryCounts(entries, empty, w, n);
    TimelineCounts(entries, empty, w, n);
    if InsideWindow(entries, w) && (w.from >= 0 || w.from % TimelineStep(w) == 0) {
      SummaryConserves(entries, empty, w, n);
    }
  }

  lemma {:induction false} TimelineCounts(entries: seq<LogEntry>, empty: Summary, w: Window, n: nat)
    requires Blank(empty, w, n) && TimelineStart(w) + n * TimelineStep(w) > w.to
    ensures TimelineOf(Summarized(entries, empty).timeline, entries, w)
    decreases |entries|
  {
    if entries != [] {
      TimelineCounts(entries[..|entries| - 1], empty, w, n);
    }
  }

  /** An all-zero summary with `n` evenly spaced buckets. */
  ghost predicate Blank(s: Summary, w: Window, n: nat) {
    && s.window == w && s.total == 0 && s.inspectionFailures == 0
    && s.tallies == NoTallies
    && |s.timeline| == n
    && forall i | 0 <= i < n :: s.timeline[i] == Bucket(TimelineStart(w) + i * TimelineStep(w), 0, 0)
  }

  /** How many entries a map counts under `k`. */
  function Count(entries: seq<LogEntry>, key: LogEntry -> Option<string>, k: string): nat {
    if entries == [] then 0
    else Count(entries[..|entries| - 1], key, k) + if key(entries[|entries| - 1]) == Some(k) then 1 else 0
  }

  /** The map holds, for each key that occurs and for no other, how many entries carry it. */
  ghost predicate Tallied(counts: map<string, nat>, entries: seq<LogEntry>, key: LogEntry -> Option<string>) {
    && (forall k | k in counts :: counts[k] == Count(entries, key, k) && counts[k] > 0)
    && (forall i | 0 <= i < |entries| :: key(entries[i]).None? || key(entries[i]).value in counts)
  }

  lemma BumpTallied(counts: map<string, nat>, entries: seq<LogEntry>, key: LogEntry -> Option<string>, e: LogEntry)
    requires Tallied(counts, entries, key)
    ensures Tallied(Bump(counts, key(e)), entries + [e], key)
  {
    var longer, next := entries + [e], Bump(counts, key(e));
    assert longer[..|entries|] == entries;
    forall k | k in next
      ensures next[k] == Count(longer, key, k) && next[k] > 0
    {
      if k !in counts {
        AbsentMeansZero(entries, key, k, counts);
      }
    }
  }

  lemma {:induction false} AbsentMeansZero(entries: seq<LogEntry>, key: LogEntry -> Option<string>, k: string, counts: map<string, nat>)
    requires k !in counts && forall i | 0 <= i < |entries| :: key(entries[i]).None? || key(entries[i]).value in counts
    ensures Count(entries, key, k) == 0
    decreases |entries|
  {
    if entries != [] {
      AbsentMeansZero(entries[..|entries| - 1], key, k, counts);
    }
  }

  lemma BumpAllTrue(t: Tallies, entries: seq<LogEntry>, e: LogEntry)
    requires TrueTallies(t, entries)
    ensures TrueTallies(BumpAll(t, e), entries + [e])
  {
    BumpTallied(t.byAction, entries, ActionOf, e);
    BumpTallied(t.byLayer, entries, LayerOf, e);
    BumpTallied(t.reasons, entries, ReasonOf, e);
    BumpTallied(t.addresses, entries, AddressOf, e);
    BumpTallied(t.domains, entries, HostOf, e);
    BumpTallied(t.blockedDomains, entries, BlockedHostOf, e);
    BumpTallied(t.groups, entries, BlockedGroupOf, e);
  }

  /** After any entries, every count of the summary is the true count. */
  lemma {:induction false} SummaryCounts(entries: seq<LogEntry>, empty: Summary, w: Window, n: nat)
    requires Blank(empty, w, n)
    ensures TrueCounts(Summarized(entries, empty), entries)
    decreases |entries|
  {
    if entries != [] {
      var init, e := entries[..|entries| - 1], entries[|entries| - 1];
      SummaryCounts(init, empty, w, n);
      assert entries == init + [e];
      BumpAllTrue(Summarized(init, empty).tallies, init, e);
    }
  }

  /** How many entries there are of a kind. */
  function HowMany(entries: seq<LogEntry>, kind: LogEntry -> bool): nat {
    if entries == [] then 0
    else HowMany(entries[..|entries| - 1], kind) + if kind(entries[|entries| - 1]) then 1 else 0
  }

  lemma {:induction false} CountIsHowMany(entries: seq<LogEntry>, key: LogEntry -> Option<string>, k: string, kind: LogEntry -> bool)
    requires forall e :: kind(e) <==> key(e) == Some(k)
    ensures Count(entries, key, k) == HowMany(entries, kind)
    decreases |entries|
  {
    if entries != [] {
      CountIsHowMany(entries[..|entries| - 1], key, k, kind);
    }
  }

  /** The failures are the entries with the error action. */
  lemma FailuresSpelledOut(s: Summary, entries: seq<LogEntry>)
    requires TrueCounts(s, entries)
    ensures s.total == |entries| && s.inspectionFailures == HowMany(entries, (e: LogEntry) => e.action == "error")
  {
    CountIsHowMany(entries, ActionOf, "error", (e: LogEntry) => e.action == "error");
  }

  ghost function Times(counts: map<string, nat>, k: string): nat { if k in counts then counts[k] else 0 }

  lemma TalliedTimes(counts: map<string, nat>, entries: seq<LogEntry>, key: LogEntry -> Option<string>, k: string, kind: LogEntry -> bool)
    requires Tallied(counts, entries, key) && forall e :: kind(e) <==> key(e) == Some(k)
    ensures Times(counts, k) == HowMany(entries, kind)
  {
    CountIsHowMany(entries, key, k, kind);
    if k !in counts {
      AbsentMeansZero(entries, key, k, counts);
    }
  }

  /** Each map counts, for each of its keys, the entries with that field; the blocked ones where it says so. */
  lemma TalliesSpelledOut(t: Tallies, entries: seq<LogEntry>, k: string)
    requires TrueTallies(t, entries) && k != ""
    ensures Times(t.byAction, k) == HowMany(entries, (e: LogEntry) => e.action == k)
    ensures Times(t.byLayer, k) == HowMany(entries, (e: LogEntry) => e.layer == k)
    ensures Times(t.reasons, k) == HowMany(entries, (e: LogEntry) => e.reason == k)
    ensures Times(t.addresses, k) == HowMany(entries, (e: LogEntry) => e.ip == k)
    ensures Times(t.domains, k) == HowMany(entries, (e: LogEntry) => e.host == k)
    ensures Times(t.blockedDomains, k) == HowMany(entries, (e: LogEntry) => e.action == "block" && e.url != "" && e.host == k)
    ensures Times(t.groups, k) == HowMany(entries, (e: LogEntry) => e.action == "block" && e.groupID == k)
  {
    TalliedTimes(t.byAction, entries, ActionOf, k, (e: LogEntry) => e.action == k);
    TalliedTimes(t.byLayer, entries, LayerOf, k, (e: LogEntry) => e.layer == k);
    TalliedTimes(t.reasons, entries, ReasonOf, k, (e: LogEntry) => e.reason == k);
    TalliedTimes(t.addresses, entries, AddressOf, k, (e: LogEntry) => e.ip == k);
    TalliedTimes(t.domains, entries, HostOf, k, (e: LogEntry) => e.host == k);
    TalliedTimes(t.blockedDomains, entries, BlockedHostOf, k, (e: LogEntry) => e.action == "block" && e.url != "" && e.host == k);
    TalliedTimes(t.groups, entries, BlockedGroupOf, k, (e: LogEntry) => e.action == "block" && e.groupID == k);
  }

  // ------------------------------------------------------------- conservation

  function SumTotals(buckets: seq<Bucket>): nat {
    if buckets == [] then 0 else SumTotals(buckets[..|buckets| - 1]) + buckets[|buckets| - 1].total
  }

  function SumBlocked(buckets: seq<Bucket>): nat {
    if buckets == [] then 0 else SumBlocked(buckets[..|buckets| - 1]) + buckets[|buckets| - 1].blocked
  }

  lemma {:induction false} SumsAfterUpdate(buckets: seq<Bucket>, i: nat, b: Bucket)
    requires i < |buckets|
    ensures SumTotals(buckets[i := b]) == SumTotals(buckets) - buckets[i].total + b.total
    ensures SumBlocked(buckets[i := b]) == SumBlocked(buckets) - buckets[i].blocked + b.blocked
    decreases |buckets|
  {
    var last := |buckets| - 1;
    if i < last {
      assert buckets[i := b][..last] == buckets[..last][i := b];
      SumsAfterUpdate(buckets[..last], i, b);
    } else {
      assert buckets[i := b][..last] == buckets[..last];
    }
  }

  lemma {:induction false} BlankSums(buckets: seq<Bucket>)
    requires forall i | 0 <= i < |buckets| :: buckets[i].total == 0 && buckets[i].blocked == 0
    ensures SumTotals(buckets) == 0 && SumBlocked(buckets) == 0
    decreases |buckets|
  {
    if buckets != [] {
      BlankSums(buckets[..|buckets| - 1]);
    }
  }

  /** Nothing is lost between the summary and its timeline when every entry has a bucket. */
  lemma {:induction false} TimelineConserves(entries: seq<LogEntry>, empty: Summary, w: Window, n: nat)
    requires Blank(empty, w, n)
    requires forall i | 0 <= i < |entries| :: BucketOf(entries[i].time, TimelineStart(w), TimelineStep(w), n) >= 0
    ensures SumTotals(Summarized(entries, empty).timeline) == |entries|
    ensures SumBlocked(Summarized(entries, empty).timeline) == Count(entries, ActionOf, "block")
    decreases |entries|
  {
    if entries == [] {
      BlankSums(empty.timeline);
    } else {
      var init, e := entries[..|entries| - 1], entries[|entries| - 1];
      TimelineConserves(init, empty, w, n);
      var line := Summarized(init, empty).timeline;
      var i := BucketOf(e.time, TimelineStart(w), TimelineStep(w), n);
      SumsAfterUpdate(line, i, AddTo(line, e, TimelineStart(w), TimelineStep(w))[i]);
    }
  }

  /** For a window on the proper side of 1970, buckets add up to Total and to the block count. */
  lemma SummaryConserves(entries: seq<LogEntry>, empty: Summary, w: Window, n: nat)
    requires w.from <= w.to && Blank(empty, w, n) && TimelineStart(w) + n * TimelineStep(w) > w.to
    requires w.from >= 0 || w.from % TimelineStep(w) == 0
    requires InsideWindow(entries, w)
    ensures Conserves(Summarized(entries, empty))
  {
    WindowIsCovered(w, n);
    TimelineConserves(entries, empty, w, n);
    SummaryCounts(entries, empty, w, n);
    var counts := Summarized(entries, empty).tallies.byAction;
    if "block" !in counts {
      AbsentMeansZero(entries, ActionOf, "block", counts);
    }
  }
}
