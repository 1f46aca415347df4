/**
 The sliding-window limiter for public access requests.

 `Limiter` keeps, per client, only the hits that were inside the window when the client last
 called. The specification decides on the whole call history. The clock never runs backwards.
 */
module RateLimiter {

  datatype Call = Call(ip: string, at: int, allowed: bool)

  /** Times of the allowed calls of one client, oldest first. */
  function AllowedTimes(log: seq<Call>, ip: string): seq<int> {
    if log == [] then []
    else
      var last := log[|log| - 1];
      var init := AllowedTimes(log[..|log| - 1], ip);
      if last.ip == ip && last.allowed then init + [last.at] else init
  }

  /** The times strictly after `cutoff`, in order. */
  function Later(times: seq<int>, cutoff: int): seq<int> {
    if times == [] then []
    else
      var last := times[|times| - 1];
      var init := Later(times[..|times| - 1], cutoff);
      if last > cutoff then init + [last] else init
  }

  /** How many allowed calls of `ip` lie strictly inside the window that ends at `now`. */
  function InWindow(log: seq<Call>, ip: string, now: int, window: int): nat {
    |Later(AllowedTimes(log, ip), now - window)|
  }

  /** Every call was decided by the full history before it. */
  ghost predicate Decided(log: seq<Call>, window: int, maxHits: int) {
    forall k | 0 <= k < |log| ::
      log[k].allowed <==> InWindow(log[..k], log[k].ip, log[k].at, window) < maxHits
  }

  ghost predicate Ordered(log: seq<Call>) {
    forall i, j | 0 <= i <= j < |log| :: log[i].at <= log[j].at
  }

  /** No call at or after `cutoff` can tell the two lists apart. */
  ghost predicate SameAfter(a: seq<int>, b: seq<int>, cutoff: int) {
    forall c | c >= cutoff :: Later(a, c) == Later(b, c)
  }

  function HitsOf(hits: map<string, seq<int>>, ip: string): seq<int> {
    if ip in hits then hits[ip] else []
  }

  /** The stored hits stand for the whole history of every client. */
  ghost predicate Represents(hits: map<string, seq<int>>, log: seq<Call>, window: int) {
    forall ip :: SameAfter(HitsOf(hits, ip), AllowedTimes(log, ip), LatestCutoff(log, window))
  }

  function LatestCutoff(log: seq<Call>, window: int): int {
    if log == [] then 0 else log[|log| - 1].at - window
  }

  ghost predicate Consistent(hits: map<string, seq<int>>, log: seq<Call>, window: int, maxHits: int) {
    && Ordered(log)
    && Decided(log, window, maxHits)
    && Represents(hits, log, window)
    && (log == [] ==> hits == map[])
  }

  class Limiter {
    var hits: map<string, seq<int>>
    const window: int
    const maxHits: int
    ghost var log: seq<Call>

    ghost predicate Valid()
      reads this
    {
      Consistent(hits, log, window, maxHits)
    }

    constructor (window: int, maxHits: int)
      ensures Valid() && log == [] && this.window == window && this.maxHits == maxHits
    {
      this.window := window;
      this.maxHits := maxHits;
      hits := map[];
      log := [];
    }

    /** Answers exactly as the unpruned history would, and records the call. */
    method Allow(ip: string, now: int) returns (ok: bool)
      requires Valid()
      requires log != [] ==> log[|log| - 1].at <= now
      modifies this
      ensures Valid()
      ensures ok <==> InWindow(old(log), ip, now, window) < maxHits
      ensures log == old(log) + [Call(ip, now, ok)]
    {
      var previous := hits;
      var kept := Prune(HitsOf(previous, ip), now - window);
      ok := |kept| < maxHits;
      var next := previous[ip := if ok then kept + [now] else kept];
      RecordKeepsConsistent(previous, log, ip, now, window, maxHits, kept, ok, next);
      hits, log := next, log + [Call(ip, now, ok)];
    }
  }

  /** The pruning loop. */
  method Prune(times: seq<int>, cutoff: int) returns (kept: seq<int>)
    ensures kept == Later(times, cutoff)
  {
    kept := [];
    for i := 0 to |times|
      invariant kept == Later(times[..i], cutoff)
    {
      assert times[..i + 1][..i] == times[..i];
      if times[i] > cutoff {
        kept := kept + [times[i]];
      }
    }
    assert times[..|times|] == times;
  }

  lemma LaterAppend(times: seq<int>, t: int, cutoff: int)
    ensures Later(times + [t], cutoff) == if t > cutoff then Later(times, cutoff) + [t] else Later(times, cutoff)
  {
  }

  /** Pruning at an earlier point first changes nothing. */
  lemma {:induction false} LaterTwice(times: seq<int>, early: int, late: int)
    requires early <= late
    ensures Later(Later(times, early), late) == Later(times, late)
    decreases |times|
  {
    if times != [] {
      var init, last := times[..|times| - 1], times[|times| - 1];
      LaterTwice(init, early, late);
      if last > early {
        LaterAppend(Later(init, early), last, late);
      }
    }
  }

  lemma AllowedTimesAppend(log: seq<Call>, c: Call, ip: string)
    ensures AllowedTimes(log + [c], ip)
         == if c.ip == ip && c.allowed then AllowedTimes(log, ip) + [c.at] else AllowedTimes(log, ip)
  {
  }

  lemma KeptIsWindow(hits: map<string, seq<int>>, log: seq<Call>, ip: string, now: int, window: int)
    requires Represents(hits, log, window) && (log == [] ==> hits == map[])
    requires log != [] ==> log[|log| - 1].at <= now
    ensures Later(HitsOf(hits, ip), now - window) == Later(AllowedTimes(log, ip), now - window)
  {
  }

  lemma SameAfterRecord(stored: seq<int>, times: seq<int>, early: int, now: int, late: int, ok: bool)
    requires SameAfter(stored, times, early) && early <= late
    ensures var kept := Later(stored, late);
      SameAfter(if ok then kept + [now] else kept, if ok then times + [now] else times, late)
  {
    var kept := Later(stored, late);
    var hits, full := if ok then kept + [now] else kept, if ok then times + [now] else times;
    forall c: int | c >= late
      ensures Later(hits, c) == Later(full, c)
    {
      LaterTwice(stored, late, c);
      assert Later(stored, c) == Later(times, c);
      LaterAppend(kept, now, c);
      LaterAppend(times, now, c);
    }
  }

  lemma RecordKeepsRepresents(hits: map<string, seq<int>>, log: seq<Call>, ip: string, now: int, window: int, ok: bool)
    requires Represents(hits, log, window) && (log == [] ==> hits == map[])
    requires log != [] ==> log[|log| - 1].at <= now
    ensures var kept := Later(HitsOf(hits, ip), now - window);
      Represents(hits[ip := if ok then kept + [now] else kept], log + [Call(ip, now, ok)], window)
  {
    var kept := Later(HitsOf(hits, ip), now - window);
    var hits' := hits[ip := if ok then kept + [now] else kept];
    var log' := log + [Call(ip, now, ok)];
    var early := if log == [] then now - window else LatestCutoff(log, window);
    forall client
      ensures SameAfter(HitsOf(hits', client), AllowedTimes(log', client), LatestCutoff(log', window))
    {
      AllowedTimesAppend(log, Call(ip, now, ok), client);
      var stored := HitsOf(hits, client);
      assert SameAfter(stored, AllowedTimes(log, client), LatestCutoff(log, window));
      if client == ip {
        SameAfterRecord(stored, AllowedTimes(log, ip), early, now, now - window, ok);
      }
    }
  }

  lemma AppendKeepsDecided(log: seq<Call>, c: Call, window: int, maxHits: int)
    requires Decided(log, window, maxHits)
    requires c.allowed <==> InWindow(log, c.ip, c.at, window) < maxHits
    ensures Decided(log + [c], window, maxHits)
  {
    forall k | 0 <= k < |log|
      ensures (log + [c])[..k] == log[..k]
    {
    }
    assert (log + [c])[..|log|] == log;
  }

  lemma RecordKeepsConsistent(hits: map<string, seq<int>>, log: seq<Call>, ip: string, now: int, window: int, maxHits: int,
                              kept: seq<int>, ok: bool, hits': map<string, seq<int>>)
    requires Consistent(hits, log, window, maxHits)
    requires log != [] ==> log[|log| - 1].at <= now
    requires kept == Later(HitsOf(hits, ip), now - window) && ok == (|kept| < maxHits)
    requires hits' == hits[ip := if ok then kept + [now] else kept]
    ensures ok <==> InWindow(log, ip, now, window) < maxHits
    ensures Consistent(hits', log + [Call(ip, now, ok)], window, maxHits)
  {
    KeptIsWindow(hits, log, ip, now, window);
    RecordKeepsRepresents(hits, log, ip, now, window, ok);
    AppendKeepsDecided(log, Call(ip, now, ok), window, maxHits);
  }

  // -------------------------------------------------- what any history shows

  /** The calls that matter to one client: its own allowed ones. */
  function Relevant(log: seq<Call>, ip: string): seq<Call> {
    if log == [] then []
    else
      var last := log[|log| - 1];
      var init := Relevant(log[..|log| - 1], ip);
      if last.ip == ip && last.allowed then init + [last] else init
  }

  /** Refused calls and other clients never influence an answer. */
  lemma {:induction false} OnlyOwnAllowedCallsCount(log: seq<Call>, ip: string, now: int, window: int)
    ensures AllowedTimes(Relevant(log, ip), ip) == AllowedTimes(log, ip)
    ensures InWindow(Relevant(log, ip), ip, now, window) == InWindow(log, ip, now, window)
    decreases |log|
  {
    if log != [] {
      var init, last := log[..|log| - 1], log[|log| - 1];
      OnlyOwnAllowedCallsCount(init, ip, now, window);
      if last.ip == ip && last.allowed {
        AllowedTimesAppend(Relevant(init, ip), last, ip);
      }
    }
  }

  ghost predicate Sorted(times: seq<int>) {
    forall i, j | 0 <= i <= j < |times| :: times[i] <= times[j]
  }

  /** In sorted times, those after a point form a suffix. */
  lemma {:induction false} LaterIsSuffix(times: seq<int>, cutoff: int)
    requires Sorted(times)
    ensures |Later(times, cutoff)| <= |times|
    ensures Later(times, cutoff) == times[|times| - |Later(times, cutoff)|..]
    ensures forall i | 0 <= i < |times| :: times[i] > cutoff <==> i >= |times| - |Later(times, cutoff)|
    decreases |times|
  {
    if times != [] {
      var init, last := times[..|times| - 1], times[|times| - 1];
      LaterIsSuffix(init, cutoff);
      assert init == [] || init[|init| - 1] <= last;
    }
  }

  lemma {:induction false} AllowedTimesSorted(log: seq<Call>, ip: string)
    requires Ordered(log)
    ensures Sorted(AllowedTimes(log, ip))
    ensures log != [] ==> forall i | 0 <= i < |AllowedTimes(log, ip)| :: AllowedTimes(log, ip)[i] <= log[|log| - 1].at
    decreases |log|
  {
    if log != [] {
      var init := log[..|log| - 1];
      AllowedTimesSorted(init, ip);
      assert init != [] ==> init[|init| - 1].at <= log[|log| - 1].at;
    }
  }

  lemma PrefixDecided(log: seq<Call>, window: int, maxHits: int)
    requires log != [] && Decided(log, window, maxHits)
    ensures var init, last := log[..|log| - 1], log[|log| - 1];
      && Decided(init, window, maxHits)
      && (last.allowed <==> InWindow(init, last.ip, last.at, window) < maxHits)
  {
    var init := log[..|log| - 1];
    forall k | 0 <= k < |init|
      ensures init[..k] == log[..k]
    {
    }
  }

  /** The limit itself: any maxHits+1 allowed calls of a client span at least the window. */
  lemma {:induction false} AllowedCallsSpanWindow(log: seq<Call>, ip: string, window: int, maxHits: nat, i: nat)
    requires Ordered(log) && Decided(log, window, maxHits)
    requires i + maxHits < |AllowedTimes(log, ip)|
    ensures AllowedTimes(log, ip)[i + maxHits] - AllowedTimes(log, ip)[i] >= window
    decreases |log|
  {
    var init, last := log[..|log| - 1], log[|log| - 1];
    var times := AllowedTimes(init, ip);
    PrefixDecided(log, window, maxHits);
    if i + maxHits < |times| {
      AllowedCallsSpanWindow(init, ip, window, maxHits, i);
    } else {
      AllowedTimesSorted(init, ip);
      LaterIsSuffix(times, last.at - window);
    }
  }

  /** A refusal is always justified: maxHits allowed calls lie strictly inside the window. */
  lemma RefusalIsJustified(log: seq<Call>, k: nat, window: int, maxHits: nat)
    requires Ordered(log) && Decided(log, window, maxHits)
    requires k < |log| && !log[k].allowed
    ensures var times := AllowedTimes(log[..k], log[k].ip);
      && maxHits <= |times|
      && forall i | |times| - maxHits <= i < |times| :: log[k].at - window < times[i] <= log[k].at
  {
    var times := AllowedTimes(log[..k], log[k].ip);
    AllowedTimesSorted(log[..k], log[k].ip);
    LaterIsSuffix(times, log[k].at - window);
    assert k > 0 ==> log[..k][k - 1].at <= log[k].at;
  }
}
