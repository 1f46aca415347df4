/**
 topN: the highest counts, ties broken by key, the same for every map iteration order.
 */
module Rankings {

  datatype DecisionCount = DecisionCount(key: string, count: nat)

  /** Go's string order. */
  predicate KeyLess(a: string, b: string) {
    b != "" && (a == "" || a[0] < b[0] || (a[0] == b[0] && KeyLess(a[1..], b[1..])))
  }

  /** The comparator of the sort. */
  predicate Outranks(a: DecisionCount, b: DecisionCount) {
    a.count > b.count || (a.count == b.count && KeyLess(a.key, b.key))
  }

  lemma {:induction false} KeyLessTotal(a: string, b: string)
    ensures !(KeyLess(a, b) && KeyLess(b, a))
    ensures a != b <==> KeyLess(a, b) || KeyLess(b, a)
    decreases |a|
  {
    if a != "" && b != "" && a[0] == b[0] {
      KeyLessTotal(a[1..], b[1..]);
      assert a == [a[0]] + a[1..] && b == [b[0]] + b[1..];
    }
  }

  lemma {:induction false} KeyLessTransitive(a: string, b: string, c: string)
    requires KeyLess(a, b) && KeyLess(b, c)
    ensures KeyLess(a, c)
    decreases |a|
  {
    if a != "" && a[0] == b[0] && b[0] == c[0] {
      KeyLessTransitive(a[1..], b[1..], c[1..]);
    }
  }

  lemma OutranksTransitive(a: DecisionCount, b: DecisionCount, c: DecisionCount)
    requires Outranks(a, b) && Outranks(b, c)
    ensures Outranks(a, c)
  {
    if KeyLess(a.key, b.key) && KeyLess(b.key, c.key) {
      KeyLessTransitive(a.key, b.key, c.key);
    }
  }

  lemma OutranksTotal(a: DecisionCount, b: DecisionCount)
    ensures !(Outranks(a, b) && Outranks(b, a))
    ensures a.key != b.key ==> Outranks(a, b) || Outranks(b, a)
  {
    KeyLessTotal(a.key, b.key);
  }

  ghost predicate Ranked(list: seq<DecisionCount>) {
    forall i, j | 0 <= i < j < |list| :: Outranks(list[i], list[j])
  }

  ghost predicate Lists(list: seq<DecisionCount>, k: string) {
    exists i :: 0 <= i < |list| && list[i].key == k
  }

  predicate IsEntry(x: DecisionCount, counts: map<string, nat>, keys: set<string>) {
    x.key in keys && x.key in counts && x.count == counts[x.key]
  }

  /** The list is `keys` with their counts, each key once, in rank order. */
  ghost predicate RankedKeys(list: seq<DecisionCount>, counts: map<string, nat>, keys: set<string>) {
    && Ranked(list)
    && (forall i | 0 <= i < |list| :: IsEntry(list[i], counts, keys))
    && (forall k | k in keys :: Lists(list, k))
    && |list| == |keys|
  }

  function Insert(list: seq<DecisionCount>, at: nat, x: DecisionCount): (r: seq<DecisionCount>)
    requires at <= |list|
    ensures |r| == |list| + 1 && r[at] == x
    ensures forall i | 0 <= i < at :: r[i] == list[i]
    ensures forall i | at <= i < |list| :: r[i + 1] == list[i]
  {
    list[..at] + [x] + list[at..]
  }

  /** The position the sort gives a new element. */
  method FindPlace(list: seq<DecisionCount>, x: DecisionCount) returns (at: nat)
    requires Ranked(list) && forall i | 0 <= i < |list| :: list[i].key != x.key
    ensures at <= |list|
    ensures forall i | 0 <= i < at :: Outranks(list[i], x)
    ensures forall i | at <= i < |list| :: Outranks(x, list[i])
  {
    at := 0;
    while at < |list| && Outranks(list[at], x)
      invariant at <= |list|
      invariant forall i | 0 <= i < at :: Outranks(list[i], x)
    {
      at := at + 1;
    }
    if at < |list| {
      OutranksTotal(list[at], x);
      forall i | at <= i < |list|
        ensures Outranks(x, list[i])
      {
        if at < i {
          OutranksTransitive(x, list[at], list[i]);
        }
      }
    }
  }

  lemma InsertKeepsRanked(list: seq<DecisionCount>, x: DecisionCount, at: nat)
    requires Ranked(list) && at <= |list|
    requires forall i | 0 <= i < at :: Outranks(list[i], x)
    requires forall i | at <= i < |list| :: Outranks(x, list[i])
    ensures Ranked(Insert(list, at, x))
  {
  }

  lemma InsertKeepsRankedKeys(list: seq<DecisionCount>, counts: map<string, nat>, keys: set<string>, x: DecisionCount, at: nat)
    requires RankedKeys(list, counts, keys) && at <= |list|
    requires x.key !in keys && x.key in counts && x.count == counts[x.key]
    requires Ranked(Insert(list, at, x))
    ensures RankedKeys(Insert(list, at, x), counts, keys + {x.key})
  {
  }

  /** The best `n` of `counts`: ranked, true counts, and no omitted key outranks a listed one. */
  ghost predicate IsTop(out: seq<DecisionCount>, counts: map<string, nat>, n: nat) {
    && |out| == (if |counts| < n then |counts| else n)
    && Ranked(out)
    && (forall i | 0 <= i < |out| :: IsEntry(out[i], counts, counts.Keys))
    && (forall k | k in counts && !Lists(out, k) :: forall i | 0 <= i < |out| :: Outranks(out[i], DecisionCount(k, counts[k])))
  }

  /** One more element goes to its place in the order. */
  method InsertRanked(list: seq<DecisionCount>, counts: map<string, nat>, ghost keys: set<string>, k: string) returns (r: seq<DecisionCount>)
    requires RankedKeys(list, counts, keys) && k in counts && k !in keys
    ensures RankedKeys(r, counts, keys + {k})
  {
    var x := DecisionCount(k, counts[k]);
    assert forall i | 0 <= i < |list| :: IsEntry(list[i], counts, keys);
    var at := FindPlace(list, x);
    InsertKeepsRanked(list, x, at);
    InsertKeepsRankedKeys(list, counts, keys, x, at);
    r := Insert(list, at, x);
  }

  method TopN(counts: map<string, nat>, n: nat) returns (out: seq<DecisionCount>)
    ensures IsTop(out, counts, n)
  {
    out := [];
    ghost var keys: set<string> := {};
    var left := counts.Keys;
    while left != {}
      invariant keys + left == counts.Keys && keys !! left
      invariant RankedKeys(out, counts, keys)
      decreases |left|
    {
      var k :| k in left;
      out := InsertRanked(out, counts, keys, k);
      keys, left := keys + {k}, left - {k};
    }
    assert keys == counts.Keys;
    PrefixIsTop(out, counts, n);
    if |out| > n {
      out := out[..n];
    }
  }

  lemma PrefixIsTop(list: seq<DecisionCount>, counts: map<string, nat>, n: nat)
    requires RankedKeys(list, counts, counts.Keys)
    ensures IsTop(if |list| > n then list[..n] else list, counts, n)
  {
  }

  /** There is only one top list, so the map's iteration order cannot show. */
  lemma {:induction false} TopIsUnique(a: seq<DecisionCount>, b: seq<DecisionCount>, counts: map<string, nat>, n: nat, i: nat)
    requires IsTop(a, counts, n) && IsTop(b, counts, n) && i <= |a|
    ensures a[..i] == b[..i]
    decreases i
  {
    if i > 0 {
      TopIsUnique(a, b, counts, n, i - 1);
      NextIsForced(a, b, counts, n, i - 1);
      NextIsForced(b, a, counts, n, i - 1);
      OutranksTotal(a[i - 1], b[i - 1]);
      assert a[i - 1].key == b[i - 1].key;
    }
  }

  lemma SameFront(a: seq<DecisionCount>, b: seq<DecisionCount>, i: nat, j: nat)
    requires i <= |a| && i <= |b| && a[..i] == b[..i]
    ensures j < i ==> a[j] == b[j]
  {
  }

  lemma RankedKeysDiffer(list: seq<DecisionCount>, counts: map<string, nat>, j: nat, i: nat)
    requires Ranked(list) && i < |list| && forall h | 0 <= h < |list| :: IsEntry(list[h], counts, counts.Keys)
    ensures j < i ==> list[j].key != list[i].key
  {
    if j < i {
      assert Outranks(list[j], list[i]);
      KeyLessTotal(list[j].key, list[i].key);
    }
  }

  /** Lists that agree so far: the next of one is never outranked by the next of the other. */
  lemma NextIsForced(a: seq<DecisionCount>, b: seq<DecisionCount>, counts: map<string, nat>, n: nat, i: nat)
    requires IsTop(a, counts, n) && IsTop(b, counts, n) && i < |a| && a[..i] == b[..i]
    ensures a[i].key == b[i].key || Outranks(a[i], b[i])
  {
    var x := b[i];
    if Lists(a, x.key) {
      var j :| 0 <= j < |a| && a[j].key == x.key;
      SameFront(a, b, i, j);
      RankedKeysDiffer(b, counts, j, i);
    } else {
      assert x == DecisionCount(x.key, counts[x.key]);
    }
  }

  /** The tie-break is dictionary order: a proper front comes first, else the first difference decides. */
  lemma {:induction false} KeyLessSpelledOut(a: string, b: string)
    ensures KeyLess(a, b) <==>
            exists k :: Agree(a, b, k) && (k == |a| < |b| || (k < |a| && k < |b| && a[k] < b[k]))
    decreases |a|
  {
    if a == "" || b == "" || a[0] != b[0] {
      assert Agree(a, b, 0);
      forall k
        ensures Agree(a, b, k) ==> k == 0
      {
        AgreeNowhere(a, b, k);
      }
    } else {
      KeyLessSpelledOut(a[1..], b[1..]);
      if k :| Agree(a[1..], b[1..], k) && (k == |a| - 1 < |b| - 1 || (k < |a| - 1 && k < |b| - 1 && a[1..][k] < b[1..][k])) {
        AgreeShift(a, b, k);
      }
      if k :| Agree(a, b, k) && (k == |a| < |b| || (k < |a| && k < |b| && a[k] < b[k])) {
        AgreeShift(a, b, k - 1);
      }
    }
  }

  ghost predicate Agree(a: string, b: string, k: int) { 0 <= k <= |a| && k <= |b| && a[..k] == b[..k] }

  lemma AgreeNowhere(a: string, b: string, k: int)
    requires a == "" || b == "" || a[0] != b[0]
    ensures Agree(a, b, k) ==> k == 0
  {
    if 0 < k <= |a| && k <= |b| {
      assert a[..k][0] == a[0] && b[..k][0] == b[0];
    }
  }

  lemma AgreeShift(a: string, b: string, k: int)
    requires a != "" && b != "" && a[0] == b[0]
    ensures 0 <= k ==> (Agree(a[1..], b[1..], k) <==> Agree(a, b, k + 1))
  {
    if 0 <= k && k + 1 <= |a| && k + 1 <= |b| {
      assert a[..k + 1] == [a[0]] + a[1..][..k];
      assert b[..k + 1] == [b[0]] + b[1..][..k];
    }
  }

  /** A top list falls in count, ties rise by key, and whatever is left out counts no more than what is in. */
  lemma TopSpelledOut(out: seq<DecisionCount>, counts: map<string, nat>, n: nat)
    requires IsTop(out, counts, n)
    ensures forall i, j | 0 <= i < j < |out| ::
      out[i].count > out[j].count || (out[i].count == out[j].count && KeyLess(out[i].key, out[j].key))
    ensures forall k, i | k in counts && 0 <= i < |out| && !Lists(out, k) ::
      out[i].count > counts[k] || (out[i].count == counts[k] && KeyLess(out[i].key, k))
  {
    forall k, i | k in counts && 0 <= i < |out| && !Lists(out, k)
      ensures out[i].count > counts[k] || (out[i].count == counts[k] && KeyLess(out[i].key, k))
    {
      assert Outranks(out[i], DecisionCount(k, counts[k]));
    }
  }
}
