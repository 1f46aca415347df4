/**
 The certificate cache: entries that expire, and a bounded clean-up now and then.

 The log of all `Put` calls is the reference: whatever clean-up has removed, and in whatever order
 it walked the map, a lookup answers from the log alone. The clock never runs backwards.
 */
module CertificateCache {
  import opened Wrappers

  datatype Key = Key(name: string, addr: string)

  /** `value` stands for the certificate and its transport. */
  datatype Entry = Entry(value: string, added: int)

  datatype PutCall = PutCall(key: Key, entry: Entry)

  /** The last entry put under `key`. */
  ghost function LastPut(log: seq<PutCall>, key: Key): Option<Entry> {
    if log == [] then None
    else if log[|log| - 1].key == key then Some(log[|log| - 1].entry)
    else LastPut(log[..|log| - 1], key)
  }

  predicate Expired(e: Entry, now: int, ttl: int) { now - e.added > ttl }

  const MAX_CLEAN: nat := 100

  /** The cache may differ from the log only by entries that have expired. */
  ghost predicate Represents(cache: map<Key, Entry>, log: seq<PutCall>, now: int, ttl: int) {
    forall k: Key ::
      var p := LastPut(log, k);
      if k in cache then p == Some(cache[k]) else p.None? || Expired(p.value, now, ttl)
  }

  /** Clean-up: any order, at most 100 removals, only expired entries, and all of them if fewer were removed. */
  method Clean(cache: map<Key, Entry>, now: int, ttl: int) returns (kept: map<Key, Entry>)
    ensures forall k | k in kept :: k in cache && kept[k] == cache[k]
    ensures forall k | k in cache && k !in kept :: Expired(cache[k], now, ttl)
    ensures |cache| - |kept| <= 100
    ensures |cache| - |kept| < 100 ==> forall k | k in kept :: !Expired(kept[k], now, ttl)
  {
    kept := cache;
    var count, left := 0, cache.Keys;
    while left != {} && count < MAX_CLEAN
      invariant left <= kept.Keys <= cache.Keys && count <= MAX_CLEAN
      invariant count + |kept| == |cache|
      invariant forall k | k in kept :: kept[k] == cache[k]
      invariant forall k | k in cache && k !in kept :: Expired(cache[k], now, ttl)
      invariant forall k | k in kept && k !in left :: !Expired(kept[k], now, ttl)
      decreases |left|
    {
      var k :| k in left;
      left := left - {k};
      if Expired(kept[k], now, ttl) {
        assert (kept - {k}).Keys == kept.Keys - {k};
        kept := kept - {k};
        count := count + 1;
      }
    }
  }

  lemma LaterStillRepresents(cache: map<Key, Entry>, kept: map<Key, Entry>, log: seq<PutCall>, before: int, now: int, ttl: int)
    requires Represents(cache, log, before, ttl) && before <= now
    requires forall k | k in kept :: k in cache && kept[k] == cache[k]
    requires forall k | k in cache && k !in kept :: Expired(cache[k], now, ttl)
    ensures Represents(kept, log, now, ttl)
  {
  }

  lemma PutKeepsRepresents(cache: map<Key, Entry>, log: seq<PutCall>, now: int, ttl: int, key: Key, e: Entry)
    requires Represents(cache, log, now, ttl)
    ensures Represents(cache[key := e], log + [PutCall(key, e)], now, ttl)
  {
  }

  class CertificateCache {
    /** None until the first `Put`. */
    var cache: Option<map<Key, Entry>>
    const ttl: int
    var lastCleaned: int
    ghost var log: seq<PutCall>
    ghost var clock: int

    constructor (ttl: int, now: int)
      ensures Valid() && this.ttl == ttl && log == [] && clock == now
    {
      this.cache, this.ttl, this.lastCleaned := None, ttl, 0;
      this.log, this.clock := [], now;
    }

    function Entries(): map<Key, Entry>
      reads this
    {
      if cache.None? then map[] else cache.value
    }

    ghost predicate Valid()
      reads this
    {
      Represents(Entries(), log, clock, ttl)
    }

    method Put(name: string, addr: string, value: string, now: int)
      requires Valid() && clock <= now
      modifies this
      ensures Valid() && clock == now
      ensures log == old(log) + [PutCall(Key(name, addr), Entry(value, now))]
      ensures |old(Entries())| - 100 <= |Entries()| <= |old(Entries())| + 1
      ensures old(cache).Some? && now - old(lastCleaned) > 2 * ttl ==>
                && lastCleaned == now
                && (|| |Entries()| <= |old(Entries())| - 99
                    || forall k | k in Entries() && k != Key(name, addr) :: now - Entries()[k].added <= ttl)
      ensures !(old(cache).Some? && now - old(lastCleaned) > 2 * ttl) && !(old(cache).None? && ttl < 0) ==>
                && lastCleaned == (if old(cache).Some? then old(lastCleaned) else now)
                && Entries() == old(Entries())[Key(name, addr) := Entry(value, now)]
    {
      if cache.None? {
        cache := Some(map[]);
        lastCleaned := now;
      }
      var kept := cache.value;
      if now - lastCleaned > ttl * 2 {
        kept := Clean(kept, now, ttl);
        lastCleaned := now;
      }
      LaterStillRepresents(old(Entries()), kept, log, clock, now, ttl);
      KeysNoMore(old(Entries()), kept);
      var key, entry := Key(name, addr), Entry(value, now);
      PutKeepsRepresents(kept, log, now, ttl, key, entry);
      PutSize(kept, key, entry);
      cache := Some(kept[key := entry]);
      log := log + [PutCall(key, entry)];
      clock := now;
    }

    /** The latest `Put` for the key, exactly while its age is at most the time to live. */
    method Get(name: string, addr: string, now: int) returns (r: Option<string>)
      requires Valid() && clock <= now
      ensures var p := LastPut(log, Key(name, addr));
              r == if p.Some? && now - p.value.added <= ttl then Some(p.value.value) else None
    {
      var key := Key(name, addr);
      if key !in Entries() || Expired(Entries()[key], now, ttl) {
        return None;
      }
      return Some(Entries()[key].value);
    }
  }

  lemma KeysNoMore(cache: map<Key, Entry>, kept: map<Key, Entry>)
    requires forall k | k in kept :: k in cache
    ensures |kept| <= |cache|
  {
    SubsetSize(kept.Keys, cache.Keys);
  }

  lemma SubsetSize(a: set<Key>, b: set<Key>)
    requires a <= b
    ensures |a| <= |b|
  {
    assert b == a + (b - a);
  }

  lemma PutSize(cache: map<Key, Entry>, key: Key, e: Entry)
    ensures |cache| <= |cache[key := e]| <= |cache| + 1
  {
  }
}
