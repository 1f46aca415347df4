/**
 The logger's database: the pairs it was opened with, the pairs written since, less the pairs whose
 time to live has run out.
 */
module LoggerDatabase {
  import opened LoggerProtocol

  /** Expiry takes pairs away; nothing else does. */
  ghost predicate DiskOk(disk: Disk) {
    && disk.db == SetAll(disk.base, disk.stored) - disk.expired
    && disk.expired <= SetAll(disk.base, disk.stored).Keys
  }

  ghost predicate KeysDiffer(entries: seq<QueuedEntry>) {
    forall i, j | 0 <= i < j < |entries| :: entries[i].key != entries[j].key
  }

  ghost predicate KeysNew(entries: seq<QueuedEntry>, base: map<string, string>) {
    forall i | 0 <= i < |entries| :: entries[i].key !in base
  }

  ghost predicate HasKey(entries: seq<QueuedEntry>, k: string) {
    exists i :: 0 <= i < |entries| && entries[i].key == k
  }

  lemma {:induction false} SetAllConcat(db: map<string, string>, a: seq<QueuedEntry>, b: seq<QueuedEntry>)
    ensures SetAll(db, a + b) == SetAll(SetAll(db, a), b)
    decreases |b|
  {
    if b == [] {
      assert a + b == a;
    } else {
      assert (a + b)[..|a + b| - 1] == a + b[..|b| - 1];
      SetAllConcat(db, a, b[..|b| - 1]);
    }
  }

  lemma {:induction false} SetAllHas(base: map<string, string>, entries: seq<QueuedEntry>, i: nat)
    requires KeysDiffer(entries) && i < |entries|
    ensures var db := SetAll(base, entries); entries[i].key in db && db[entries[i].key] == entries[i].value
    decreases |entries|
  {
    var init := entries[..|entries| - 1];
    if i < |init| {
      SetAllHas(base, init, i);
      assert entries[i] == init[i];
    }
  }

  lemma {:induction false} SetAllOnly(base: map<string, string>, entries: seq<QueuedEntry>, k: string)
    requires !HasKey(entries, k)
    ensures k in SetAll(base, entries) <==> k in base
    ensures k in base ==> SetAll(base, entries)[k] == base[k]
    decreases |entries|
  {
    if entries != [] {
      var init := entries[..|entries| - 1];
      assert entries[|entries| - 1].key != k;
      assert forall i | 0 <= i < |init| :: init[i] == entries[i];
      SetAllOnly(base, init, k);
    }
  }

  lemma {:induction false} SetAllSize(base: map<string, string>, entries: seq<QueuedEntry>)
    requires KeysDiffer(entries) && KeysNew(entries, base)
    ensures |SetAll(base, entries)| == |base| + |entries|
    decreases |entries|
  {
    if entries != [] {
      var init, last := entries[..|entries| - 1], entries[|entries| - 1];
      var db := SetAll(base, init);
      SetAllSize(base, init);
      SetAllOnly(base, init, last.key);
      assert db[last.key := last.value].Keys == db.Keys + {last.key};
    }
  }

  /** Writing other keys and taking some away can be done in either order. */
  lemma {:induction false} SetAllMinus(db: map<string, string>, gone: set<string>, entries: seq<QueuedEntry>)
    requires forall i | 0 <= i < |entries| :: entries[i].key !in gone
    ensures SetAll(db - gone, entries) == SetAll(db, entries) - gone
    decreases |entries|
  {
    if entries != [] {
      SetAllMinus(db, gone, entries[..|entries| - 1]);
    }
  }

  lemma {:induction false} SetAllGrows(db: map<string, string>, entries: seq<QueuedEntry>)
    ensures db.Keys <= SetAll(db, entries).Keys
    decreases |entries|
  {
    if entries != [] {
      SetAllGrows(db, entries[..|entries| - 1]);
    }
  }

  /** A transaction with new keys keeps the account of the database. */
  lemma WriteKeepsDisk(disk: Disk, batch: seq<QueuedEntry>)
    requires DiskOk(disk) && KeysNew(disk.stored + batch, disk.base) && KeysDiffer(disk.stored + batch)
    ensures DiskOk(disk.(db := SetAll(disk.db, batch), stored := disk.stored + batch))
  {
    var all := SetAll(disk.base, disk.stored);
    forall i | 0 <= i < |batch|
      ensures batch[i].key !in disk.expired
    {
      NewKeyIsAbsent(disk.base, disk.stored, batch, i);
    }
    SetAllMinus(all, disk.expired, batch);
    SetAllConcat(disk.base, disk.stored, batch);
    SetAllGrows(all, batch);
  }

  lemma NewKeyIsAbsent(base: map<string, string>, stored: seq<QueuedEntry>, batch: seq<QueuedEntry>, i: nat)
    requires i < |batch| && KeysNew(stored + batch, base) && KeysDiffer(stored + batch)
    ensures batch[i].key !in SetAll(base, stored)
  {
    var all, k := stored + batch, |stored| + i;
    assert all[k] == batch[i];
    forall j | 0 <= j < |stored|
      ensures stored[j].key != batch[i].key
    {
      assert all[j] == stored[j];
    }
    SetAllOnly(base, stored, batch[i].key);
  }

  lemma ExpiryKeepsDisk(disk: Disk, k: string)
    requires DiskOk(disk) && k in disk.db
    ensures DiskOk(disk.(db := disk.db - {k}, expired := disk.expired + {k}))
  {
  }

  /** The entry was written, and is there with its value unless it has expired. */
  predicate Kept(disk: Disk, e: QueuedEntry) {
    if e.key in disk.expired then e.key !in disk.db else e.key in disk.db && disk.db[e.key] == e.value
  }

  lemma StoredIsKept(disk: Disk, e: QueuedEntry)
    requires DiskOk(disk) && KeysDiffer(disk.stored) && e in disk.stored
    ensures Kept(disk, e)
  {
    var i :| 0 <= i < |disk.stored| && disk.stored[i] == e;
    SetAllHas(disk.base, disk.stored, i);
  }

  /** A key that is or was there was there from the start or has been stored since. */
  lemma KnownKey(disk: Disk, k: string)
    requires DiskOk(disk) && (k in disk.db || k in disk.expired)
    ensures k in disk.base || HasKey(disk.stored, k)
    ensures k in disk.db && !HasKey(disk.stored, k) ==> disk.db[k] == disk.base[k]
  {
    if !HasKey(disk.stored, k) {
      SetAllOnly(disk.base, disk.stored, k);
    }
  }

  lemma DiskSize(disk: Disk)
    requires DiskOk(disk) && KeysDiffer(disk.stored) && KeysNew(disk.stored, disk.base)
    ensures |disk.db| + |disk.expired| == |disk.base| + |disk.stored|
  {
    var all := SetAll(disk.base, disk.stored);
    SetAllSize(disk.base, disk.stored);
    assert disk.db.Keys == all.Keys - disk.expired;
    assert all.Keys == (all.Keys - disk.expired) + disk.expired;
  }
}
