/**
 Backup archives and their restoration over two stores, under every pattern of storage failure.

 A store replaces its file by renaming a complete new one. The rename is the commit point, and an
 error after it is reported although the new content is in place; the store then refuses every
 later operation until the process restarts.
 */
module Backup {
  import opened Wrappers

  type Values = map<string, string>

  // --------------------------------------------------------------- the store

  /** What the file system does to one read or one replacement. */
  datatype Outcome = Works | FailsBefore | FailsAfter

  /** The visible content of a store and whether its durability became uncertain. */
  datatype Content = Content(values: Values, quarantined: bool)

  function Replaced(c: Content, next: Values, o: Outcome): Content {
    if c.quarantined || o == FailsBefore then c else Content(next, o == FailsAfter)
  }

  predicate Succeeds(c: Content, o: Outcome) { !c.quarantined && o == Works }

  class MapStore {
    var content: Content

    constructor (values: Values)
      ensures content == Content(values, false)
    {
      content := Content(values, false);
    }

    /** Reading; `readable` is whether the file can be read and decoded now. */
    method Snapshot(readable: bool) returns (r: Option<Values>)
      ensures r == if readable && !content.quarantined then Some(content.values) else None
    {
      if content.quarantined {
        return None;
      }
      return if readable then Some(content.values) else None;
    }

    method ReplaceAll(next: Values, o: Outcome) returns (ok: bool)
      modifies this
      ensures content == Replaced(old(content), next, o)
      ensures ok == Succeeds(old(content), o)
    {
      if content.quarantined || o == FailsBefore {
        return false;
      }
      content := Content(next, o == FailsAfter);
      return o == Works;
    }
  }

  // ------------------------------------------------------------- the archive

  datatype Archive = Archive(formatVersion: int, settings: Option<Values>, devices: Option<Values>, key: string, managed: bool)

  /** The assignments member of a device document, as far as validation looks at it. */
  datatype Payload = Absent | NotAnObject | Object

  datatype DeviceDocument = DeviceDocument(version: Option<int>, assignments: Payload)

  /** The JSON coders. `canonical` is the empty device document that backups fill in. */
  datatype Codec = Codec(encode: Archive -> string, decode: string -> Option<Archive>,
                         parseDevices: string -> Option<DeviceDocument>, canonical: string)

  const FORMAT_VERSION: int := 1
  const MAX_SETTINGS_SCHEMA: int := 1
  const MAX_DEVICE_ASSIGNMENTS: int := 2
  const SCHEMA_KEY: string := "settings_schema_version"
  const ASSIGNMENTS_KEY: string := "assignments"

  /** strconv.Atoi: an optional sign, decimal digits, and the range of a 64-bit integer. */
  function ParseInt(s: string): Option<int> {
    var digits := if s != "" && (s[0] == '+' || s[0] == '-') then s[1..] else s;
    if digits == "" || !AllDigits(digits) then None
    else
      var size: int := Decimal(digits);
      var n := if s[0] == '-' then 0 - size else size;
      if -0x8000_0000_0000_0000 <= n < 0x8000_0000_0000_0000 then Some(n) else None
  }

  predicate SchemaOk(settings: Values) {
    && SCHEMA_KEY in settings && settings[SCHEMA_KEY] != ""
    && ParseInt(settings[SCHEMA_KEY]).Some?
    && ParseInt(settings[SCHEMA_KEY]).value <= MAX_SETTINGS_SCHEMA
  }

  predicate DevicesOk(codec: Codec, raw: string) {
    var doc := codec.parseDevices(raw);
    && doc.Some? && doc.value.version.Some?
    && 1 <= doc.value.version.value <= MAX_DEVICE_ASSIGNMENTS
    && doc.value.assignments == Object
  }

  predicate AssignmentsOk(codec: Codec, devices: Values) {
    ASSIGNMENTS_KEY in devices && devices[ASSIGNMENTS_KEY] != "" && DevicesOk(codec, devices[ASSIGNMENTS_KEY])
  }

  /** Everything a restorable archive has to be; a negative format version passes. */
  predicate Compatible(codec: Codec, a: Archive) {
    && a.formatVersion != 0 && a.formatVersion <= FORMAT_VERSION
    && a.settings.Some? && SchemaOk(a.settings.value)
    && a.devices.Some? && AssignmentsOk(codec, a.devices.value)
  }

  /** Validation, check by check in the order the archive is read. */
  function ValidateArchive(codec: Codec, data: string): (r: Option<Archive>)
    ensures r.Some? <==> data != "" && codec.decode(data).Some? && Compatible(codec, codec.decode(data).value)
    ensures r.Some? ==> r == codec.decode(data)
  {
    if data == "" then None
    else
      var archive := codec.decode(data);
      if archive.None? then None
      else if archive.value.formatVersion == 0 || archive.value.formatVersion > FORMAT_VERSION then None
      else if archive.value.settings.None? || archive.value.devices.None? then None
      else if !SchemaOk(archive.value.settings.value) then None
      else if !AssignmentsOk(codec, archive.value.devices.value) then None
      else archive
  }

  // -------------------------------------------------------------- the backup

  datatype KeyFile = NoKey | Unreadable | Key(encoded: string)

  /** The device map a backup holds: the canonical empty document stands in for a missing one. */
  function Canonical(codec: Codec, devices: Values): Values {
    if ASSIGNMENTS_KEY in devices && devices[ASSIGNMENTS_KEY] != "" then devices
    else devices[ASSIGNMENTS_KEY := codec.canonical]
  }

  function ArchiveOf(codec: Codec, settings: Values, devices: Values, key: KeyFile, managed: bool): Archive {
    Archive(FORMAT_VERSION, Some(settings), Some(Canonical(codec, devices)), if key.Key? then key.encoded else "", managed)
  }

  method CreateBackup(codec: Codec, settings: MapStore?, devices: MapStore?, readable: (bool, bool), key: KeyFile, managed: bool)
    returns (r: Option<string>)
    ensures r.Some? <==>
              && settings != null && devices != null
              && readable.0 && !settings.content.quarantined
              && readable.1 && !devices.content.quarantined
              && key != Unreadable
    ensures r.Some? ==> r.value == codec.encode(ArchiveOf(codec, settings.content.values, devices.content.values, key, managed))
  {
    if settings == null || devices == null {
      return None;
    }
    var s := settings.Snapshot(readable.0);
    if s.None? {
      return None;
    }
    var d := devices.Snapshot(readable.1);
    if d.None? {
      return None;
    }
    var filled := d.value;
    if ASSIGNMENTS_KEY !in filled || filled[ASSIGNMENTS_KEY] == "" {
      filled := filled[ASSIGNMENTS_KEY := codec.canonical];
    }
    if key == Unreadable {
      return None;
    }
    var archive := Archive(FORMAT_VERSION, Some(s.value), Some(filled), "", managed);
    if key.Key? {
      archive := archive.(key := key.encoded);
    }
    return Some(codec.encode(archive));
  }

  // ------------------------------------------------------------- the restore

  /** What the file system does during one restoration. */
  datatype Weather = Weather(readSettings: bool, readDevices: bool, recoverySaved: bool,
                             settings: Outcome, devices: Outcome, rollback: Outcome)

  datatype Pair = Pair(settings: Content, devices: Content)

  predicate Usable(p: Pair) { !p.settings.quarantined && !p.devices.quarantined }

  /** Both stores are read and the recovery point is written, so that replacing starts. */
  predicate Begins(p: Pair, w: Weather) { Usable(p) && w.readSettings && w.readDevices && w.recoverySaved }

  /** The stores after the replacements. */
  function Restored(p: Pair, a: Archive, w: Weather): Pair
    requires a.settings.Some? && a.devices.Some?
  {
    if !Begins(p, w) then p
    else
      var s := Replaced(p.settings, a.settings.value, w.settings);
      if !Succeeds(p.settings, w.settings) then Pair(s, p.devices)
      else
        var d := Replaced(p.devices, a.devices.value, w.devices);
        if Succeeds(p.devices, w.devices) then Pair(s, d)
        else Pair(Replaced(s, p.settings.values, w.rollback), d)
  }

  /** The same when one store is passed as both: the devices end up over the settings, or all is undone. */
  function RestoredShared(c: Content, a: Archive, w: Weather): Content
    requires a.settings.Some? && a.devices.Some?
  {
    if !Begins(Pair(c, c), w) then c
    else
      var s := Replaced(c, a.settings.value, w.settings);
      if !Succeeds(c, w.settings) then s
      else
        var d := Replaced(s, a.devices.value, w.devices);
        if Succeeds(s, w.devices) then d else Replaced(d, c.values, w.rollback)
  }

  /** The directory of the recovery point: what was saved there. */
  class RecoveryPoint {
    var saved: Option<(Values, Values)>

    constructor ()
      ensures saved == None
    {
      saved := None;
    }
  }

  /** Returns the numbers of restored keys. */
  method RestoreBackup(codec: Codec, data: string, settings: MapStore?, devices: MapStore?, recovery: RecoveryPoint, w: Weather)
    returns (r: Option<(nat, nat)>)
    modifies settings, devices, recovery
    ensures ValidateArchive(codec, data).None? || settings == null || devices == null ==>
              && r == None && recovery.saved == old(recovery.saved)
              && (settings != null ==> settings.content == old(settings.content))
              && (devices != null ==> devices.content == old(devices.content))
    ensures ValidateArchive(codec, data).Some? && settings != null && devices != null ==>
              var p, a := old(Pair(settings.content, devices.content)), ValidateArchive(codec, data).value;
              && (settings != devices ==> Pair(settings.content, devices.content) == Restored(p, a, w))
              && (settings == devices ==> settings.content == RestoredShared(p.settings, a, w))
              && recovery.saved == (if Begins(p, w) then Some((p.settings.values, p.devices.values)) else old(recovery.saved))
              && r == (if Begins(p, w) && w.settings == Works && w.devices == Works
                       then Some((|a.settings.value|, |a.devices.value|)) else None)
  {
    var a := ValidateArchive(codec, data);
    if a.None? || settings == null || devices == null {
      return None;
    }
    var s := settings.Snapshot(w.readSettings);
    if s.None? {
      return None;
    }
    var d := devices.Snapshot(w.readDevices);
    if d.None? || !w.recoverySaved {
      return None;
    }
    recovery.saved := Some((s.value, d.value));
    var ok := settings.ReplaceAll(a.value.settings.value, w.settings);
    if !ok {
      return None;
    }
    ok := devices.ReplaceAll(a.value.devices.value, w.devices);
    if !ok {
      var undone := settings.ReplaceAll(s.value, w.rollback);
      return None;
    }
    return Some((|a.value.settings.value|, |a.value.devices.value|));
  }

  // ------------------------------------------------------- what restore keeps

  predicate BothOld(p: Pair, q: Pair) { q.settings.values == p.settings.values && q.devices.values == p.devices.values }

  predicate BothNew(a: Archive, q: Pair)
    requires a.settings.Some? && a.devices.Some?
  {
    q.settings.values == a.settings.value && q.devices.values == a.devices.value
  }

  /** The failures that leave one store new and the other old. */
  predicate Tears(w: Weather) {
    || w.settings == FailsAfter
    || (w.settings == Works && w.devices == FailsBefore && w.rollback == FailsBefore)
    || (w.settings == Works && w.devices == FailsAfter && w.rollback != FailsBefore)
  }

  /** Restoration is all or nothing exactly when the failures do not tear it or a map does not change. */
  lemma AllOrNothing(p: Pair, a: Archive, w: Weather)
    requires a.settings.Some? && a.devices.Some?
    ensures BothOld(p, Restored(p, a, w)) || BothNew(a, Restored(p, a, w)) <==>
            !Begins(p, w) || !Tears(w) || a.settings.value == p.settings.values || a.devices.value == p.devices.values
  {
  }

  /** When no error comes after a commit, only a failed rollback can tear. */
  lemma AtomicReplacement(p: Pair, a: Archive, w: Weather)
    requires a.settings.Some? && a.devices.Some?
    requires w.settings != FailsAfter && w.devices != FailsAfter
    requires w.settings == Works && w.devices == FailsBefore ==> w.rollback != FailsBefore
    ensures BothOld(p, Restored(p, a, w)) || BothNew(a, Restored(p, a, w))
  {
  }

  /** A device write that fails after its commit, followed by a rollback that works, tears. */
  lemma RollbackCanTear(before: Values, after: Values)
    requires before != after
    ensures var p := Pair(Content(before, false), Content(before, false));
            var a := Archive(1, Some(after), Some(after), "", false);
            var q := Restored(p, a, Weather(true, true, true, Works, FailsAfter, Works));
            q.settings.values == before && q.devices.values == after
  {
  }

  // --------------------------------------------------------------- round trip

  /** What the JSON coders are relied on for. */
  ghost predicate Faithful(codec: Codec, a: Archive) {
    && codec.encode(a) != "" && codec.decode(codec.encode(a)) == Some(a)
    && codec.canonical != "" && codec.parseDevices(codec.canonical) == Some(DeviceDocument(Some(2), Object))
  }

  lemma CanonicalIsValid(codec: Codec, devices: Values)
    requires codec.canonical != "" && DevicesOk(codec, codec.canonical)
    ensures AssignmentsOk(codec, Canonical(codec, devices)) <==>
            ASSIGNMENTS_KEY !in devices || devices[ASSIGNMENTS_KEY] == "" || DevicesOk(codec, devices[ASSIGNMENTS_KEY])
    ensures forall k | k in devices && k != ASSIGNMENTS_KEY :: Canonical(codec, devices)[k] == devices[k]
    ensures Canonical(codec, devices) == devices <==>
            ASSIGNMENTS_KEY in devices && devices[ASSIGNMENTS_KEY] != ""
  {
  }

  /** A backup can be restored exactly when the stores it was taken from are compatible. */
  lemma BackupIsRestorable(codec: Codec, settings: Values, devices: Values, key: KeyFile, managed: bool)
    requires Faithful(codec, ArchiveOf(codec, settings, devices, key, managed))
    ensures var a := ArchiveOf(codec, settings, devices, key, managed);
            ValidateArchive(codec, codec.encode(a)) ==
            if SchemaOk(settings) &&
               (ASSIGNMENTS_KEY !in devices || devices[ASSIGNMENTS_KEY] == "" || DevicesOk(codec, devices[ASSIGNMENTS_KEY]))
            then Some(a) else None
  {
  }

  /** Restoring a backup brings back the settings and the canonical form of the devices. */
  lemma RestoreUndoesLoss(codec: Codec, settings: Values, devices: Values, key: KeyFile, managed: bool, p: Pair)
    requires Faithful(codec, ArchiveOf(codec, settings, devices, key, managed)) && Usable(p)
    requires SchemaOk(settings)
    requires ASSIGNMENTS_KEY !in devices || devices[ASSIGNMENTS_KEY] == "" || DevicesOk(codec, devices[ASSIGNMENTS_KEY])
    ensures var data := codec.encode(ArchiveOf(codec, settings, devices, key, managed));
            var a := ValidateArchive(codec, data);
            && a.Some?
            && Restored(p, a.value, Weather(true, true, true, Works, Works, Works)) ==
               Pair(Content(settings, false), Content(Canonical(codec, devices), false))
  {
  }

  /** A backup of restored stores holds the maps of the archive they were restored from. */
  lemma BackupOfRestored(codec: Codec, data: string, p: Pair, key: KeyFile, managed: bool)
    requires Usable(p) && ValidateArchive(codec, data).Some?
    ensures var a := ValidateArchive(codec, data).value;
            var q := Restored(p, a, Weather(true, true, true, Works, Works, Works));
            var b := ArchiveOf(codec, q.settings.values, q.devices.values, key, managed);
            b.settings == a.settings && b.devices == a.devices
  {
  }

  // ------------------------------------------------------------- spelled out

  /** What a device document has to say. */
  ghost predicate Supported(codec: Codec, raw: string) {
    codec.parseDevices(raw) == Some(DeviceDocument(Some(1), Object)) || codec.parseDevices(raw) == Some(DeviceDocument(Some(2), Object))
  }

  /** Exactly these archives are accepted. */
  lemma AcceptedSpelledOut(codec: Codec, a: Archive, data: string)
    requires codec.decode(data) == Some(a)
    ensures ValidateArchive(codec, data) == Some(a) <==>
      && data != "" && (a.formatVersion == 1 || a.formatVersion < 0)
      && a.settings.Some? && "settings_schema_version" in a.settings.value
      && (var v := ParseInt(a.settings.value["settings_schema_version"]); v.Some? && v.value <= 1)
      && a.devices.Some? && "assignments" in a.devices.value
      && a.devices.value["assignments"] != "" && Supported(codec, a.devices.value["assignments"])
  {
    if a.settings.Some? && SCHEMA_KEY in a.settings.value && a.settings.value[SCHEMA_KEY] == "" {
      assert ParseInt("").None?;
    }
  }

  /** What a backup contains. */
  lemma BackupContents(codec: Codec, settings: Values, devices: Values, key: KeyFile, managed: bool)
    ensures var a := ArchiveOf(codec, settings, devices, key, managed);
      && a.formatVersion == 1 && a.settings == Some(settings) && a.managed == managed
      && (key.Key? ==> a.key == key.encoded) && (!key.Key? ==> a.key == "")
      && a.devices.Some? && a.devices.value.Keys == devices.Keys + {"assignments"}
      && (forall k | k in devices && (k != "assignments" || devices[k] != "") :: a.devices.value[k] == devices[k])
  {
  }

  /** A number as it is written. */
  function Text(n: nat): string
    decreases n
  {
    if n < 10 then ['0' + n as char] else Text(n / 10) + ['0' + (n % 10) as char]
  }

  lemma {:induction false} TextIsRead(n: nat)
    ensures Text(n) != "" && AllDigits(Text(n)) && Decimal(Text(n)) == n
    decreases n
  {
    var t := Text(n);
    if n < 10 {
      assert t[..0] == "";
    } else {
      TextIsRead(n / 10);
      assert t[..|t| - 1] == Text(n / 10);
    }
  }

  /** Every 64-bit number is read back, with either sign. */
  lemma NumbersAreRead(n: nat)
    requires n < 0x8000_0000_0000_0000
    ensures ParseInt(Text(n)) == Some(n) && ParseInt("+" + Text(n)) == Some(n) && ParseInt("-" + Text(n)) == Some(0 - n)
  {
    TextIsRead(n);
    var t := Text(n);
    assert IsDigit(t[0]);
    assert ("+" + t)[1..] == t && ("-" + t)[1..] == t;
  }

  /** Anything but digits behind an optional sign is no number. */
  lemma OthersAreNotRead(s: string, i: nat)
    requires i < |s| && !IsDigit(s[i]) && (i > 0 || (s[0] != '+' && s[0] != '-'))
    ensures ParseInt(s).None?
  {
    if s[0] == '+' || s[0] == '-' {
      assert s[1..][i - 1] == s[i];
    }
  }

  /** Nothing is replaced before both stores are read and the recovery point is saved. */
  lemma NothingBeforeRecovery(p: Pair, a: Archive, w: Weather)
    requires a.settings.Some? && a.devices.Some? && Restored(p, a, w) != p
    ensures w.readSettings && w.readDevices && w.recoverySaved && !p.settings.quarantined && !p.devices.quarantined
  {
  }

  /** One store through any sequence of replacements. */
  function AfterWrites(c: Content, writes: seq<(Values, Outcome)>): Content
    decreases |writes|
  {
    if writes == [] then c else AfterWrites(Replaced(c, writes[0].0, writes[0].1), writes[1..])
  }

  /** After an error behind a commit a store keeps what it shows, whatever is written to it later. */
  lemma {:induction false} QuarantineHolds(c: Content, next: Values, writes: seq<(Values, Outcome)>)
    requires !c.quarantined
    ensures AfterWrites(c, [(next, FailsAfter)] + writes) == Content(next, true)
    decreases |writes|
  {
    var all := [(next, FailsAfter)] + writes;
    assert all[1..] == writes && all[0] == (next, FailsAfter);
    QuarantinedStays(Content(next, true), writes);
  }

  lemma {:induction false} QuarantinedStays(c: Content, writes: seq<(Values, Outcome)>)
    requires c.quarantined
    ensures AfterWrites(c, writes) == c
    decreases |writes|
  {
    if writes != [] {
      QuarantinedStays(c, writes[1..]);
    }
  }

  /** A store never shows anything but its old map or a whole map that was written. */
  lemma {:induction false} WritesAreWhole(c: Content, writes: seq<(Values, Outcome)>)
    ensures var v := AfterWrites(c, writes).values; v == c.values || exists i :: 0 <= i < |writes| && writes[i].0 == v
    decreases |writes|
  {
    if writes != [] {
      var d, rest := Replaced(c, writes[0].0, writes[0].1), writes[1..];
      WritesAreWhole(d, rest);
      var v := AfterWrites(d, rest).values;
      if i :| 0 <= i < |rest| && rest[i].0 == v {
        assert writes[i + 1].0 == v;
      }
    }
  }
}
