/**
 * Key rotation: scripts/rotate-encryption-key.ts over the envelopes of
 * src/workflows/db/encryption.ts. Cryptography is symbolic: an envelope opens under the key and,
 * if row-bound, the row identity it was sealed with, and under nothing else. A run of the script
 * may stop at any point between two effects on the disk.
 */
module KeyRotation {
  import opened Options

  type Key = nat
  type Json = nat

  /** The identity a row-bound envelope authenticates: id, project, piece and external id. */
  datatype Binding = Binding(id: string, project: string, piece: string, external: string)

  /**
   * A stored value: legacy plaintext (None when it does not parse), a well-formed envelope (bound
   * is Some for enc1a; None payload when the opened bytes are not JSON), or a mangled envelope.
   */
  datatype Value =
    | Plain(json: Option<Json>)
    | Sealed(key: Key, bound: Option<Binding>, payload: Option<Json>)
    | Mangled(boundPrefix: bool)

  datatype Opened = Ok(json: Json) | PlaintextNotJson | Malformed | AuthFailed | PayloadNotJson

  datatype Row = Row(binding: Binding, value: Value, updated: nat)

  datatype KeyFile = Absent | Unusable | Holds(key: Key)

  /** The key file, its .new sidecar, and the app_connection table (None: no database file). */
  datatype Disk = Disk(keyFile: KeyFile, newFile: KeyFile, rows: Option<seq<Row>>)

  /** Where a run of the script ends: at a crash, at a failing UPDATE, or not before its last line. */
  datatype Stop =
    | BeforeWrite
    | DuringWrite
    | AfterWrite
    | InTransaction(updates: nat)
    | BeforeLog
    | BeforeRename
    | AtEnd

  datatype Outcome =
    | LeftoverFound
    | NoDatabase
    | NoKey
    | MalformedKey
    | RowFailed(id: string)
    | Stopped
    | Done

  predicate IsRowBound(v: Value) {
    (v.Sealed? && v.bound.Some?) || (v.Mangled? && v.boundPrefix)
  }

  predicate IsEncrypted(v: Value) {
    !v.Plain?
  }

  /** decryptBoundJson with the strict mode off, as the script leaves it. */
  function Open(key: Key, v: Value, b: Binding): Opened {
    match v
    case Plain(None) => PlaintextNotJson
    case Plain(Some(j)) => Ok(j)
    case Mangled(_) => Malformed
    case Sealed(k, bound, payload) =>
      if k != key || (bound.Some? && bound.value != b) then AuthFailed
      else if payload.None? then PayloadNotJson
      else Ok(payload.value)
  }

  function EncryptJson(key: Key, j: Json): Value {
    Sealed(key, None, Some(j))
  }

  function EncryptBoundJson(key: Key, j: Json, b: Binding): Value {
    Sealed(key, Some(b), Some(j))
  }

  /** id is the table's primary key. */
  predicate UniqueIds(rows: seq<Row>) {
    forall i, j :: 0 <= i < j < |rows| ==> rows[i].binding.id != rows[j].binding.id
  }

  // ---- What one run does, as a function of the disk ----

  predicate Opens(key: Key, row: Row) {
    Open(key, row.value, row.binding).Ok?
  }

  /** The first row that does not open. */
  function FirstUnreadable(key: Key, rows: seq<Row>): (r: Option<string>)
    ensures r.None? <==> forall i :: 0 <= i < |rows| ==> Opens(key, rows[i])
  {
    if rows == [] then None
    else if !Opens(key, rows[0]) then Some(rows[0].binding.id)
    else
      assert forall i :: 0 <= i < |rows[1..]| ==> rows[1..][i] == rows[i + 1];
      FirstUnreadable(key, rows[1..])
  }

  function Reseal(oldKey: Key, newKey: Key, now: nat, row: Row): Row
    requires Opens(oldKey, row)
  {
    var j := Open(oldKey, row.value, row.binding).json;
    Row(row.binding,
        if IsRowBound(row.value) then EncryptBoundJson(newKey, j, row.binding) else EncryptJson(newKey, j),
        now)
  }

  function ResealAll(oldKey: Key, newKey: Key, now: nat, rows: seq<Row>): seq<Row>
    requires forall i :: 0 <= i < |rows| ==> Opens(oldKey, rows[i])
  {
    seq(|rows|, i requires 0 <= i < |rows| => Reseal(oldKey, newKey, now, rows[i]))
  }

  function RefusalOf(d: Disk): Option<Outcome> {
    if d.newFile != Absent then Some(LeftoverFound)
    else if d.rows.None? then Some(NoDatabase)
    else if d.keyFile.Absent? then Some(NoKey)
    else if d.keyFile.Unusable? then Some(MalformedKey)
    else
      var unreadable := FirstUnreadable(d.keyFile.key, d.rows.value);
      if unreadable.Some? then Some(RowFailed(unreadable.value)) else None
  }

  predicate Committed(stop: Stop) {
    stop.BeforeLog? || stop.BeforeRename? || stop.AtEnd?
  }

  function RotatedDisk(d: Disk, newKey: Key, now: nat, stop: Stop): Disk
    requires RefusalOf(d).None?
  {
    Disk(if stop.AtEnd? then Holds(newKey) else d.keyFile,
         if stop.BeforeWrite? || stop.AtEnd? then Absent else if stop.DuringWrite? then Unusable else Holds(newKey),
         if Committed(stop) then Some(ResealAll(d.keyFile.key, newKey, now, d.rows.value)) else d.rows)
  }

  /** The disk after a run of the script. */
  function Rotated(d: Disk, newKey: Key, now: nat, stop: Stop): Disk {
    if RefusalOf(d).Some? then d else RotatedDisk(d, newKey, now, stop)
  }

  function OutcomeOf(d: Disk, stop: Stop): Outcome {
    if RefusalOf(d).Some? then RefusalOf(d).value else if stop.AtEnd? then Done else Stopped
  }

  // ---- The script ----

  datatype Item = Item(plaintext: Json, binding: Binding, bound: bool)

  function ItemOf(key: Key, row: Row): Item
    requires Opens(key, row)
  {
    Item(Open(key, row.value, row.binding).json, row.binding, IsRowBound(row.value))
  }

  function SealItem(key: Key, item: Item): Value {
    if item.bound then EncryptBoundJson(key, item.plaintext, item.binding) else EncryptJson(key, item.plaintext)
  }

  /** UPDATE app_connection SET value, updated WHERE id. */
  function Updated(rows: seq<Row>, id: string, value: Value, now: nat): seq<Row> {
    seq(|rows|, i requires 0 <= i < |rows| =>
      if rows[i].binding.id == id then Row(rows[i].binding, value, now) else rows[i])
  }

  class Script {
    var disk: Disk
    /** The console shows the line printed after the transaction committed. */
    var saidCommitted: bool

    constructor (disk: Disk)
      ensures this.disk == disk && !saidCommitted
    {
      this.disk, saidCommitted := disk, false;
    }

    /** Decrypts every row with the current key, or names the first row that fails. */
    method DecryptAll(key: Key, rows: seq<Row>) returns (decrypted: seq<Item>, failed: Option<string>)
      ensures failed == FirstUnreadable(key, rows)
      ensures failed.None? ==> |decrypted| == |rows|
      ensures failed.None? ==> forall i :: 0 <= i < |rows| ==> decrypted[i] == ItemOf(key, rows[i])
    {
      decrypted, failed := [], None;
      for i := 0 to |rows|
        invariant failed.None? && |decrypted| == i
        invariant forall k :: 0 <= k < i ==> Opens(key, rows[k]) && decrypted[k] == ItemOf(key, rows[k])
        invariant FirstUnreadable(key, rows) == FirstUnreadable(key, rows[i..])
      {
        var clear := Open(key, rows[i].value, rows[i].binding);
        if !clear.Ok? {
          failed := Some(rows[i].binding.id);
          return;
        }
        decrypted := decrypted + [Item(clear.json, rows[i].binding, IsRowBound(rows[i].value))];
        assert rows[i..][1..] == rows[i + 1..];
      }
    }

    /** The transaction body; committed is false when it stops early, and then its updates are rolled back. */
    method Transact(rows: seq<Row>, items: seq<Item>, oldKey: Key, newKey: Key, now: nat, stop: Stop)
      returns (table: seq<Row>, committed: bool)
      requires UniqueIds(rows) && |items| == |rows|
      requires forall i :: 0 <= i < |rows| ==> Opens(oldKey, rows[i]) && items[i] == ItemOf(oldKey, rows[i])
      ensures committed <==> !stop.InTransaction?
      ensures table == if committed then ResealAll(oldKey, newKey, now, rows) else rows
    {
      table := rows;
      for i := 0 to |items|
        invariant |table| == |rows|
        invariant forall k :: 0 <= k < i ==> table[k] == Reseal(oldKey, newKey, now, rows[k])
        invariant forall k :: i <= k < |rows| ==> table[k] == rows[k]
      {
        if stop.InTransaction? && stop.updates <= i {
          return rows, false;
        }
        table := Updated(table, items[i].binding.id, SealItem(newKey, items[i]), now);
      }
      if stop.InTransaction? {
        return rows, false;
      }
      assert table == ResealAll(oldKey, newKey, now, rows);
      committed := true;
    }

    /** main(), up to the point where this run stops. */
    method RunRotation(newKey: Key, now: nat, stop: Stop) returns (outcome: Outcome)
      requires disk.rows.Some? ==> UniqueIds(disk.rows.value)
      modifies this
      ensures disk == Rotated(old(disk), newKey, now, stop)
      ensures outcome == OutcomeOf(old(disk), stop)
      ensures saidCommitted <==> RefusalOf(old(disk)).None? && (stop.BeforeRename? || stop.AtEnd?)
    {
      saidCommitted := false;
      if disk.newFile != Absent {
        return LeftoverFound;
      }
      if disk.rows.None? {
        return NoDatabase;
      }
      if disk.keyFile.Absent? {
        return NoKey;
      }
      if disk.keyFile.Unusable? {
        return MalformedKey;
      }
      var oldKey := disk.keyFile.key;
      var rows := disk.rows.value;
      var decrypted, failed := DecryptAll(oldKey, rows);
      if failed.Some? {
        return RowFailed(failed.value);
      }
      if stop.BeforeWrite? {
        return Stopped;
      }
      disk := disk.(newFile := Unusable);
      if stop.DuringWrite? {
        return Stopped;
      }
      disk := disk.(newFile := Holds(newKey));
      if stop.AfterWrite? {
        return Stopped;
      }
      var table, committed := Transact(rows, decrypted, oldKey, newKey, now, stop);
      disk := disk.(rows := Some(table));
      if !committed || stop.BeforeLog? {
        return Stopped;
      }
      saidCommitted := true;
      if stop.BeforeRename? {
        return Stopped;
      }
      disk := disk.(keyFile := disk.newFile, newFile := Absent);
      outcome := Done;
    }
  }

  // ---- Runs of rotations and recoveries ----

  /** committed: the last rotation that left a sidecar behind had reached its commit. */
  datatype World = World(disk: Disk, committed: bool)

  datatype Event =
    | Rotate(newKey: Key, now: nat, stop: Stop)
    | Recover

  /** The operator: mv the sidecar over the key file if the rotation reached commit, rm it otherwise. */
  function Recovered(d: Disk, committed: bool): Disk {
    if d.newFile == Absent then d
    else if committed then d.(keyFile := d.newFile, newFile := Absent)
    else d.(newFile := Absent)
  }

  function Next(w: World, e: Event): World {
    match e
    case Rotate(newKey, now, stop) =>
      World(Rotated(w.disk, newKey, now, stop),
            if RefusalOf(w.disk).Some? then w.committed else Committed(stop) && !stop.AtEnd?)
    case Recover => World(Recovered(w.disk, w.committed), false)
  }

  function Play(w: World, events: seq<Event>): World {
    if events == [] then w else Next(Play(w, events[..|events| - 1]), events[|events| - 1])
  }

  /** Ready to rotate: no sidecar, a usable key, and every row opens under it. */
  predicate Healthy(d: Disk) {
    && d.newFile == Absent && d.keyFile.Holds? && d.rows.Some? && UniqueIds(d.rows.value)
    && forall i :: 0 <= i < |d.rows.value| ==> Opens(d.keyFile.key, d.rows.value[i])
  }

  /** Where the rows' key is kept. */
  function LiveFile(w: World): KeyFile {
    if w.committed then w.disk.newFile else w.disk.keyFile
  }

  /** Row by row: same identity and plaintext, the same binding, and never less encrypted. */
  predicate SameRows(k0: Key, rows0: seq<Row>, k: Key, rows: seq<Row>) {
    && |rows| == |rows0|
    && forall i :: 0 <= i < |rows| ==>
         && rows[i].binding == rows0[i].binding
         && Open(k, rows[i].value, rows[i].binding) == Open(k0, rows0[i].value, rows0[i].binding)
         && IsRowBound(rows[i].value) == IsRowBound(rows0[i].value)
         && (IsEncrypted(rows0[i].value) ==> IsEncrypted(rows[i].value))
  }

  /** Every encrypted row is sealed under this one key. */
  predicate OneKey(k: Key, rows: seq<Row>) {
    forall i :: 0 <= i < |rows| && IsEncrypted(rows[i].value) ==> rows[i].value.Sealed? && rows[i].value.key == k
  }

  predicate Sound(w0: World, w: World)
    requires Healthy(w0.disk)
  {
    && w.disk.rows.Some? && LiveFile(w).Holds?
    && SameRows(w0.disk.keyFile.key, w0.disk.rows.value, LiveFile(w).key, w.disk.rows.value)
    && OneKey(LiveFile(w).key, w.disk.rows.value)
    && (w.committed ==> w.disk.keyFile.Holds?)
  }

  lemma RefusedOnlyForLeftover(w0: World, w: World)
    requires Healthy(w0.disk) && Sound(w0, w)
    ensures RefusalOf(w.disk).None? <==> w.disk.newFile == Absent
    ensures w.disk.newFile == Absent ==> !w.committed
  {
  }

  lemma ResealKeeps(k0: Key, rows0: seq<Row>, k: Key, rows: seq<Row>, newKey: Key, now: nat)
    requires SameRows(k0, rows0, k, rows) && forall i :: 0 <= i < |rows| ==> Opens(k, rows[i])
    ensures SameRows(k0, rows0, newKey, ResealAll(k, newKey, now, rows))
    ensures OneKey(newKey, ResealAll(k, newKey, now, rows))
  {
  }

  /**
   * Over any rotations, crashes and documented recoveries: rows, identities, plaintexts and
   * bindings survive, and every encrypted row is under one key, which is in the key file or, once
   * committed, in its sidecar.
   */
  lemma {:induction false} RotationsKeepEveryRow(w0: World, events: seq<Event>)
    requires Healthy(w0.disk) && !w0.committed
    ensures Sound(w0, Play(w0, events))
  {
    if events == [] {
    } else {
      var w := Play(w0, events[..|events| - 1]);
      RotationsKeepEveryRow(w0, events[..|events| - 1]);
      RefusedOnlyForLeftover(w0, w);
      match events[|events| - 1]
      case Recover =>
      case Rotate(newKey, now, stop) =>
        if w.disk.newFile == Absent {
          ResealKeeps(w0.disk.keyFile.key, w0.disk.rows.value, w.disk.keyFile.key, w.disk.rows.value, newKey, now);
        }
    }
  }

  /** However the runs went, the documented recovery makes the disk ready again, and a rotation then completes. */
  lemma {:induction false} RecoveryRestoresHealth(w0: World, events: seq<Event>, newKey: Key, now: nat)
    requires Healthy(w0.disk) && !w0.committed
    ensures Healthy(Next(Play(w0, events), Recover).disk)
    ensures OutcomeOf(Next(Play(w0, events), Recover).disk, AtEnd) == Done
  {
    RotationsKeepEveryRow(w0, events);
  }

  /** A rotation that finishes: the new key alone is on disk, it seals every row, and the old key opens none. */
  lemma CompletedRotation(d: Disk, newKey: Key, now: nat)
    requires Healthy(d)
    ensures OutcomeOf(d, AtEnd) == Done
    ensures var t := Rotated(d, newKey, now, AtEnd);
            && Healthy(t) && t.keyFile == Holds(newKey)
            && forall i :: 0 <= i < |t.rows.value| ==>
                 && IsEncrypted(t.rows.value[i].value)
                 && (newKey != d.keyFile.key ==> !Opens(d.keyFile.key, t.rows.value[i]))
  {
  }

  /** A row that does not open aborts the run before anything is written, and is named. */
  lemma {:induction false} UnreadableRowChangesNothing(d: Disk, newKey: Key, now: nat, stop: Stop, i: nat)
    requires d.newFile == Absent && d.rows.Some? && d.keyFile.Holds?
    requires i < |d.rows.value| && !Opens(d.keyFile.key, d.rows.value[i])
    requires forall j :: 0 <= j < i ==> Opens(d.keyFile.key, d.rows.value[j])
    ensures Rotated(d, newKey, now, stop) == d
    ensures OutcomeOf(d, stop) == RowFailed(d.rows.value[i].binding.id)
  {
    FirstUnreadableIs(d.keyFile.key, d.rows.value, i);
  }

  lemma {:induction false} FirstUnreadableIs(key: Key, rows: seq<Row>, i: nat)
    requires i < |rows| && !Opens(key, rows[i]) && forall j :: 0 <= j < i ==> Opens(key, rows[j])
    ensures FirstUnreadable(key, rows) == Some(rows[i].binding.id)
  {
    if i > 0 {
      FirstUnreadableIs(key, rows[1..], i - 1);
    }
  }

  /**
   * "Crash before commit: nothing on disk has changed. Rerun." The key file and the rows have not,
   * but the rerun is refused exactly when the run got as far as writing the sidecar.
   */
  lemma RerunAfterCrashBeforeCommit(d: Disk, newKey: Key, now: nat, stop: Stop)
    requires Healthy(d) && !Committed(stop)
    ensures var t := Rotated(d, newKey, now, stop);
            && t.keyFile == d.keyFile && t.rows == d.rows
            && (OutcomeOf(t, AtEnd) == Done <==> stop.BeforeWrite?)
            && (OutcomeOf(t, AtEnd) == LeftoverFound <==> !stop.BeforeWrite?)
  {
  }

  /** One healthy disk on which a crash right after the sidecar was written makes the rerun refuse. */
  lemma RerunCanBeRefused()
    ensures exists d: Disk, newKey: Key ::
              Healthy(d) && OutcomeOf(Rotated(d, newKey, 0, AfterWrite), AtEnd) == LeftoverFound
  {
    var b := Binding("c1", "p", "gmail", "e1");
    var d := Disk(Holds(1), Absent, Some([Row(b, Sealed(1, Some(b), Some(7)), 0)]));
    assert Healthy(d);
    RerunAfterCrashBeforeCommit(d, 2, 0, AfterWrite);
  }

  // ---- Choosing by the log ----

  /** The other rule the header gives: complete the rotation if the line after the commit was printed. */
  function RecoveredByLog(d: Disk, newKey: Key, now: nat, stop: Stop): Disk {
    Recovered(Rotated(d, newKey, now, stop), stop.BeforeRename? || stop.AtEnd?)
  }

  /** It loses rows: a crash after the commit and before the line leaves them under a key no file holds. */
  lemma LogRuleCanLoseRows()
    ensures exists d: Disk, newKey: Key ::
              Healthy(d) && !Healthy(RecoveredByLog(d, newKey, 0, BeforeLog))
  {
    var b := Binding("c1", "p", "gmail", "e1");
    var d := Disk(Holds(1), Absent, Some([Row(b, Sealed(1, Some(b), Some(7)), 0)]));
    var t := RecoveredByLog(d, 2, 0, BeforeLog);
    assert Healthy(d);
    assert t.keyFile == Holds(1) && t.rows.value[0].value == Sealed(2, Some(b), Some(7));
    assert !Opens(1, t.rows.value[0]);
  }

  /** Exactly when the rule by the log keeps every row readable. */
  lemma LogRuleExactly(d: Disk, newKey: Key, now: nat, stop: Stop)
    requires Healthy(d)
    ensures Healthy(RecoveredByLog(d, newKey, now, stop)) <==>
            !(stop.BeforeLog? && d.rows.value != [] && newKey != d.keyFile.key)
  {
    var t := RecoveredByLog(d, newKey, now, stop);
    if stop.BeforeLog? && d.rows.value != [] && newKey != d.keyFile.key {
      assert !Opens(d.keyFile.key, t.rows.value[0]);
    }
  }
}
