/**
 What one mutating round decides and commits, as functions on the tables: which uploads
 conflict or are already held, the quota check, and the rows the committed batch leaves.
 */
module RelayRound {
  import opened Wrappers
  import opened RelayTables

  datatype Upload = Upload(id: Id, slot: Slot, ciphertext: string, expectedId: Option<Id>, continues: bool)
  datatype Deletion = Deletion(id: Id, slot: Slot)
  datatype Request = Request(cursor: int, uploads: seq<Upload>, deletions: seq<Deletion>,
                             downloadLimit: int, maxAccountBytes: nat)
  {
    predicate Mutates() { uploads != [] || deletions != [] }
  }

  const STORAGE_OVERHEAD_BYTES := 512

  function StorageBytes(count: int, bytes: int): int { bytes + count * STORAGE_OVERHEAD_BYTES }

  function UploadSlots(us: seq<Upload>): set<Slot> { set u | u in us :: u.slot }

  function KeysFor(us: seq<Upload>, keys: map<Id, Key>): set<Key>
    requires UploadIds(us) <= keys.Keys
  {
    set id | id in UploadIds(us) :: keys[id]
  }

  function UploadIds(us: seq<Upload>): set<Id> { set u | u in us :: u.id }

  function DeletionSlots(ds: seq<Deletion>): set<Slot> { set x | x in ds :: x.slot }

  /** The relay holds another version than the one this upload was made from. */
  predicate Conflicts(live: map<Slot, Row>, u: Upload) {
    u.slot in live && live[u.slot].id != u.id && Some(live[u.slot].id) != u.expectedId
  }

  function ConflictSlots(live: map<Slot, Row>, us: seq<Upload>): seq<Slot> {
    if us == [] then []
    else
      var before := ConflictSlots(live, us[..|us| - 1]);
      var u := us[|us| - 1];
      if Conflicts(live, u) then before + [u.slot] else before
  }

  /** Uploads left after dropping those whose id the account holds or an earlier one has. */
  function Accepted(us: seq<Upload>, held: set<Id>): seq<Upload> {
    if us == [] then []
    else
      var before := Accepted(us[..|us| - 1], held);
      var u := us[|us| - 1];
      if u.id in held || u.id in UploadIds(before) then before else before + [u]
  }

  ghost predicate DistinctIds(us: seq<Upload>) {
    forall i, j :: 0 <= i < j < |us| ==> us[i].id != us[j].id
  }

  lemma {:induction false} AcceptedAreNew(us: seq<Upload>, held: set<Id>)
    ensures DistinctIds(Accepted(us, held))
    ensures forall u :: u in Accepted(us, held) ==> u in us && u.id !in held
    ensures forall u :: u in us ==> u.id in held || u.id in UploadIds(Accepted(us, held))
  {
    if us != [] {
      var n := |us| - 1;
      AcceptedAreNew(us[..n], held);
      assert us == us[..n] + [us[n]];
    }
  }

  // ---- The draft a round builds statement by statement --------------------

  /** The tables as the statements so far would leave them, and the running totals. */
  datatype Draft = Draft(t: Tables, count: int, bytes: int, seqno: nat, continued: set<Id>, deleted: set<Slot>)

  function Start(t: Tables, a: Account): Draft {
    Draft(t, a.envelopeCount, a.ciphertextBytes, a.nextSeq, {}, {})
  }

  predicate Matches(t: Tables, x: Deletion) {
    x.slot in t.live && t.live[x.slot].id == x.id
  }

  /** A live record becomes a deleted copy, staged until its object is gone. */
  function Unlive(t: Tables, slot: Slot): Tables
    requires slot in t.live
  {
    t.(staged := t.staged[slot := t.live[slot]], live := t.live - {slot})
  }

  /** The records a round's deletions take away. */
  function Removed(t: Tables, ds: seq<Deletion>): set<Slot> {
    set x | x in ds && Matches(t, x) :: x.slot
  }

  function DeleteOne(d: Draft, x: Deletion): Draft {
    if Matches(d.t, x) then
      d.(t := Unlive(d.t, x.slot), count := d.count - 1, bytes := d.bytes - d.t.live[x.slot].bytes,
         deleted := d.deleted + {x.slot})
    else d
  }

  function DeleteAll(d: Draft, ds: seq<Deletion>): Draft {
    if ds == [] then d else DeleteOne(DeleteAll(d, ds[..|ds| - 1]), ds[|ds| - 1])
  }

  function PriorBytes(live: map<Slot, Row>, slot: Slot): nat {
    if slot in live then live[slot].bytes else 0
  }

  function ProjectedCount(d: Draft, u: Upload): int {
    d.count + (if u.slot in d.t.live then 0 else 1)
  }

  function ProjectedBytes(d: Draft, u: Upload): int {
    d.bytes + |u.ciphertext| - PriorBytes(d.t.live, u.slot)
  }

  /** Over quota, and not smaller than what the account already stores. */
  predicate OverQuota(d: Draft, u: Upload, maxBytes: int) {
    var projected := StorageBytes(ProjectedCount(d, u), ProjectedBytes(d, u));
    projected > maxBytes && projected >= StorageBytes(d.count, d.bytes)
  }

  /** The version an upload replaces, kept in the history unless it is there already. */
  function KeepPrior(t: Tables, slot: Slot): Tables {
    if slot in t.live && !HasVersionOf(t.history, t.live[slot].id) then Append(t, slot, t.live[slot]) else t
  }

  /** The upload's own row, live and as the newest version, and its reservation gone. */
  function PutRow(t: Tables, u: Upload, row: Row): Tables {
    Append(t.(live := t.live[u.slot := row]), u.slot, row).(pending := t.pending - {u.id})
  }

  function StoreTables(t: Tables, u: Upload, key: Key, seqno: nat): Tables {
    PutRow(KeepPrior(t, u.slot), u, Row(seqno, u.id, key, |u.ciphertext|))
  }

  function StoreOne(d: Draft, u: Upload, key: Key): Draft {
    Draft(StoreTables(d.t, u, key, d.seqno + 1), ProjectedCount(d, u), ProjectedBytes(d, u), d.seqno + 1,
          if u.slot in d.t.live && u.continues then d.continued + {d.t.live[u.slot].id} else d.continued,
          d.deleted)
  }

  function StoreAll(d: Draft, us: seq<Upload>, keys: map<Id, Key>, maxBytes: int): Option<Draft>
    requires UploadIds(us) <= keys.Keys
  {
    if us == [] then Some(d)
    else
      var before := StoreAll(d, us[..|us| - 1], keys, maxBytes);
      var u := us[|us| - 1];
      if before.None? || OverQuota(before.value, u, maxBytes) then None
      else
        assert u.id in UploadIds(us);
        Some(StoreOne(before.value, u, keys[u.id]))
  }

  /** The reservations made before any object is written. */
  function Reserved(t: Tables, us: seq<Upload>, keys: map<Id, Key>): Tables
    requires UploadIds(us) <= keys.Keys
  {
    t.(pending := t.pending + (map id | id in UploadIds(us) :: keys[id]))
  }

  /** Keys that earlier attempts at these uploads reserved and never committed. */
  function Superseded(t: Tables, us: seq<Upload>): set<Key> {
    set id | id in UploadIds(us) && id in t.pending :: t.pending[id]
  }

  /** The object keys a round draws are new to this account, one per upload. */
  ghost predicate FreshKeys(d: Disk, us: seq<Upload>, keys: map<Id, Key>) {
    && UploadIds(us) <= keys.Keys
    && (forall i, j :: i in keys && j in keys && keys[i] == keys[j] ==> i == j)
    && (forall i :: i in keys ==> keys[i] !in RowKeys(d.t) + PendingKeys(d.t) + d.bucket.Keys)
  }

  // ---- What the draft keeps ------------------------------------------------

  /** Everything `Sound` asks of the tables, with running totals for the account's. */
  ghost predicate TablesSound(t: Tables, count: int, bytes: int, seqno: nat) {
    && LiveConsistent(t.live, seqno)
    && count == |t.live| && bytes == SumBytes(t.live)
    && KeysAgree(t)
    && PendingApart(t)
    && HistoryOrdered(t)
    && LiveVersionsKept(t)
  }

  ghost predicate DraftSound(d: Draft) {
    TablesSound(d.t, d.count, d.bytes, d.seqno)
  }

  // ---- The commit ------------------------------------------------------------

  /** The draft a mutating round commits; `None` when an upload is over quota. */
  function RoundDraft(t: Tables, a: Account, rq: Request, keys: map<Id, Key>, maxBytes: int): Option<Draft>
    requires UploadIds(rq.uploads) <= keys.Keys
  {
    var accepted := Accepted(rq.uploads, LiveIds(t.live));
    AcceptedAreNew(rq.uploads, LiveIds(t.live));
    StoreAll(DeleteAll(Start(Reserved(t, accepted, keys), a), rq.deletions), accepted, keys, maxBytes)
  }

  /** The tables with the account row's new counters, or only its last-seen time. */
  function WithAccount(draft: Draft, a: Account, now: int, changes: bool, touchDue: bool): Tables {
    if changes || touchDue
    then draft.t.(account := Some(Account(draft.seqno, draft.count, draft.bytes,
                                          if changes then now else a.updatedAt, now, a.quota)))
    else draft.t
  }

  /** The bucket once every accepted upload's object is written. */
  function WithObjects(bucket: map<Key, string>, us: seq<Upload>, keys: map<Id, Key>): map<Key, string>
    requires UploadIds(us) <= keys.Keys
  {
    if us == [] then bucket
    else
      var u := us[|us| - 1];
      assert u.id in UploadIds(us);
      WithObjects(bucket, us[..|us| - 1], keys)[keys[u.id] := u.ciphertext]
  }

  /** Every object of the part is in the whole, with the same contents. */
  ghost predicate Within(part: map<Key, string>, whole: map<Key, string>) {
    forall k :: k in part ==> k in whole && part[k] == whole[k]
  }

  /** No leftover staged copy that this round's deletions would overwrite still has an
      object only that copy names. */
  ghost predicate RestageSafe(d: Disk, ds: seq<Deletion>) {
    forall s :: s in Removed(d.t, ds) && s in d.t.staged && d.t.staged[s].key in d.bucket
                ==> d.t.staged[s].key in HistoryKeys(d.t.history)
  }
}
