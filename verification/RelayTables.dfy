/**
 One account's storage as the relay sees it: the D1 tables, and the R2 bucket of
 encrypted objects beside them. D1 runs a batch of statements as one transaction, so a
 batch either applies completely or leaves the tables as they were.
 */
module RelayTables {
  import opened Wrappers
  import opened Collections

  datatype Slot = Slot(name: string)
  datatype Id = Id(token: string)
  datatype Key = Key(path: string)

  /** A live record; the table's primary key is the slot. */
  datatype Row = Row(seqno: nat, id: Id, key: Key, bytes: nat)
  /** A history row, filed under its auto-incremented history id. A record's history also
      holds its live version. */
  datatype Version = Version(slot: Slot, id: Id, key: Key, bytes: nat)
  datatype Account = Account(nextSeq: nat, envelopeCount: int, ciphertextBytes: int,
                             updatedAt: int, lastSeenAt: int, quota: Option<nat>)
  datatype Usage = Usage(versions: int, bytes: int)

  datatype Tables = Tables(account: Option<Account>, live: map<Slot, Row>, history: map<nat, Version>,
                           nextHistoryId: nat, staged: map<Slot, Row>, pending: map<Id, Key>,
                           usage: Usage)
  datatype Disk = Disk(t: Tables, bucket: map<Key, string>)

  /** The statements the coordinator sends, one per SQL text. */
  datatype Statement =
    | StageDeleted(slot: Slot, row: Row)
    | RemoveLive(slot: Slot, id: Id)
    | KeepVersion(slot: Slot, row: Row)
    | PutLive(slot: Slot, row: Row)
    | AddVersion(slot: Slot, row: Row)
    | DropPending(id: Id)
    | Reserve(id: Id, key: Key)
    | SetAccount(nextSeq: nat, envelopeCount: int, ciphertextBytes: int, updatedAt: int, seenAt: int)
    | TouchAccount(lastSeenAt: int)
    | DropVersions(gone: set<nat>)
    | DropStaged(slots: set<Slot>)
    | SetUsage(usage: Usage)

  /** An insertion into the history, under the next history id. */
  function Append(t: Tables, slot: Slot, row: Row): Tables {
    t.(history := t.history[t.nextHistoryId := Version(slot, row.id, row.key, row.bytes)],
       nextHistoryId := t.nextHistoryId + 1)
  }

  predicate HasVersionOf(history: map<nat, Version>, id: Id) {
    exists h :: h in history && history[h].id == id
  }

  /** One statement. `None` is a violated unique index: no two live records share an id. */
  function Apply(t: Tables, s: Statement): Option<Tables> {
    match s
    case StageDeleted(slot, row) => Some(t.(staged := t.staged[slot := row]))
    case RemoveLive(slot, id) =>
      Some(if slot in t.live && t.live[slot].id == id then t.(live := t.live - {slot}) else t)
    case KeepVersion(slot, row) => Some(if HasVersionOf(t.history, row.id) then t else Append(t, slot, row))
    case PutLive(slot, row) =>
      if exists other :: other in t.live && other != slot && t.live[other].id == row.id then None
      else Some(t.(live := t.live[slot := row]))
    case AddVersion(slot, row) => Some(Append(t, slot, row))
    case DropPending(id) => Some(t.(pending := t.pending - {id}))
    case Reserve(id, key) => Some(t.(pending := t.pending[id := key]))
    case SetAccount(nextSeq, count, bytes, updatedAt, seenAt) =>
      Some(if t.account.None? then t
           else t.(account := Some(Account(nextSeq, count, bytes, updatedAt, seenAt, t.account.value.quota))))
    case TouchAccount(at) =>
      Some(if t.account.None? then t else t.(account := Some(t.account.value.(lastSeenAt := at))))
    case DropVersions(gone) => Some(t.(history := t.history - gone))
    case DropStaged(slots) => Some(t.(staged := t.staged - slots))
    case SetUsage(usage) => Some(t.(usage := usage))
  }

  function ApplyAll(t: Tables, batch: seq<Statement>): Option<Tables> {
    if batch == [] then Some(t)
    else
      var before := ApplyAll(t, batch[..|batch| - 1]);
      if before.None? then None else Apply(before.value, batch[|batch| - 1])
  }

  lemma ApplyAppend(t: Tables, batch: seq<Statement>, s: Statement)
    ensures ApplyAll(t, batch + [s]) ==
            var before := ApplyAll(t, batch);
            if before.None? then None else Apply(before.value, s)
  {
    assert (batch + [s])[..|batch|] == batch;
  }

  // ---- What the rows name -------------------------------------------------

  function LiveIds(live: map<Slot, Row>): set<Id> { set s | s in live :: live[s].id }

  function LiveKeys(live: map<Slot, Row>): set<Key> { set s | s in live :: live[s].key }

  function HistoryKeys(history: map<nat, Version>): set<Key> { set h | h in history :: history[h].key }

  /** Every key a live, history or staged row names. */
  function RowKeys(t: Tables): set<Key> {
    LiveKeys(t.live) + HistoryKeys(t.history) + LiveKeys(t.staged)
  }

  function PendingKeys(t: Tables): set<Key> { set id | id in t.pending :: t.pending[id] }

  function Sizes(live: map<Slot, Row>): map<Slot, nat> { map s | s in live :: live[s].bytes }

  ghost function SumBytes(live: map<Slot, Row>): nat { Sum(Sizes(live)) }

  lemma SumBytesRemove(live: map<Slot, Row>, slot: Slot)
    requires slot in live
    ensures SumBytes(live - {slot}) == SumBytes(live) - live[slot].bytes
    ensures |live - {slot}| == |live| - 1
  {
    SumWithout(Sizes(live), slot);
    assert Sizes(live) - {slot} == Sizes(live - {slot});
    assert (live - {slot}).Keys == live.Keys - {slot};
    assert |live - {slot}| == |(live - {slot}).Keys| && |live| == |live.Keys|;
  }

  lemma CountUpdate(live: map<Slot, Row>, slot: Slot, row: Row)
    ensures |live[slot := row]| == |live| + (if slot in live then 0 else 1)
  {
    assert live[slot := row].Keys == live.Keys + {slot};
    assert |live[slot := row]| == |live[slot := row].Keys| && |live| == |live.Keys|;
  }

  lemma SizesUpdate(live: map<Slot, Row>, slot: Slot, row: Row)
    ensures Sizes(live[slot := row]) == Sizes(live)[slot := row.bytes]
  {
  }

  lemma SumBytesUpdate(live: map<Slot, Row>, slot: Slot, row: Row)
    ensures SumBytes(live[slot := row]) ==
            SumBytes(live) - (if slot in live then live[slot].bytes else 0) + row.bytes
    ensures |live[slot := row]| == |live| + (if slot in live then 0 else 1)
  {
    SumUpdate(Sizes(live), slot, row.bytes);
    SizesUpdate(live, slot, row);
    CountUpdate(live, slot, row);
  }

  // ---- The invariants a round starts from and must leave behind -----------

  /** Live ids are distinct, and so are live seqs; none exceeds the account's. */
  ghost predicate LiveConsistent(live: map<Slot, Row>, nextSeq: nat) {
    && (forall s :: s in live ==> live[s].seqno <= nextSeq)
    && (forall s, r :: s in live && r in live && s != r ==> live[s].id != live[r].id && live[s].seqno != live[r].seqno)
  }

  /** The counters on the account row equal what the live rows add up to. */
  ghost predicate CountersExact(t: Tables)
    requires t.account.Some?
  {
    t.account.value.envelopeCount == |t.live| && t.account.value.ciphertextBytes == SumBytes(t.live)
  }

  /** The record and version each row says an object belongs to. */
  function RowClaims(rows: map<Slot, Row>): set<(Key, Slot, Id)> { set s | s in rows :: (rows[s].key, s, rows[s].id) }

  function HistoryClaims(history: map<nat, Version>): set<(Key, Slot, Id)> {
    set h | h in history :: (history[h].key, history[h].slot, history[h].id)
  }

  function Claims(t: Tables): set<(Key, Slot, Id)> {
    RowClaims(t.live) + RowClaims(t.staged) + HistoryClaims(t.history)
  }

  /** An object belongs to one version of one record: rows that name the same key agree on
      both, and a live record never shares its object with a deleted copy. */
  ghost predicate KeysAgree(t: Tables) {
    && (forall a, b :: a in Claims(t) && b in Claims(t) && a.0 == b.0 ==> a == b)
    && LiveKeys(t.live) !! LiveKeys(t.staged)
  }

  lemma ClaimsAreKeys(t: Tables)
    ensures forall a :: a in Claims(t) ==> a.0 in RowKeys(t)
  {
    forall a | a in Claims(t) ensures a.0 in RowKeys(t) {
      if a in RowClaims(t.live) {
        assert t.live[a.1].key in LiveKeys(t.live);
      } else if a in RowClaims(t.staged) {
        assert t.staged[a.1].key in LiveKeys(t.staged);
      } else {
        var h :| h in t.history && (t.history[h].key, t.history[h].slot, t.history[h].id) == a;
        assert t.history[h].key in HistoryKeys(t.history);
      }
    }
  }

  /** History row `h` is the newest version in slot `s` and names the live record's object. */
  ghost predicate NewestVersion(t: Tables, s: Slot, h: nat)
    requires s in t.live
  {
    && h in t.history && t.history[h].slot == s && t.history[h].key == t.live[s].key
    && (forall g :: g in t.history && t.history[g].slot == s ==> g <= h)
  }

  /** The history either knows nothing of a live record's id (it predates the history), or
      its newest version in that slot is the live one. */
  ghost predicate LiveVersionKept(t: Tables, s: Slot)
    requires s in t.live
  {
    HasVersionOf(t.history, t.live[s].id) ==> exists h :: NewestVersion(t, s, h)
  }

  ghost predicate LiveVersionsKept(t: Tables) {
    forall s :: s in t.live ==> LiveVersionKept(t, s)
  }

  /** Reserved keys belong to no row, and to one upload each. */
  ghost predicate PendingApart(t: Tables) {
    && PendingKeys(t) !! RowKeys(t)
    && (forall i, j :: i in t.pending && j in t.pending && t.pending[i] == t.pending[j] ==> i == j)
  }

  /** History ids are handed out in ascending order. */
  ghost predicate HistoryOrdered(t: Tables) {
    forall h :: h in t.history ==> h < t.nextHistoryId
  }

  /** Every live record's object is in the bucket, with the length its row records. */
  ghost predicate ObjectsPresent(d: Disk) {
    forall s :: s in d.t.live ==>
      d.t.live[s].key in d.bucket && |d.bucket[d.t.live[s].key]| == d.t.live[s].bytes
  }

  /** What holds after every storage call, however a round ends. */
  ghost predicate Sound(d: Disk) {
    match d.t.account
    case None => false
    case Some(a) =>
      && LiveConsistent(d.t.live, a.nextSeq)
      && CountersExact(d.t)
      && KeysAgree(d.t)
      && PendingApart(d.t)
      && HistoryOrdered(d.t)
      && LiveVersionsKept(d.t)
      && ObjectsPresent(d)
  }

  /** No stored object is left without a row that names it. */
  ghost predicate AllNamed(d: Disk) {
    d.bucket.Keys <= RowKeys(d.t) + PendingKeys(d.t)
  }

  lemma VersionsSame(t: Tables, after: Tables)
    requires LiveVersionsKept(t) && after.live == t.live && after.history == t.history
    ensures LiveVersionsKept(after)
  {
    forall s | s in after.live ensures LiveVersionKept(after, s) {
      assert LiveVersionKept(t, s);
      if HasVersionOf(t.history, t.live[s].id) {
        var h :| NewestVersion(t, s, h);
        assert NewestVersion(after, s, h);
      }
    }
  }

  /** Times, quota and history usage play no part in being sound. */
  lemma SoundSame(d: Disk, account: Account, usage: Usage)
    requires Sound(d) && account.nextSeq == d.t.account.value.nextSeq
    requires account.envelopeCount == d.t.account.value.envelopeCount
    requires account.ciphertextBytes == d.t.account.value.ciphertextBytes
    ensures var after := Disk(d.t.(account := Some(account), usage := usage), d.bucket);
            Sound(after) && (AllNamed(d) <==> AllNamed(after))
  {
    var after := d.t.(account := Some(account), usage := usage);
    VersionsSame(d.t, after);
    assert Claims(after) == Claims(d.t) && RowKeys(after) == RowKeys(d.t) && PendingKeys(after) == PendingKeys(d.t);
  }
}
