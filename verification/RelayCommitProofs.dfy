/**
 The storage steps of a mutating round up to its commit: each keeps the account's storage
 sound, and leaves no object unnamed except where a deletion is staged over a leftover one.
 */
module RelayCommitProofs {
  import opened Wrappers
  import opened RelayTables
  import opened RelayRound
  import opened RelayRoundProofs
  import opened RelayCleanupProofs

  lemma WriteReservedObject(d: Disk, key: Key, ciphertext: string)
    requires Sound(d) && key in PendingKeys(d.t)
    ensures Sound(Disk(d.t, d.bucket[key := ciphertext]))
    ensures AllNamed(d) ==> AllNamed(Disk(d.t, d.bucket[key := ciphertext]))
  {
    forall s | s in d.t.live ensures d.t.live[s].key != key {
      assert d.t.live[s].key in LiveKeys(d.t.live);
    }
  }

  lemma ReservedKeys(t: Tables, us: seq<Upload>, keys: map<Id, Key>)
    requires UploadIds(us) <= keys.Keys
    ensures PendingKeys(Reserved(t, us, keys)) <= PendingKeys(t) + KeysFor(us, keys)
    ensures PendingKeys(t) - Superseded(t, us) <= PendingKeys(Reserved(t, us, keys))
  {
    var r := Reserved(t, us, keys);
    forall i | i in t.pending && i !in UploadIds(us) ensures t.pending[i] in PendingKeys(r) {
      assert r.pending[i] == t.pending[i];
    }
  }

  lemma ReserveApart(t: Tables, us: seq<Upload>, keys: map<Id, Key>)
    requires PendingApart(t) && UploadIds(us) <= keys.Keys
    requires forall i, j :: i in keys && j in keys && keys[i] == keys[j] ==> i == j
    requires forall i :: i in keys ==> keys[i] !in RowKeys(t) + PendingKeys(t)
    ensures PendingApart(Reserved(t, us, keys))
    ensures PendingKeys(t) - Superseded(t, us) <= PendingKeys(Reserved(t, us, keys))
  {
    ReservedKeys(t, us, keys);
    assert forall i :: i in t.pending ==> t.pending[i] in PendingKeys(t);
  }

  lemma ReserveSound(d: Disk, us: seq<Upload>, keys: map<Id, Key>)
    requires Sound(d) && FreshKeys(d, us, keys)
    ensures Sound(Disk(Reserved(d.t, us, keys), d.bucket))
    ensures AllNamed(d) && d.bucket.Keys !! Superseded(d.t, us) ==> AllNamed(Disk(Reserved(d.t, us, keys), d.bucket))
  {
    var r := Reserved(d.t, us, keys);
    ReserveApart(d.t, us, keys);
    VersionsSame(d.t, r);
    assert RowKeys(r) == RowKeys(d.t) && Claims(r) == Claims(d.t);
  }

  // ---- The commit ------------------------------------------------------------

  ghost predicate RowFrom(row: Row, us: seq<Upload>, keys: map<Id, Key>) {
    exists u :: u in us && u.id in keys && row.key == keys[u.id] && row.bytes == |u.ciphertext| && row.id == u.id
  }

  /** Every live row of the draft is an old one or one of the uploads. */
  lemma {:induction false} StoreAllRows(d: Draft, us: seq<Upload>, keys: map<Id, Key>, maxBytes: int)
    requires UploadIds(us) <= keys.Keys && StoreAll(d, us, keys, maxBytes).Some?
    ensures forall s :: s in StoreAll(d, us, keys, maxBytes).value.t.live ==>
      var row := StoreAll(d, us, keys, maxBytes).value.t.live[s];
      (s in d.t.live && d.t.live[s] == row) || RowFrom(row, us, keys)
  {
    if us != [] {
      var n := |us| - 1;
      var u := us[n];
      assert us == us[..n] + [u];
      StoreAllRows(d, us[..n], keys, maxBytes);
      var b := StoreAll(d, us[..n], keys, maxBytes).value;
      var e := StoreOne(b, u, keys[u.id]);
      forall s | s in e.t.live ensures (s in d.t.live && d.t.live[s] == e.t.live[s]) || RowFrom(e.t.live[s], us, keys) {
        if s != u.slot && RowFrom(b.t.live[s], us[..n], keys) {
          var w :| w in us[..n] && w.id in keys && b.t.live[s].key == keys[w.id]
                   && b.t.live[s].bytes == |w.ciphertext| && b.t.live[s].id == w.id;
          assert w in us;
        }
      }
    }
  }

  /** All of `gone` moved from live to staged at once. */
  function UnliveAll(t: Tables, gone: set<Slot>): Tables
    requires gone <= t.live.Keys
  {
    t.(live := t.live - gone, staged := t.staged + (map s | s in gone :: t.live[s]))
  }

  lemma UnliveAllStep(t: Tables, gone: set<Slot>, slot: Slot)
    requires gone <= t.live.Keys && slot in t.live && slot !in gone
    ensures Unlive(UnliveAll(t, gone), slot) == UnliveAll(t, gone + {slot})
  {
    var b := UnliveAll(t, gone);
    assert b.live - {slot} == t.live - (gone + {slot});
    assert b.staged[slot := t.live[slot]] == t.staged + (map s | s in gone + {slot} :: t.live[s]);
  }

  lemma DeleteOneEffect(d: Draft, gone: set<Slot>, b: Draft, x: Deletion)
    requires gone <= d.t.live.Keys && b.t == UnliveAll(d.t, gone)
    ensures var more := if Matches(d.t, x) then gone + {x.slot} else gone;
            DeleteOne(b, x).t == UnliveAll(d.t, more)
            && DeleteOne(b, x).deleted == b.deleted + (if Matches(b.t, x) then {x.slot} else {})
  {
    if Matches(d.t, x) {
      if x.slot in gone {
        assert gone + {x.slot} == gone;
      } else {
        UnliveAllStep(d.t, gone, x.slot);
      }
    }
  }

  /** A run of deletions in closed form: each matching record goes from live to staged. */
  lemma {:induction false} DeleteAllEffect(d: Draft, ds: seq<Deletion>)
    ensures var gone := Removed(d.t, ds);
            && gone <= d.t.live.Keys
            && DeleteAll(d, ds).t == UnliveAll(d.t, gone)
            && DeleteAll(d, ds).deleted == d.deleted + gone
  {
    if ds == [] {
      assert UnliveAll(d.t, {}) == d.t;
    } else {
      var n := |ds| - 1;
      var x := ds[n];
      assert ds == ds[..n] + [x];
      DeleteAllEffect(d, ds[..n]);
      var before := Removed(d.t, ds[..n]);
      DeleteOneEffect(d, before, DeleteAll(d, ds[..n]), x);
      assert Removed(d.t, ds) == if Matches(d.t, x) then before + {x.slot} else before;
    }
  }

  lemma {:induction false} DeleteAllTotals(d: Draft, ds: seq<Deletion>)
    ensures DeleteAll(d, ds).seqno == d.seqno && DeleteAll(d, ds).continued == d.continued
    ensures Removed(d.t, ds) == {} ==> DeleteAll(d, ds) == d
  {
    if ds != [] {
      var n := |ds| - 1;
      var x := ds[n];
      assert ds == ds[..n] + [x];
      DeleteAllTotals(d, ds[..n]);
      assert Removed(d.t, ds[..n]) <= Removed(d.t, ds);
      assert Matches(d.t, x) ==> x.slot in Removed(d.t, ds);
    }
  }

  lemma {:induction false} ObjectKeysWritten(bucket: map<Key, string>, us: seq<Upload>, keys: map<Id, Key>)
    requires UploadIds(us) <= keys.Keys
    ensures WithObjects(bucket, us, keys).Keys == bucket.Keys + KeysFor(us, keys)
    ensures forall k :: k in bucket && k !in KeysFor(us, keys) ==> WithObjects(bucket, us, keys)[k] == bucket[k]
  {
    if us != [] {
      var n := |us| - 1;
      UploadIdsAppend(us);
      ObjectKeysWritten(bucket, us[..n], keys);
      assert KeysFor(us, keys) == KeysFor(us[..n], keys) + {keys[us[n].id]};
    }
  }

  lemma {:induction false} ObjectsWritten(bucket: map<Key, string>, us: seq<Upload>, keys: map<Id, Key>)
    requires UploadIds(us) <= keys.Keys && DistinctIds(us)
    requires forall i, j :: i in keys && j in keys && keys[i] == keys[j] ==> i == j
    ensures forall u :: u in us ==> u.id in keys && keys[u.id] in WithObjects(bucket, us, keys)
                                    && WithObjects(bucket, us, keys)[keys[u.id]] == u.ciphertext
  {
    if us != [] {
      var n := |us| - 1;
      var u := us[n];
      assert us == us[..n] + [u];
      UploadIdsAppend(us);
      ObjectsWritten(bucket, us[..n], keys);
      forall w | w in us[..n] ensures keys[w.id] != keys[u.id] {
        var i :| 0 <= i < n && us[i] == w;
      }
    }
  }

  lemma StoredObjects(d: Disk, us: seq<Upload>, keys: map<Id, Key>, live: map<Slot, Row>)
    requires ObjectsPresent(d)
    requires forall u :: u in us && u.id in keys ==> keys[u.id] in d.bucket && d.bucket[keys[u.id]] == u.ciphertext
    requires forall s :: s in live ==> (s in d.t.live && d.t.live[s] == live[s]) || RowFrom(live[s], us, keys)
    ensures ObjectsPresent(Disk(d.t.(live := live), d.bucket))
  {
    forall s | s in live ensures live[s].key in d.bucket && |d.bucket[live[s].key]| == live[s].bytes {
      if RowFrom(live[s], us, keys) {
        var u :| u in us && u.id in keys && live[s].key == keys[u.id] && live[s].bytes == |u.ciphertext|;
      }
    }
  }

  /** The round's draft on tables whose reservations are made. */
  ghost predicate DraftOn(r: Tables, a: Account, us: seq<Upload>, ds: seq<Deletion>, keys: map<Id, Key>,
                          maxBytes: int, e: Draft)
    requires UploadIds(us) <= keys.Keys
  {
    StoreAll(DeleteAll(Start(r, a), ds), us, keys, maxBytes) == Some(e)
  }

  lemma DraftCommits(d: Disk, us: seq<Upload>, ds: seq<Deletion>, keys: map<Id, Key>, maxBytes: int, e: Draft)
    requires Sound(d) && CanStoreAll(Start(d.t, d.t.account.value), us, keys)
    requires DraftOn(d.t, d.t.account.value, us, ds, keys, maxBytes, e)
    ensures DraftSound(e)
    ensures RowKeys(e.t) == RowKeys(DeleteAll(Start(d.t, d.t.account.value), ds).t) + KeysFor(us, keys)
    ensures e.t.pending == d.t.pending - UploadIds(us)
    ensures e.seqno == d.t.account.value.nextSeq + |us|
  {
    var start := Start(d.t, d.t.account.value);
    assert DraftSound(start);
    DeleteAllSound(start, ds);
    var deleted := DeleteAll(start, ds);
    assert CanStoreAll(deleted, us, keys);
    StoreAllSound(deleted, us, keys, maxBytes);
    StoreAllNames(deleted, us, keys, maxBytes);
    StoreAllIds(deleted, us, keys, maxBytes);
  }

  lemma UnliveAllNames(t: Tables, gone: set<Slot>)
    requires gone <= t.live.Keys && KeysAgree(t)
    ensures var after := UnliveAll(t, gone);
            && RowKeys(after) <= RowKeys(t)
            && (forall k :: k in RowKeys(t) && k !in RowKeys(after) ==>
                  exists s :: s in gone && s in t.staged && t.staged[s].key == k && k !in HistoryKeys(t.history))
  {
    var after := UnliveAll(t, gone);
    forall s | s in after.live ensures after.live[s].key in LiveKeys(t.live) {}
    forall s | s in after.staged ensures after.staged[s].key in LiveKeys(t.live) + LiveKeys(t.staged) {}
    forall s | s in t.live ensures t.live[s].key in RowKeys(after) {
      if s in gone {
        assert after.staged[s] == t.live[s];
      } else {
        assert after.live[s] == t.live[s];
      }
    }
    forall s | s in t.staged && s !in gone ensures t.staged[s].key in RowKeys(after) {
      assert after.staged[s] == t.staged[s];
    }
  }

  /** The keys of overwritten copies are really gone: no other row can name them. */
  lemma OverwrittenUnnamed(t: Tables, gone: set<Slot>, s: Slot)
    requires gone <= t.live.Keys && KeysAgree(t)
    requires s in gone && s in t.staged && t.staged[s].key !in HistoryKeys(t.history)
    ensures t.staged[s].key !in RowKeys(UnliveAll(t, gone))
  {
    var after := UnliveAll(t, gone);
    var k := t.staged[s].key;
    assert k in LiveKeys(t.staged);
    assert (k, s, t.staged[s].id) in RowClaims(t.staged);
    forall r | r in after.live ensures after.live[r].key != k {
      assert t.live[r].key in LiveKeys(t.live);
    }
    forall r | r in after.staged ensures after.staged[r].key != k {
      if r in gone {
        assert t.live[r].key in LiveKeys(t.live);
      } else {
        assert (t.staged[r].key, r, t.staged[r].id) in RowClaims(t.staged);
      }
    }
  }

  /** Committing leaves every object named exactly when the deletions are safe to stage. */
  lemma CommitNames(d: Disk, us: seq<Upload>, ds: seq<Deletion>, keys: map<Id, Key>, maxBytes: int, e: Draft)
    requires Sound(d) && AllNamed(d) && CanStoreAll(Start(d.t, d.t.account.value), us, keys)
    requires DraftOn(d.t, d.t.account.value, us, ds, keys, maxBytes, e)
    ensures AllNamed(Disk(e.t, d.bucket)) <==> RestageSafe(d, ds)
  {
    var start := Start(d.t, d.t.account.value);
    var gone := Removed(d.t, ds);
    DraftCommits(d, us, ds, keys, maxBytes, e);
    DeleteAllEffect(start, ds);
    UnliveAllNames(d.t, gone);
    assert PendingKeys(d.t) == PendingKeys(e.t) + KeysFor(us, keys) by { PendingSplit(d.t, us, keys, e.t); }
    if RestageSafe(d, ds) {
      forall k | k in d.bucket ensures k in RowKeys(e.t) + PendingKeys(e.t) {}
    } else {
      var s :| s in gone && s in d.t.staged && d.t.staged[s].key in d.bucket
               && d.t.staged[s].key !in HistoryKeys(d.t.history);
      var k := d.t.staged[s].key;
      OverwrittenUnnamed(d.t, gone, s);
      assert k in LiveKeys(d.t.staged);
      assert k !in PendingKeys(d.t);
    }
  }

  lemma PendingSplit(t: Tables, us: seq<Upload>, keys: map<Id, Key>, after: Tables)
    requires UploadIds(us) <= keys.Keys
    requires forall id :: id in UploadIds(us) ==> id in t.pending && t.pending[id] == keys[id]
    requires after.pending == t.pending - UploadIds(us)
    ensures PendingKeys(t) == PendingKeys(after) + KeysFor(us, keys)
  {
    forall id | id in t.pending ensures t.pending[id] in PendingKeys(after) + KeysFor(us, keys) {
      if id !in UploadIds(us) { assert after.pending[id] == t.pending[id]; }
    }
    forall id | id in UploadIds(us) ensures keys[id] in PendingKeys(t) {
      assert t.pending[id] == keys[id];
    }
  }

  lemma SoundFromDraft(e: Draft, t: Tables, bucket: map<Key, string>)
    requires DraftSound(e) && t == e.t.(account := t.account) && t.account.Some?
    requires t.account.value.nextSeq == e.seqno
    requires t.account.value.envelopeCount == e.count && t.account.value.ciphertextBytes == e.bytes
    requires ObjectsPresent(Disk(t, bucket))
    ensures Sound(Disk(t, bucket))
  {
    assert RowKeys(t) == RowKeys(e.t) && Claims(t) == Claims(e.t);
    VersionsSame(e.t, t);
  }

  /** A round that stored and removed nothing drafted the tables it started from. */
  lemma NothingChanged(start: Draft, us: seq<Upload>, ds: seq<Deletion>, keys: map<Id, Key>, maxBytes: int, e: Draft)
    requires UploadIds(us) <= keys.Keys
    requires StoreAll(DeleteAll(start, ds), us, keys, maxBytes) == Some(e)
    requires us == [] && Removed(start.t, ds) == {}
    ensures e == start
  {
    DeleteAllTotals(start, ds);
  }

  lemma CommitObjects(d: Disk, us: seq<Upload>, ds: seq<Deletion>, keys: map<Id, Key>, maxBytes: int, e: Draft)
    requires Sound(d) && UploadIds(us) <= keys.Keys
    requires DraftOn(d.t, d.t.account.value, us, ds, keys, maxBytes, e)
    requires forall u :: u in us && u.id in keys ==> keys[u.id] in d.bucket && d.bucket[keys[u.id]] == u.ciphertext
    ensures ObjectsPresent(Disk(e.t, d.bucket))
  {
    var start := Start(d.t, d.t.account.value);
    DeleteAllEffect(start, ds);
    StoreAllRows(DeleteAll(start, ds), us, keys, maxBytes);
    StoredObjects(d, us, keys, e.t.live);
  }

  lemma CommitSound(d: Disk, us: seq<Upload>, ds: seq<Deletion>, keys: map<Id, Key>, maxBytes: int, e: Draft,
                    now: int, touchDue: bool)
    requires Sound(d) && CanStoreAll(Start(d.t, d.t.account.value), us, keys)
    requires DraftOn(d.t, d.t.account.value, us, ds, keys, maxBytes, e)
    requires forall u :: u in us && u.id in keys ==> keys[u.id] in d.bucket && d.bucket[keys[u.id]] == u.ciphertext
    ensures Sound(Disk(WithAccount(e, d.t.account.value, now, us != [] || Removed(d.t, ds) != {}, touchDue), d.bucket))
  {
    var start := Start(d.t, d.t.account.value);
    var changes := us != [] || Removed(d.t, ds) != {};
    var t := WithAccount(e, d.t.account.value, now, changes, touchDue);
    DraftCommits(d, us, ds, keys, maxBytes, e);
    CommitObjects(d, us, ds, keys, maxBytes, e);
    if !changes {
      NothingChanged(start, us, ds, keys, maxBytes, e);
    }
    if changes || touchDue {
      SoundFromDraft(e, t, d.bucket);
    }
  }

  // ---- Writing the objects, cut short or not -----------------------------------

  lemma DropReservedKeeps(d: Disk, us: seq<Upload>, done: set<Key>)
    requires Sound(d) && done <= Superseded(d.t, us)
    ensures Keeps(d, Disk(d.t, d.bucket - done))
  {
    forall k | k in done ensures k in PendingKeys(d.t) {}
    ObjectsCutShort(d, done);
  }

  lemma ReserveKeeps(d: Disk, us: seq<Upload>, keys: map<Id, Key>)
    requires Sound(d) && FreshKeys(d, us, keys) && d.bucket.Keys !! Superseded(d.t, us)
    ensures Keeps(d, Disk(Reserved(d.t, us, keys), d.bucket))
  {
    ReserveSound(d, us, keys);
  }

  /** Some of the objects are in: the bucket is between `base` and the full set. */
  ghost predicate PartlyWritten(base: map<Key, string>, us: seq<Upload>, keys: map<Id, Key>, done: set<Upload>,
                                bucket: map<Key, string>)
    requires UploadIds(us) <= keys.Keys
  {
    && (forall u :: u in done ==> u in us)
    && (forall k :: k in bucket <==> k in base || exists u :: u in done && u.id in keys && keys[u.id] == k)
    && (forall k :: k in bucket ==> k in WithObjects(base, us, keys) && bucket[k] == WithObjects(base, us, keys)[k])
  }

  ghost predicate KeysApart(base: map<Key, string>, us: seq<Upload>, keys: map<Id, Key>) {
    && DistinctIds(us) && UploadIds(us) <= keys.Keys
    && (forall i, j :: i in keys && j in keys && keys[i] == keys[j] ==> i == j)
    && (forall i :: i in keys ==> keys[i] !in base)
  }

  lemma NoneWritten(base: map<Key, string>, us: seq<Upload>, keys: map<Id, Key>)
    requires KeysApart(base, us, keys)
    ensures PartlyWritten(base, us, keys, {}, base)
  {
    ObjectKeysWritten(base, us, keys);
  }

  lemma OneWritten(base: map<Key, string>, us: seq<Upload>, keys: map<Id, Key>, done: set<Upload>,
                   bucket: map<Key, string>, u: Upload)
    requires KeysApart(base, us, keys) && u in us && u.id in keys
    requires PartlyWritten(base, us, keys, done, bucket)
    ensures PartlyWritten(base, us, keys, done + {u}, bucket[keys[u.id] := u.ciphertext])
  {
    ObjectsWritten(base, us, keys);
  }

  lemma AllWritten(base: map<Key, string>, us: seq<Upload>, keys: map<Id, Key>, done: set<Upload>,
                   bucket: map<Key, string>)
    requires KeysApart(base, us, keys) && PartlyWritten(base, us, keys, done, bucket)
    requires forall u :: u in us ==> u in done
    ensures bucket == WithObjects(base, us, keys)
  {
    var full := WithObjects(base, us, keys);
    ObjectKeysWritten(base, us, keys);
    forall k | k in full ensures k in bucket {
      if k !in base {
        var id :| id in UploadIds(us) && keys[id] == k;
        var u :| u in us && u.id == id;
        assert u in done;
      }
    }
  }

  lemma PutKeeps(d: Disk, us: seq<Upload>, keys: map<Id, Key>, u: Upload)
    requires Sound(d) && u in us && u.id in d.t.pending && u.id in keys && d.t.pending[u.id] == keys[u.id]
    ensures Keeps(d, Disk(d.t, d.bucket[keys[u.id] := u.ciphertext]))
  {
    assert keys[u.id] in PendingKeys(d.t);
    WriteReservedObject(d, keys[u.id], u.ciphertext);
  }

  /** Writing objects on `d0`: those of `done` are in, nothing else has changed. */
  ghost predicate Writing(d0: Disk, us: seq<Upload>, keys: map<Id, Key>, done: set<Upload>, d: Disk)
    requires UploadIds(us) <= keys.Keys
  {
    d.t == d0.t && PartlyWritten(d0.bucket, us, keys, done, d.bucket) && Keeps(d0, d)
  }

  ghost predicate ReadyToWrite(d: Disk, us: seq<Upload>, keys: map<Id, Key>) {
    && Sound(d) && KeysApart(d.bucket, us, keys)
    && (forall u :: u in us ==> u.id in d.t.pending && u.id in keys && d.t.pending[u.id] == keys[u.id])
  }

  lemma WriteNone(d: Disk, us: seq<Upload>, keys: map<Id, Key>)
    requires ReadyToWrite(d, us, keys)
    ensures Writing(d, us, keys, {}, d)
  {
    NoneWritten(d.bucket, us, keys);
  }

  lemma WriteOne(d0: Disk, us: seq<Upload>, keys: map<Id, Key>, done: set<Upload>, d: Disk, u: Upload)
    requires ReadyToWrite(d0, us, keys) && Writing(d0, us, keys, done, d) && u in us
    ensures u.id in keys
    ensures Writing(d0, us, keys, done + {u}, Disk(d.t, d.bucket[keys[u.id] := u.ciphertext]))
  {
    PutKeeps(d, us, keys, u);
    OneWritten(d0.bucket, us, keys, done, d.bucket, u);
    KeepsTrans(d0, d, Disk(d.t, d.bucket[keys[u.id] := u.ciphertext]));
  }

  lemma WrittenKeeps(d0: Disk, us: seq<Upload>, keys: map<Id, Key>, done: set<Upload>, d: Disk)
    requires ReadyToWrite(d0, us, keys) && Writing(d0, us, keys, done, d)
    ensures Keeps(d0, d) && Within(d.bucket, WithObjects(d0.bucket, us, keys))
    ensures (forall u :: u in us ==> u in done) ==> d == Disk(d0.t, WithObjects(d0.bucket, us, keys))
  {
    if forall u :: u in us ==> u in done {
      AllWritten(d0.bucket, us, keys, done, d.bucket);
    }
  }

  lemma ReadyOnceReserved(d: Disk, us: seq<Upload>, keys: map<Id, Key>)
    requires FreshKeys(d, us, keys) && DistinctIds(us)
    requires Sound(Disk(Reserved(d.t, us, keys), d.bucket))
    ensures ReadyToWrite(Disk(Reserved(d.t, us, keys), d.bucket), us, keys)
  {
    assert forall u :: u in us ==> u.id in UploadIds(us);
    var r := Reserved(d.t, us, keys);
    assert forall id :: id in UploadIds(us) ==> id in r.pending && r.pending[id] == keys[id];
  }
}
