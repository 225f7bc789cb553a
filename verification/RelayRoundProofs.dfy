/**
 What every statement of a round's draft keeps: the invariants of the tables, and which
 object keys the rows name afterwards.
 */
module RelayRoundProofs {
  import opened Wrappers
  import opened RelayTables
  import opened RelayRound

  lemma UnliveKeys(t: Tables, slot: Slot)
    requires slot in t.live && KeysAgree(t)
    ensures KeysAgree(Unlive(t, slot))
    ensures RowKeys(Unlive(t, slot)) <= RowKeys(t)
    ensures PendingApart(t) ==> PendingApart(Unlive(t, slot))
  {
    var after := Unlive(t, slot);
    var key := t.live[slot].key;
    assert (key, slot, t.live[slot].id) in RowClaims(t.live);
    assert Claims(after) <= Claims(t);
    forall s | s in after.live ensures after.live[s].key != key {
      assert (after.live[s].key, s, after.live[s].id) in RowClaims(t.live);
    }
    assert LiveKeys(after.live) <= LiveKeys(t.live) - {key};
    assert LiveKeys(after.staged) <= LiveKeys(t.staged) + {key};
  }

  lemma UnliveVersions(t: Tables, slot: Slot)
    requires slot in t.live && LiveVersionsKept(t)
    ensures LiveVersionsKept(Unlive(t, slot))
  {
    var after := Unlive(t, slot);
    forall s | s in after.live ensures LiveVersionKept(after, s) {
      assert LiveVersionKept(t, s);
      if HasVersionOf(t.history, t.live[s].id) {
        var h :| NewestVersion(t, s, h);
        assert NewestVersion(after, s, h);
      }
    }
  }

  lemma UnliveRows(t: Tables, slot: Slot, nextSeq: nat)
    requires slot in t.live && LiveConsistent(t.live, nextSeq)
    ensures LiveConsistent(Unlive(t, slot).live, nextSeq)
    ensures |Unlive(t, slot).live| == |t.live| - 1
    ensures SumBytes(Unlive(t, slot).live) == SumBytes(t.live) - t.live[slot].bytes
    ensures LiveIds(Unlive(t, slot).live) <= LiveIds(t.live)
  {
    SumBytesRemove(t.live, slot);
  }

  lemma DeleteOneSound(d: Draft, x: Deletion)
    requires DraftSound(d)
    ensures DraftSound(DeleteOne(d, x))
    ensures LiveIds(DeleteOne(d, x).t.live) <= LiveIds(d.t.live)
    ensures DeleteOne(d, x).seqno == d.seqno && DeleteOne(d, x).t.pending == d.t.pending
    ensures DeleteOne(d, x).t.history == d.t.history
  {
    if Matches(d.t, x) {
      assert DeleteOne(d, x).t == Unlive(d.t, x.slot);
      UnliveRows(d.t, x.slot, d.seqno);
      UnliveKeys(d.t, x.slot);
      UnliveVersions(d.t, x.slot);
      var e := DeleteOne(d, x);
      assert LiveConsistent(e.t.live, e.seqno);
      assert e.count == |e.t.live|;
      assert e.bytes == SumBytes(e.t.live);
      assert KeysAgree(e.t);
      assert PendingApart(e.t);
      assert HistoryOrdered(e.t);
      assert LiveVersionsKept(e.t);
    }
  }

  lemma {:induction false} DeleteAllSound(d: Draft, ds: seq<Deletion>)
    requires DraftSound(d)
    ensures DraftSound(DeleteAll(d, ds))
    ensures LiveIds(DeleteAll(d, ds).t.live) <= LiveIds(d.t.live)
    ensures DeleteAll(d, ds).seqno == d.seqno && DeleteAll(d, ds).t.pending == d.t.pending
    ensures DeleteAll(d, ds).t.history == d.t.history
  {
    if ds != [] {
      DeleteAllSound(d, ds[..|ds| - 1]);
      DeleteOneSound(DeleteAll(d, ds[..|ds| - 1]), ds[|ds| - 1]);
    }
  }

  lemma KeepPriorSound(t: Tables, slot: Slot, nextSeq: nat)
    requires LiveConsistent(t.live, nextSeq)
    requires HistoryOrdered(t) && LiveVersionsKept(t) && KeysAgree(t)
    ensures var k := KeepPrior(t, slot);
            && HistoryOrdered(k) && LiveVersionsKept(k) && KeysAgree(k)
            && RowKeys(k) == RowKeys(t)
            && (slot in t.live ==> t.live[slot].key in HistoryKeys(k.history))
  {
    if slot in t.live {
      var prior := t.live[slot];
      assert LiveVersionKept(t, slot);
      assert prior.key in LiveKeys(t.live);
      if HasVersionOf(t.history, prior.id) {
        var h :| NewestVersion(t, slot, h);
        assert t.history[h].key in HistoryKeys(t.history);
      } else {
        AppendPrior(t, slot, nextSeq);
      }
    }
  }

  lemma AppendNames(t: Tables, slot: Slot, row: Row)
    requires HistoryOrdered(t)
    ensures HistoryKeys(Append(t, slot, row).history) == HistoryKeys(t.history) + {row.key}
    ensures HistoryClaims(Append(t, slot, row).history) == HistoryClaims(t.history) + {(row.key, slot, row.id)}
  {
    var k := Append(t, slot, row);
    forall h | h in t.history
      ensures t.history[h].key in HistoryKeys(k.history)
      ensures (t.history[h].key, t.history[h].slot, t.history[h].id) in HistoryClaims(k.history)
    {
      assert k.history[h] == t.history[h];
    }
    assert t.nextHistoryId in k.history;
  }

  lemma AppendPrior(t: Tables, slot: Slot, nextSeq: nat)
    requires LiveConsistent(t.live, nextSeq)
    requires HistoryOrdered(t) && LiveVersionsKept(t) && KeysAgree(t)
    requires slot in t.live && !HasVersionOf(t.history, t.live[slot].id)
    ensures var k := Append(t, slot, t.live[slot]);
            && HistoryOrdered(k) && LiveVersionsKept(k) && KeysAgree(k)
            && RowKeys(k) == RowKeys(t)
            && t.live[slot].key in HistoryKeys(k.history)
  {
    var prior := t.live[slot];
    var k := Append(t, slot, prior);
    AppendNames(t, slot, prior);
    assert prior.key in LiveKeys(t.live);
    assert (prior.key, slot, prior.id) in RowClaims(t.live);
    assert Claims(k) == Claims(t);
    assert LiveVersionsKept(k) by {
      forall s | s in k.live ensures LiveVersionKept(k, s) {
        assert LiveVersionKept(t, s);
        if s == slot {
          assert NewestVersion(k, s, t.nextHistoryId);
        } else if HasVersionOf(t.history, t.live[s].id) {
          var h :| NewestVersion(t, s, h);
          assert NewestVersion(k, s, h);
        }
      }
    }
  }

  lemma PutRowLive(t: Tables, u: Upload, row: Row, nextSeq: nat)
    requires LiveConsistent(t.live, nextSeq) && row.seqno == nextSeq + 1 && row.id == u.id
    requires u.id !in LiveIds(t.live)
    ensures LiveConsistent(PutRow(t, u, row).live, nextSeq + 1)
    ensures LiveIds(PutRow(t, u, row).live) <= LiveIds(t.live) + {u.id}
  {
    assert forall s :: s in t.live ==> t.live[s].id in LiveIds(t.live);
  }

  lemma PutRowClaims(t: Tables, u: Upload, row: Row)
    requires HistoryOrdered(t)
    ensures Claims(PutRow(t, u, row)) <= Claims(t) + {(row.key, u.slot, row.id)}
    ensures LiveKeys(PutRow(t, u, row).live) <= LiveKeys(t.live) + {row.key}
  {
    AppendNames(t, u.slot, row);
  }

  lemma PutRowKeysAgree(t: Tables, u: Upload, row: Row)
    requires KeysAgree(t) && HistoryOrdered(t) && row.key !in RowKeys(t)
    ensures KeysAgree(PutRow(t, u, row))
  {
    ClaimsAreKeys(t);
    PutRowClaims(t, u, row);
  }

  lemma PutRowNames(t: Tables, u: Upload, row: Row)
    requires HistoryOrdered(t)
    requires u.slot in t.live ==> t.live[u.slot].key in HistoryKeys(t.history)
    ensures RowKeys(PutRow(t, u, row)) == RowKeys(t) + {row.key}
  {
    var after := PutRow(t, u, row);
    AppendNames(t, u.slot, row);
    assert after.live[u.slot].key in LiveKeys(after.live);
    assert LiveKeys(after.live) <= LiveKeys(t.live) + {row.key};
    forall s | s in t.live ensures t.live[s].key in LiveKeys(after.live) + HistoryKeys(after.history) {
      if s != u.slot {
        assert after.live[s] == t.live[s];
      }
    }
  }

  lemma PutRowPending(t: Tables, u: Upload, row: Row)
    requires PendingApart(t) && u.id in t.pending && t.pending[u.id] == row.key
    ensures PendingKeys(PutRow(t, u, row)) == PendingKeys(t) - {row.key}
  {
    var after := PutRow(t, u, row);
    forall id | id in t.pending && id != u.id ensures t.pending[id] in PendingKeys(after) {
      assert after.pending[id] == t.pending[id];
    }
  }

  lemma PutRowVersions(t: Tables, u: Upload, row: Row)
    requires HistoryOrdered(t) && LiveVersionsKept(t)
    requires row.id == u.id && u.id !in LiveIds(t.live)
    ensures HistoryOrdered(PutRow(t, u, row)) && LiveVersionsKept(PutRow(t, u, row))
  {
    var after := PutRow(t, u, row);
    forall s | s in after.live ensures LiveVersionKept(after, s) {
      if s == u.slot {
        assert NewestVersion(after, s, t.nextHistoryId);
      } else {
        assert LiveVersionKept(t, s);
        assert t.live[s].id in LiveIds(t.live);
        if HasVersionOf(t.history, t.live[s].id) {
          var h :| NewestVersion(t, s, h);
          assert NewestVersion(after, s, h);
        }
      }
    }
  }

  lemma StoreTablesLive(t: Tables, u: Upload, key: Key, nextSeq: nat)
    requires LiveConsistent(t.live, nextSeq) && u.id !in LiveIds(t.live)
    ensures var after := StoreTables(t, u, key, nextSeq + 1);
            && LiveConsistent(after.live, nextSeq + 1)
            && |after.live| == |t.live| + (if u.slot in t.live then 0 else 1)
            && SumBytes(after.live) == SumBytes(t.live) - PriorBytes(t.live, u.slot) + |u.ciphertext|
            && LiveIds(after.live) <= LiveIds(t.live) + {u.id}
  {
    var row := Row(nextSeq + 1, u.id, key, |u.ciphertext|);
    PutRowLive(KeepPrior(t, u.slot), u, row, nextSeq);
    SumBytesUpdate(t.live, u.slot, row);
  }

  lemma StoreTablesKeys(t: Tables, u: Upload, key: Key, nextSeq: nat)
    requires LiveConsistent(t.live, nextSeq) && KeysAgree(t) && PendingApart(t)
    requires HistoryOrdered(t) && LiveVersionsKept(t)
    requires u.id !in LiveIds(t.live) && u.id in t.pending && t.pending[u.id] == key
    ensures var after := StoreTables(t, u, key, nextSeq + 1);
            && KeysAgree(after) && PendingApart(after)
            && RowKeys(after) == RowKeys(t) + {key}
            && PendingKeys(after) == PendingKeys(t) - {key}
  {
    var kept := KeepPrior(t, u.slot);
    var row := Row(nextSeq + 1, u.id, key, |u.ciphertext|);
    KeepPriorSound(t, u.slot, nextSeq);
    assert key in PendingKeys(t);
    PutRowKeysAgree(kept, u, row);
    PutRowNames(kept, u, row);
    PutRowPending(kept, u, row);
  }

  lemma StoreTablesVersions(t: Tables, u: Upload, key: Key, nextSeq: nat)
    requires LiveConsistent(t.live, nextSeq) && KeysAgree(t)
    requires HistoryOrdered(t) && LiveVersionsKept(t) && u.id !in LiveIds(t.live)
    ensures var after := StoreTables(t, u, key, nextSeq + 1);
            && HistoryOrdered(after) && LiveVersionsKept(after)
  {
    KeepPriorSound(t, u.slot, nextSeq);
    PutRowVersions(KeepPrior(t, u.slot), u, Row(nextSeq + 1, u.id, key, |u.ciphertext|));
  }

  ghost predicate CanStore(d: Draft, u: Upload, key: Key) {
    u.id !in LiveIds(d.t.live) && u.id in d.t.pending && d.t.pending[u.id] == key
  }

  /** `e` is the draft after storing `u`; naming it keeps the proofs below small. */
  ghost predicate Stored(d: Draft, u: Upload, key: Key, e: Draft) {
    && e.t == StoreTables(d.t, u, key, d.seqno + 1) && e.seqno == d.seqno + 1
    && e.count == ProjectedCount(d, u) && e.bytes == ProjectedBytes(d, u)
  }

  lemma StoredKeys(d: Draft, u: Upload, key: Key, e: Draft)
    requires DraftSound(d) && CanStore(d, u, key) && Stored(d, u, key, e)
    ensures KeysAgree(e.t) && PendingApart(e.t)
    ensures RowKeys(e.t) == RowKeys(d.t) + {key} && PendingKeys(e.t) == PendingKeys(d.t) - {key}
  {
    StoreTablesKeys(d.t, u, key, d.seqno);
  }

  lemma StoredVersions(d: Draft, u: Upload, key: Key, e: Draft)
    requires DraftSound(d) && CanStore(d, u, key) && Stored(d, u, key, e)
    ensures HistoryOrdered(e.t) && LiveVersionsKept(e.t)
  {
    StoreTablesVersions(d.t, u, key, d.seqno);
  }

  lemma StoredLive(d: Draft, u: Upload, key: Key, e: Draft)
    requires DraftSound(d) && CanStore(d, u, key) && Stored(d, u, key, e)
    ensures LiveConsistent(e.t.live, e.seqno) && e.count == |e.t.live| && e.bytes == SumBytes(e.t.live)
    ensures LiveIds(e.t.live) <= LiveIds(d.t.live) + {u.id}
  {
    StoreTablesLive(d.t, u, key, d.seqno);
  }

  lemma StoreOneSound(d: Draft, u: Upload, key: Key, e: Draft)
    requires DraftSound(d) && CanStore(d, u, key) && Stored(d, u, key, e)
    ensures DraftSound(e)
    ensures RowKeys(e.t) == RowKeys(d.t) + {key} && PendingKeys(e.t) == PendingKeys(d.t) - {key}
    ensures LiveIds(e.t.live) <= LiveIds(d.t.live) + {u.id}
  {
    StoredKeys(d, u, key, e);
    StoredVersions(d, u, key, e);
    StoredLive(d, u, key, e);
  }

  lemma AfterStore(d: Draft, u: Upload, key: Key)
    requires DraftSound(d) && CanStore(d, u, key)
    ensures DraftSound(StoreOne(d, u, key))
    ensures LiveIds(StoreOne(d, u, key).t.live) <= LiveIds(d.t.live) + {u.id}
    ensures RowKeys(StoreOne(d, u, key).t) == RowKeys(d.t) + {key}
    ensures StoreOne(d, u, key).t.pending == d.t.pending - {u.id}
  {
    StoreOneSound(d, u, key, StoreOne(d, u, key));
  }

  // ---- A whole round's draft ------------------------------------------------

  /** The reservations a run of uploads needs are in place and their ids are new. */
  ghost predicate CanStoreAll(d: Draft, us: seq<Upload>, keys: map<Id, Key>) {
    && DistinctIds(us) && UploadIds(us) <= keys.Keys
    && UploadIds(us) !! LiveIds(d.t.live)
    && (forall id :: id in UploadIds(us) ==> id in d.t.pending && d.t.pending[id] == keys[id])
  }

  lemma UploadIdsAppend(us: seq<Upload>)
    requires us != []
    ensures UploadIds(us) == UploadIds(us[..|us| - 1]) + {us[|us| - 1].id}
  {
    assert us == us[..|us| - 1] + [us[|us| - 1]];
  }

  lemma NextCanStore(d: Draft, us: seq<Upload>, keys: map<Id, Key>, b: Draft)
    requires us != [] && CanStoreAll(d, us, keys)
    requires UploadIds(us) == UploadIds(us[..|us| - 1]) + {us[|us| - 1].id}
    requires b.t.pending == d.t.pending - UploadIds(us[..|us| - 1])
    requires LiveIds(b.t.live) <= LiveIds(d.t.live) + UploadIds(us[..|us| - 1])
    ensures var u := us[|us| - 1]; u.id in keys && CanStore(b, u, keys[u.id])
    ensures CanStoreAll(d, us[..|us| - 1], keys)
  {
    assert us[|us| - 1].id !in UploadIds(us[..|us| - 1]);
  }

  lemma StoreIds(b: Draft, u: Upload, keys: map<Id, Key>)
    requires u.id in keys
    ensures var e := StoreOne(b, u, keys[u.id]);
            && e.t.pending == b.t.pending - {u.id}
            && LiveIds(e.t.live) <= LiveIds(b.t.live) + {u.id}
            && e.seqno == b.seqno + 1
  {
  }

  lemma {:induction false} StoreAllIds(d: Draft, us: seq<Upload>, keys: map<Id, Key>, maxBytes: int)
    requires UploadIds(us) <= keys.Keys && StoreAll(d, us, keys, maxBytes).Some?
    ensures var e := StoreAll(d, us, keys, maxBytes).value;
            && e.t.pending == d.t.pending - UploadIds(us)
            && LiveIds(e.t.live) <= LiveIds(d.t.live) + UploadIds(us)
            && e.seqno == d.seqno + |us|
  {
    if us != [] {
      UploadIdsAppend(us);
      StoreAllIds(d, us[..|us| - 1], keys, maxBytes);
      StoreIds(StoreAll(d, us[..|us| - 1], keys, maxBytes).value, us[|us| - 1], keys);
    }
  }

  lemma {:induction false} StoreAllSound(d: Draft, us: seq<Upload>, keys: map<Id, Key>, maxBytes: int)
    requires DraftSound(d) && CanStoreAll(d, us, keys)
    requires StoreAll(d, us, keys, maxBytes).Some?
    ensures DraftSound(StoreAll(d, us, keys, maxBytes).value)
  {
    if us != [] {
      var n := |us| - 1;
      UploadIdsAppend(us);
      StoreAllIds(d, us[..n], keys, maxBytes);
      var b := StoreAll(d, us[..n], keys, maxBytes).value;
      NextCanStore(d, us, keys, b);
      StoreAllSound(d, us[..n], keys, maxBytes);
      AfterStore(b, us[n], keys[us[n].id]);
    }
  }

  lemma {:induction false} StoreAllNames(d: Draft, us: seq<Upload>, keys: map<Id, Key>, maxBytes: int)
    requires DraftSound(d) && CanStoreAll(d, us, keys)
    requires StoreAll(d, us, keys, maxBytes).Some?
    ensures var e := StoreAll(d, us, keys, maxBytes).value;
            && RowKeys(e.t) == RowKeys(d.t) + KeysFor(us, keys)
  {
    if us != [] {
      var n := |us| - 1;
      UploadIdsAppend(us);
      StoreAllNames(d, us[..n], keys, maxBytes);
      var b := StoreAll(d, us[..n], keys, maxBytes).value;
      LastNames(d, us, keys, maxBytes, b);
      KeysForAppend(us, keys);
    }
  }

  lemma LastNames(d: Draft, us: seq<Upload>, keys: map<Id, Key>, maxBytes: int, b: Draft)
    requires DraftSound(d) && CanStoreAll(d, us, keys) && us != [] && StoreAll(d, us, keys, maxBytes).Some?
    requires UploadIds(us[..|us| - 1]) <= keys.Keys && StoreAll(d, us[..|us| - 1], keys, maxBytes) == Some(b)
    ensures us[|us| - 1].id in keys
    ensures RowKeys(StoreAll(d, us, keys, maxBytes).value.t) == RowKeys(b.t) + {keys[us[|us| - 1].id]}
  {
    var n := |us| - 1;
    UploadIdsAppend(us);
    StoreAllIds(d, us[..n], keys, maxBytes);
    NextCanStore(d, us, keys, b);
    StoreAllSound(d, us[..n], keys, maxBytes);
    AfterStore(b, us[n], keys[us[n].id]);
  }

  lemma KeysForAppend(us: seq<Upload>, keys: map<Id, Key>)
    requires us != [] && UploadIds(us) <= keys.Keys
    ensures UploadIds(us[..|us| - 1]) <= keys.Keys && us[|us| - 1].id in keys
    ensures KeysFor(us, keys) == KeysFor(us[..|us| - 1], keys) + {keys[us[|us| - 1].id]}
  {
    UploadIdsAppend(us);
  }

  lemma StoreContinued(b: Draft, u: Upload, key: Key)
    requires LiveConsistent(b.t.live, b.seqno) && u.id !in LiveIds(b.t.live)
    requires b.continued !! LiveIds(b.t.live) && u.id !in b.continued
    ensures var e := StoreOne(b, u, key);
            && e.continued !! LiveIds(e.t.live) && e.continued <= b.continued + LiveIds(b.t.live)
  {
    var e := StoreOne(b, u, key);
    if u.slot in b.t.live {
      ReplacedIdGone(b.t.live, b.seqno, u, e.t.live);
    }
    assert LiveIds(e.t.live) <= LiveIds(b.t.live) + {u.id};
  }

  lemma ReplacedIdGone(live: map<Slot, Row>, nextSeq: nat, u: Upload, after: map<Slot, Row>)
    requires LiveConsistent(live, nextSeq) && u.slot in live && u.id !in LiveIds(live)
    requires u.slot in after && after[u.slot].id == u.id
    requires forall s :: s in after && s != u.slot ==> s in live && after[s] == live[s]
    ensures live[u.slot].id !in LiveIds(after) && live[u.slot].id in LiveIds(live)
  {
  }

  /** The versions that uploads continued are live no more. */
  lemma {:induction false} StoreAllContinued(d: Draft, us: seq<Upload>, keys: map<Id, Key>, maxBytes: int)
    requires DraftSound(d) && CanStoreAll(d, us, keys) && d.continued == {}
    requires StoreAll(d, us, keys, maxBytes).Some?
    ensures var e := StoreAll(d, us, keys, maxBytes).value;
            && e.continued !! LiveIds(e.t.live)
            && e.continued <= LiveIds(d.t.live) + UploadIds(us)
  {
    if us != [] {
      var n := |us| - 1;
      UploadIdsAppend(us);
      StoreAllIds(d, us[..n], keys, maxBytes);
      var b := StoreAll(d, us[..n], keys, maxBytes).value;
      NextCanStore(d, us, keys, b);
      StoreAllContinued(d, us[..n], keys, maxBytes);
      StoreAllSound(d, us[..n], keys, maxBytes);
      assert us[n].id !in UploadIds(us[..n]);
      StoreContinued(b, us[n], keys[us[n].id]);
    }
  }
}
