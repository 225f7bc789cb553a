/** What a round does to the records, what doing it again does, and which answers change
    nothing. */
module RelayEffects {
  import opened Wrappers
  import opened RelayTables
  import opened RelayRound
  import opened RelayRoundProofs
  import opened RelayCommitProofs
  import opened RelaySpec
  import opened RoundProofs
  import opened RelayTheorems

  // ---- The records after a round ----------------------------------------------------

  /** The position of the last upload to a slot, or -1. */
  function LastTo(us: seq<Upload>, s: Slot): (i: int)
    ensures -1 <= i < |us|
    ensures i >= 0 ==> us[i].slot == s
    ensures forall j :: i < j < |us| ==> us[j].slot != s
  {
    if us == [] then -1
    else if us[|us| - 1].slot == s then |us| - 1
    else LastTo(us[..|us| - 1], s)
  }

  /** The row upload `i` of a round stores: sequence numbers go up by one per upload. */
  function StoredRow(us: seq<Upload>, keys: map<Id, Key>, nextSeq: nat, i: nat): Row
    requires i < |us| && us[i].id in keys
  {
    Row(nextSeq + i + 1, us[i].id, keys[us[i].id], |us[i].ciphertext|)
  }

  ghost predicate SlotAfter(live: map<Slot, Row>, us: seq<Upload>, keys: map<Id, Key>, nextSeq: nat, s: Slot,
                            after: map<Slot, Row>)
  {
    var i := LastTo(us, s);
    if i >= 0 then us[i].id in keys && s in after && after[s] == StoredRow(us, keys, nextSeq, i)
    else (s in after <==> s in live) && (s in live ==> after[s] == live[s])
  }

  lemma {:induction false} StoreAllSlot(d: Draft, us: seq<Upload>, keys: map<Id, Key>, maxBytes: int, s: Slot)
    requires UploadIds(us) <= keys.Keys && StoreAll(d, us, keys, maxBytes).Some?
    ensures SlotAfter(d.t.live, us, keys, d.seqno, s, StoreAll(d, us, keys, maxBytes).value.t.live)
  {
    if us != [] {
      var n := |us| - 1;
      UploadIdsAppend(us);
      StoreAllIds(d, us[..n], keys, maxBytes);
      StoreAllSlot(d, us[..n], keys, maxBytes, s);
    }
  }

  /** What becomes of each record: the last accepted upload to its slot, or gone if a
      deletion named its live version, or untouched. */
  lemma RoundEffect(d: Disk, rq: Request, keys: map<Id, Key>, e: Draft, clock: int, window: nat, r: Disk, s: Slot)
    requires Sound(d) && FreshKeys(d, rq.uploads, keys) && DraftOf(d, rq, keys, e) && window >= 1
    requires IsFinal(d, rq, keys, e, clock, window, r)
    ensures UploadIds(AcceptedOf(d, rq)) <= keys.Keys
    ensures SlotAfter(d.t.live - Removed(d.t, rq.deletions), AcceptedOf(d, rq), keys, d.t.account.value.nextSeq, s,
        r.t.live)
  {
    FinalStorage(d, rq, keys, e, clock, window, r);
    AcceptedIds(d, rq, keys);
    var start := Start(BaseOf(d, rq, keys), d.t.account.value);
    DeleteAllEffect(start, rq.deletions);
    DeleteAllTotals(start, rq.deletions);
    StoreAllSlot(DeleteAll(start, rq.deletions), AcceptedOf(d, rq), keys, MaxBytes(d.t.account.value, rq), s);
  }

  // ---- Sending a committed round again --------------------------------------------------

  /** The round names each slot once and reuses no id across slots. */
  ghost predicate Plain(d: Disk, rq: Request) {
    && (forall i, j :: 0 <= i < j < |rq.uploads| ==> rq.uploads[i].slot != rq.uploads[j].slot)
    && DistinctIds(rq.uploads)
    && UploadSlots(rq.uploads) !! DeletionSlots(rq.deletions)
    && (forall u, s :: u in rq.uploads && s in d.t.live && d.t.live[s].id == u.id ==> s == u.slot)
  }

  lemma UploadsHeld(d: Disk, rq: Request, keys: map<Id, Key>, e: Draft, clock: int, window: nat, r: Disk, u: Upload)
    requires Sound(d) && FreshKeys(d, rq.uploads, keys) && DraftOf(d, rq, keys, e) && window >= 1
    requires IsFinal(d, rq, keys, e, clock, window, r) && Plain(d, rq) && u in rq.uploads
    ensures u.slot in r.t.live && r.t.live[u.slot].id == u.id
  {
    RoundEffect(d, rq, keys, e, clock, window, r, u.slot);
    LastIsHeld(d, rq, keys, d.t.account.value.nextSeq, r, u);
  }

  lemma LastIsHeld(d: Disk, rq: Request, keys: map<Id, Key>, nextSeq: nat, r: Disk, u: Upload)
    requires Plain(d, rq) && u in rq.uploads
    requires SlotAfter(d.t.live - Removed(d.t, rq.deletions), AcceptedOf(d, rq), keys, nextSeq, u.slot, r.t.live)
    ensures u.slot in r.t.live && r.t.live[u.slot].id == u.id
  {
    var us := AcceptedOf(d, rq);
    AcceptedAreNew(rq.uploads, LiveIds(d.t.live));
    var i := LastTo(us, u.slot);
    if i >= 0 {
      assert us[i] in us;
      SameSlot(rq.uploads, u, us[i]);
    } else {
      assert u.slot in UploadSlots(rq.uploads);
      assert u.slot !in Removed(d.t, rq.deletions);
      if u.id !in LiveIds(d.t.live) {
        var w :| w in us && w.id == u.id;
        SameUpload(rq.uploads, u, w);
      }
    }
  }

  lemma SameUpload(us: seq<Upload>, u: Upload, w: Upload)
    requires DistinctIds(us) && u in us && w in us && u.id == w.id
    ensures u == w
  {
    var i :| 0 <= i < |us| && us[i] == u;
    var j :| 0 <= j < |us| && us[j] == w;
  }

  lemma SameSlot(us: seq<Upload>, u: Upload, w: Upload)
    requires forall i, j :: 0 <= i < j < |us| ==> us[i].slot != us[j].slot
    requires u in us && w in us && u.slot == w.slot
    ensures u == w
  {
    var i :| 0 <= i < |us| && us[i] == u;
    var j :| 0 <= j < |us| && us[j] == w;
  }

  lemma DeletionsDone(d: Disk, rq: Request, keys: map<Id, Key>, e: Draft, clock: int, window: nat, r: Disk)
    requires Sound(d) && FreshKeys(d, rq.uploads, keys) && DraftOf(d, rq, keys, e) && window >= 1
    requires IsFinal(d, rq, keys, e, clock, window, r) && Plain(d, rq)
    ensures Removed(r.t, rq.deletions) == {}
  {
    AcceptedAreNew(rq.uploads, LiveIds(d.t.live));
    forall x | x in rq.deletions ensures !Matches(r.t, x) {
      RoundEffect(d, rq, keys, e, clock, window, r, x.slot);
      assert x.slot in DeletionSlots(rq.deletions);
      assert UploadSlots(AcceptedOf(d, rq)) <= UploadSlots(rq.uploads);
      if Matches(d.t, x) {
        assert x.slot in Removed(d.t, rq.deletions);
      }
    }
  }

  lemma {:induction false} AllHeld(us: seq<Upload>, live: map<Slot, Row>)
    requires forall u :: u in us ==> u.slot in live && live[u.slot].id == u.id
    ensures Accepted(us, LiveIds(live)) == [] && ConflictSlots(live, us) == []
  {
    if us != [] {
      var n := |us| - 1;
      assert us == us[..n] + [us[n]];
      AllHeld(us[..n], live);
      assert us[n] in us;
      assert live[us[n].slot].id in LiveIds(live);
    }
  }

  /** A drained client that sends a committed round again is told its writes are accepted,
      and nothing changes but the account's last-seen time. */
  lemma ResendChangesNothing(d: Disk, rq: Request, keys: map<Id, Key>, e: Draft, clock: int, window: nat, r: Disk,
                             again: Request, keys': map<Id, Key>, clock': int, answer: Answer, after: Disk)
    requires Sound(d) && FreshKeys(d, rq.uploads, keys) && DraftOf(d, rq, keys, e) && window >= 1
    requires IsFinal(d, rq, keys, e, clock, window, r) && Plain(d, rq)
    requires again == rq.(cursor := again.cursor) && r.t.account.Some? && again.cursor <= r.t.account.value.nextSeq
    requires SeqsAbove(r.t.live, again.cursor) == {}
    requires FreshKeys(r, again.uploads, keys') && Answered(r, again, keys', clock', window, answer, after)
    ensures after == TouchedDisk(r, clock')
    ensures answer == Reply(Max(again.cursor, r.t.account.value.nextSeq), [], [], false, false, true,
        AccountReport(r.t, again))
  {
    forall u | u in rq.uploads ensures u.slot in r.t.live && r.t.live[u.slot].id == u.id {
      UploadsHeld(d, rq, keys, e, clock, window, r, u);
    }
    AllHeld(rq.uploads, r.t.live);
    DeletionsDone(d, rq, keys, e, clock, window, r);
    FinishRound(d, rq, keys, e, clock, window, r);
    NothingAbove(r, again.cursor, AtLeastOne(again.downloadLimit));
    IdleRound(r, again, keys', clock', window, answer, after);
  }

  lemma NothingAbove(r: Disk, cursor: int, limit: nat)
    requires SeqsAbove(r.t.live, cursor) == {}
    ensures Candidates(r.t.live, cursor, limit) == []
  {
  }

  /** A round that accepts no upload and removes nothing leaves the disk as it was. */
  lemma IdleRound(r: Disk, rq: Request, keys: map<Id, Key>, clock: int, window: nat, answer: Answer, after: Disk)
    requires Sound(r) && FreshKeys(r, rq.uploads, keys) && Answered(r, rq, keys, clock, window, answer, after)
    requires r.t.account.Some? && rq.cursor <= r.t.account.value.nextSeq
    requires Candidates(r.t.live, rq.cursor, AtLeastOne(rq.downloadLimit)) == []
    requires ConflictSlots(r.t.live, rq.uploads) == [] && !Changes(r, rq)
    ensures after == TouchedDisk(r, clock)
    ensures answer == Reply(Max(rq.cursor, r.t.account.value.nextSeq), [], [], false, false, true,
        AccountReport(r.t, rq))
  {
    var a := r.t.account.value;
    AcceptedIds(r, rq, keys);
    assert Written(r, rq, keys, clock, window, answer, after);
    NothingToWrite(r, rq, keys);
    DeleteAllTotals(Start(BaseOf(r, rq, keys), a), rq.deletions);
    assert RoundDraft(r.t, a, rq, keys, MaxBytes(a, rq)) == Some(Start(r.t, a));
    IdleCommit(r, rq, keys, clock);
  }

  /** A reset, a page, conflicts and a refusal for the quota leave every record, version,
      counter and object as it was, and so does any round that asks for no write. */
  lemma RefusedChangesNothing(d: Disk, rq: Request, keys: map<Id, Key>, clock: int, window: nat, answer: Answer,
                              after: Disk)
    requires Sound(d) && FreshKeys(d, rq.uploads, keys) && Answered(d, rq, keys, clock, window, answer, after)
    requires answer.Reply? && answer.writesAccepted ==> !rq.Mutates()
    ensures after.bucket == d.bucket && after.t.account.Some?
    ensures after.t == d.t.(account := Some(d.t.account.value.(lastSeenAt := after.t.account.value.lastSeenAt)))
  {
    var drained := rq.cursor <= d.t.account.value.nextSeq
      && Candidates(d.t.live, rq.cursor, AtLeastOne(rq.downloadLimit)) == []
        && ConflictSlots(d.t.live, rq.uploads) == [];
    if drained && answer.Reply? && answer.writesAccepted {
      IdleRound(d, rq, keys, clock, window, answer, after);
    }
    assert after == d || after == TouchedDisk(d, clock);
  }

  lemma IdleCommit(r: Disk, rq: Request, keys: map<Id, Key>, clock: int)
    requires r.t.account.Some? && UploadIds(rq.uploads) <= keys.Keys && !Changes(r, rq)
    ensures CommitDisk(r, rq, keys, Start(r.t, r.t.account.value), clock) == TouchedDisk(r, clock)
  {
    assert Superseded(r.t, []) == {};
    assert r.bucket - {} == r.bucket;
  }
}
