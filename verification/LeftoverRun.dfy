/** How an account comes to hold a leftover copy: a write, a delete cut short right after its
    commit, and another write, with a history of one version. */
module LeftoverRun {
  import opened Wrappers
  import opened Collections
  import opened RelayTables
  import opened RelayRound
  import opened RelayCleanup
  import opened RelayCleanupProofs
  import opened RelaySpec
  import opened RoundProofs
  import opened RelayTheorems
  import opened RelayConditions
  import opened RelayRuns

  // ---- A round that writes one new record ----------------------------------------------------

  function NewRecord(d: Disk, a: Account, u: Upload, key: Key): Draft {
    var row := Row(a.nextSeq + 1, u.id, key, |u.ciphertext|);
    Draft(Append(d.t.(live := d.t.live[u.slot := row]), u.slot, row), a.envelopeCount + 1,
          a.ciphertextBytes + |u.ciphertext|,
          a.nextSeq + 1, {}, {})
  }

  /** The round writes the one upload, to a slot that is free, and it fits. */
  ghost predicate WritesOne(d: Disk, a: Account, rq: Request, keys: map<Id, Key>, u: Upload, key: Key) {
    && d.t.account == Some(a) && d.t.pending == map[] && u.slot !in d.t.live && u.id !in LiveIds(d.t.live)
    && rq.uploads == [u] && rq.deletions == [] && keys == map[u.id := key]
    && StorageBytes(a.envelopeCount + 1, a.ciphertextBytes + |u.ciphertext|) <= MaxBytes(a, rq)
  }

  lemma OneAccepted(d: Disk, rq: Request, u: Upload)
    requires rq.uploads == [u] && u.id !in LiveIds(d.t.live)
    ensures AcceptedOf(d, rq) == [u]
  {
    assert [u][..0] == [];
    assert Accepted([u][..0], LiveIds(d.t.live)) == [];
  }

  lemma OneDraft(d: Disk, a: Account, rq: Request, keys: map<Id, Key>, u: Upload, key: Key)
    requires WritesOne(d, a, rq, keys, u, key)
    ensures UploadIds(rq.uploads) <= keys.Keys && DraftOf(d, rq, keys, NewRecord(d, a, u, key))
  {
    OneAccepted(d, rq, u);
    assert UploadIds([u]) == {u.id};
    var t := Reserved(d.t, [u], keys);
    assert t.pending == map[u.id := key];
    var b := Start(t, a);
    assert DeleteAll(b, rq.deletions) == b;
    assert [u][..0] == [];
    assert StoreAll(b, [u][..0], keys, MaxBytes(a, rq)) == Some(b);
    assert StoreAll(b, [u], keys, MaxBytes(a, rq)) == Some(StoreOne(b, u, key));
    StoredOnFree(d, t, a, u, key);
  }

  lemma StoredOnFree(d: Disk, t: Tables, a: Account, u: Upload, key: Key)
    requires t == d.t.(pending := map[u.id := key]) && d.t.pending == map[] && u.slot !in d.t.live
    ensures StoreOne(Start(t, a), u, key) == NewRecord(d, a, u, key)
  {
    assert t.pending - {u.id} == map[];
  }

  lemma OneCommit(d: Disk, a: Account, rq: Request, keys: map<Id, Key>, u: Upload, key: Key, clock: int)
    requires WritesOne(d, a, rq, keys, u, key)
    ensures UploadIds(rq.uploads) <= keys.Keys
    ensures var e, now := NewRecord(d, a, u, key), Now(a, clock);
      CommitDisk(d, rq, keys, e, clock) ==
        Disk(e.t.(account := Some(Account(e.seqno, e.count, e.bytes, now, now, a.quota))),
          d.bucket[key := u.ciphertext])
  {
    OneAccepted(d, rq, u);
    assert UploadIds([u]) == {u.id};
    assert Superseded(d.t, [u]) == {};
    assert d.bucket - {} == d.bucket;
    assert [u][..0] == [];
    assert WithObjects(d.bucket, [u][..0], keys) == d.bucket;
  }

  // ---- A round whose clean-up drops only versions ---------------------------------------------

  /** With no older version before or after, clearing away drops what expired and no more. */
  lemma QuietEnd(d: Disk, rq: Request, keys: map<Id, Key>, e: Draft, clock: int, window: nat, c: Disk, q: Disk)
    requires d.t.account.Some? && UploadIds(rq.uploads) <= keys.Keys && Changes(d, rq) && rq.deletions == []
    requires c == CommitDisk(d, rq, keys, e, clock) && e.continued == {}
    requires q == Prune(c, Touched(AcceptedOf(d, rq), []), {}, window)
    requires OlderAll(d.t) == {} && OlderAll(q.t) == {} && d.t.usage == Usage(0, 0) && q.t.usage == Usage(0, 0)
    ensures FinalDisk(d, rq, keys, e, clock, window) == q
  {
    PurgeNothing(c);
    assert Removed(d.t, rq.deletions) == {};
    assert ClearedDisk(d, rq, keys, e, clock, window) == q;
    NoUsage(d.t, Touched(rq.uploads, rq.deletions));
    NoUsage(q.t, Touched(AcceptedOf(d, rq), rq.deletions));
    var usage, room := Settling(d, rq, e, q);
    NothingEvicted(q, room);
  }

  lemma NoUsage(t: Tables, slots: set<Slot>)
    requires OlderAll(t) == {}
    ensures UsageIn(t, slots) == Usage(0, 0)
  {
    assert OlderIn(t, slots) == {} by {
      assert forall h :: h in OlderIn(t, slots) ==> h in OlderAll(t);
    }
    assert Only(VersionSizes(t.history), {}) == map[];
  }

  lemma NothingEvicted(q: Disk, room: int)
    requires q.t.usage == Usage(0, 0)
    ensures Evict(q, Usage(0, 0), room) == q
  {
    assert Evicted(q.t, Usage(0, 0), room) == {};
    DropNothing(q);
    assert Only(VersionSizes(q.t.history), {}) == map[];
  }

  // ---- The run ----------------------------------------------------------------------------------

  const FIRST_PUT := Upload(FIRST.id, SLOT, "x", None, false)
  const SECOND_PUT := Upload(SECOND.id, SLOT, "y", None, false)
  const FIRST_WRITE := Request(0, [FIRST_PUT], [], 1, 10_000)
  const FIRST_DELETE := Request(1, [], [Deletion(FIRST.id, SLOT)], 1, 10_000)
  const SECOND_WRITE := Request(1, [SECOND_PUT], [], 1, 10_000)
  const FIRST_DRAWN: map<Id, Key> := map[FIRST.id := FIRST.key]
  const SECOND_DRAWN: map<Id, Key> := map[SECOND.id := SECOND.key]

  function NewDisk(): Disk {
    Disk(Tables(Some(Account(0, 0, 0, 0, 0, None)), map[], map[], 1, map[], map[], Usage(0, 0)), map[])
  }

  /** One record, stored at a time. */
  function StoredAt(now: int): Disk {
    Disk(Tables(Some(Account(1, 1, 1, now, now, None)), map[SLOT := FIRST],
                map[1 := Version(SLOT, FIRST.id, FIRST.key, 1)], 2, map[], map[], Usage(0, 0)), map[FIRST.key := "x"])
  }

  function StoredDisk(): Disk { StoredAt(1) }

  function CutShortDisk(): Disk {
    Disk(Tables(Some(Account(1, 0, 0, 2, 2, None)), map[], map[1 := Version(SLOT, FIRST.id, FIRST.key, 1)], 2,
                map[SLOT := FIRST], map[], Usage(0, 0)), map[FIRST.key := "x"])
  }

  function FirstDraft(): Draft { NewRecord(NewDisk(), NewDisk().t.account.value, FIRST_PUT, FIRST.key) }

  lemma FirstRound(clock: int)
    requires clock >= 1
    ensures DraftOf(NewDisk(), FIRST_WRITE, FIRST_DRAWN, FirstDraft())
    ensures IsFinal(NewDisk(), FIRST_WRITE, FIRST_DRAWN, FirstDraft(), clock, 1, StoredAt(clock))
  {
    var d, a := NewDisk(), NewDisk().t.account.value;
    var e, c := FirstDraft(), StoredAt(clock);
    assert d.t.live == map[] && LiveIds(d.t.live) == {};
    assert WritesOne(d, a, FIRST_WRITE, FIRST_DRAWN, FIRST_PUT, FIRST.key);
    OneDraft(d, a, FIRST_WRITE, FIRST_DRAWN, FIRST_PUT, FIRST.key);
    OneCommit(d, a, FIRST_WRITE, FIRST_DRAWN, FIRST_PUT, FIRST.key, clock);
    assert CommitDisk(d, FIRST_WRITE, FIRST_DRAWN, e, clock) == c;
    OneAccepted(d, FIRST_WRITE, FIRST_PUT);
    NothingExpired(clock);
    assert !Older(c.t, 1) && OlderAll(c.t) == {};
    QuietEnd(d, FIRST_WRITE, FIRST_DRAWN, e, clock, 1, c, c);
  }

  lemma NothingExpired(now: int)
    ensures Prune(StoredAt(now), Touched([FIRST_PUT], []), {}, 1) == StoredAt(now)
  {
    var c := StoredAt(now);
    assert NewerKept(c.t.history, 1, {}) == {};
    assert Expired(c.t, Touched([FIRST_PUT], []), {}, 1) == {};
    DropNothing(c);
  }

  /** The delete, cut short right after its commit. */
  lemma DeleteCommitted() returns (e: Draft)
    ensures DraftOf(StoredDisk(), FIRST_DELETE, map[], e)
    ensures CommitDisk(StoredDisk(), FIRST_DELETE, map[], e, 2) == CutShortDisk()
  {
    var d, a, x := StoredDisk(), StoredDisk().t.account.value, FIRST_DELETE.deletions[0];
    assert UploadIds(FIRST_DELETE.uploads) == {};
    assert Reserved(d.t, [], map[]) == d.t by { assert UploadIds([]) == {}; assert d.t.pending == map[]; }
    var b := Start(d.t, a);
    assert [x][..0] == [] && DeleteAll(b, [x][..0]) == b;
    e := DeleteOne(b, x);
    assert DeleteAll(b, FIRST_DELETE.deletions) == e;
    assert AcceptedOf(d, FIRST_DELETE) == [];
    assert Matches(d.t, x) && x in FIRST_DELETE.deletions && SLOT in Removed(d.t, FIRST_DELETE.deletions);
    assert Superseded(d.t, []) == {};
    assert d.bucket - {} == d.bucket;
    assert e.t.live == map[] && e.t.staged == map[SLOT := FIRST];
  }

  /** The disk once the second write is committed, before its clean-up. */
  function BothVersionsDisk(): Disk {
    Disk(Tables(Some(Account(2, 1, 1, 3, 3, None)), map[SLOT := SECOND],
                map[1 := Version(SLOT, FIRST.id, FIRST.key, 1), 2 := Version(SLOT, SECOND.id, SECOND.key, 1)], 3,
                map[SLOT := FIRST], map[], Usage(0, 0)), map[FIRST.key := "x", SECOND.key := "y"])
  }

  lemma FirstExpires()
    ensures Prune(BothVersionsDisk(), Touched([SECOND_PUT], []), {}, 1) == LeftoverDisk()
  {
    var c, slots := BothVersionsDisk(), Touched([SECOND_PUT], []);
    assert Expired(c.t, slots, {}, 1) == {1} by {
      assert SECOND_PUT.slot in UploadSlots([SECOND_PUT]);
      OneExpired(c.t, slots);
    }
    FirstGone();
  }

  lemma FirstGone()
    ensures DropHistory(BothVersionsDisk(), {1}) == LeftoverDisk()
  {
    NoneLoose(BothVersionsDisk().t);
    FirstDropped(BothVersionsDisk(), LeftoverDisk());
  }

  lemma FirstDropped(c: Disk, q: Disk)
    requires c.bucket == q.bucket && q.t == c.t.(history := q.t.history) && Loose(c.t, {1}) == {}
    requires 1 in c.t.history && c.t.history == q.t.history[1 := c.t.history[1]] && 1 !in q.t.history
    ensures DropHistory(c, {1}) == q
  {
    assert c.t.history - {1} == q.t.history;
    assert c.bucket - {} == c.bucket;
  }

  lemma OneExpired(t: Tables, slots: set<Slot>)
    requires t.history == map[1 := Version(SLOT, FIRST.id, FIRST.key, 1), 2 := Version(SLOT, SECOND.id, SECOND.key, 1)]
    requires SLOT in slots
    ensures Expired(t, slots, {}, 1) == {1}
  {
    assert 2 in NewerKept(t.history, 1, {}) && |NewerKept(t.history, 1, {})| > 0;
    assert NewerKept(t.history, 2, {}) == {};
  }

  lemma NoneLoose(t: Tables)
    requires t.staged == map[SLOT := FIRST] && 1 in t.history && t.history[1].key == FIRST.key
    ensures Loose(t, {1}) == {}
  {
    assert t.staged[SLOT].key in LiveKeys(t.staged);
  }

  lemma SecondRound()
    ensures DraftOf(CutShortDisk(), SECOND_WRITE, SECOND_DRAWN,
                    NewRecord(CutShortDisk(), CutShortDisk().t.account.value, SECOND_PUT, SECOND.key))
    ensures IsFinal(CutShortDisk(), SECOND_WRITE, SECOND_DRAWN,
                    NewRecord(CutShortDisk(), CutShortDisk().t.account.value, SECOND_PUT, SECOND.key), 3, 1,
                      LeftoverDisk())
  {
    var d, a := CutShortDisk(), CutShortDisk().t.account.value;
    var e := NewRecord(d, a, SECOND_PUT, SECOND.key);
    assert d.t.live == map[] && LiveIds(d.t.live) == {};
    assert WritesOne(d, a, SECOND_WRITE, SECOND_DRAWN, SECOND_PUT, SECOND.key);
    OneDraft(d, a, SECOND_WRITE, SECOND_DRAWN, SECOND_PUT, SECOND.key);
    OneCommit(d, a, SECOND_WRITE, SECOND_DRAWN, SECOND_PUT, SECOND.key, 3);
    OneAccepted(d, SECOND_WRITE, SECOND_PUT);
    var c := BothVersionsDisk();
    assert CommitDisk(d, SECOND_WRITE, SECOND_DRAWN, e, 3) == c;
    FirstExpires();
    assert OlderAll(d.t) == {} && !Older(LeftoverDisk().t, 2) && OlderAll(LeftoverDisk().t) == {};
    QuietEnd(d, SECOND_WRITE, SECOND_DRAWN, e, 3, 1, c, LeftoverDisk());
  }

  /** From a new account: a record is written, deleted by a round cut short right after its
      commit, and written again by a round that ran to its end. The old copy is left over. */
  lemma LeftoverReached() returns (e1: Draft, e2: Draft, e3: Draft)
    ensures Accounted(NewDisk())
    ensures DraftOf(NewDisk(), FIRST_WRITE, FIRST_DRAWN, e1)
        && IsFinal(NewDisk(), FIRST_WRITE, FIRST_DRAWN, e1, 1, 1, StoredDisk())
    ensures DraftOf(StoredDisk(), FIRST_DELETE, map[], e2)
    ensures CommitDisk(StoredDisk(), FIRST_DELETE, map[], e2, 2) == CutShortDisk()
    ensures DraftOf(CutShortDisk(), SECOND_WRITE, SECOND_DRAWN, e3)
    ensures IsFinal(CutShortDisk(), SECOND_WRITE, SECOND_DRAWN, e3, 3, 1, LeftoverDisk())
  {
    NewAccount(0, None);
    FirstRound(1);
    SecondRound();
    e1 := FirstDraft();
    e2 := DeleteCommitted();
    e3 := NewRecord(CutShortDisk(), CutShortDisk().t.account.value, SECOND_PUT, SECOND.key);
  }
}
