/** Promises of the coordinator that hold exactly under a condition, with the inputs that
    break them; and any run of rounds, each cut short anywhere. */
module RelayConditions {
  import opened Wrappers
  import opened Collections
  import opened RelayTables
  import opened RelayRound
  import opened RelayCommitProofs
  import opened RelayCleanup
  import opened RelayCleanupProofs
  import opened RelaySpec
  import opened RoundProofs
  import opened RelayTheorems
  import opened UsageProofs
  import opened Coordinator

  // ---- Objects that no row names -----------------------------------------------------

  ghost predicate Unnamed(d: Disk, k: Key) {
    k in d.bucket && k !in RowKeys(d.t) && k !in PendingKeys(d.t)
  }

  lemma UnnamedStaysDropped(d: Disk, gone: set<nat>, k: Key)
    requires Unnamed(d, k)
    ensures Unnamed(DropHistory(d, gone), k)
  {
    DropRowsKeys(d.t, gone);
    forall h | h in gone && h in d.t.history ensures d.t.history[h].key in RowKeys(d.t) {
      assert d.t.history[h].key in HistoryKeys(d.t.history);
    }
  }

  lemma UnnamedStaysStaged(d: Disk, slots: set<Slot>, k: Key)
    requires Unnamed(d, k)
    ensures Unnamed(DropStagedRows(d, slots), k)
  {
    forall s | s in d.t.staged ensures d.t.staged[s].key in LiveKeys(d.t.staged) {}
  }

  lemma UnnamedStaysCleared(d: Disk, rq: Request, keys: map<Id, Key>, e: Draft, clock: int, window: nat, k: Key)
    requires d.t.account.Some? && UploadIds(rq.uploads) <= keys.Keys
    requires Unnamed(CommitDisk(d, rq, keys, e, clock), k)
    ensures Unnamed(ClearedDisk(d, rq, keys, e, clock, window), k)
  {
    var c := CommitDisk(d, rq, keys, e, clock);
    var removed := Removed(d.t, rq.deletions);
    UnnamedStaysDropped(c, DeletedVersions(c.t, removed), k);
    UnnamedStaysStaged(DropHistory(c, DeletedVersions(c.t, removed)), removed, k);
    var p := Purge(c, removed);
    UnnamedStaysDropped(p, Expired(p.t, Touched(AcceptedOf(d, rq), rq.deletions), e.continued, window), k);
  }

  lemma UnnamedStaysSettled(d: Disk, rq: Request, e: Draft, q: Disk, r: Disk, k: Key)
    requires d.t.account.Some? && r == SettledDisk(d, rq, e, q) && Unnamed(q, k)
    ensures Unnamed(r, k)
  {
    var usage, room := Settling(d, rq, e, q);
    UnnamedStaysDropped(q, Evicted(q.t, usage, room), k);
  }

  lemma DraftUnnamed(d: Disk, rq: Request, keys: map<Id, Key>, e: Draft) returns (k: Key)
    requires Sound(d) && AllNamed(d) && FreshKeys(d, rq.uploads, keys) && DraftOf(d, rq, keys, e)
    requires !RestageSafe(d, rq.deletions)
    ensures UploadIds(AcceptedOf(d, rq)) <= keys.Keys
    ensures Unnamed(Disk(e.t, WrittenDisk(d, rq, keys).bucket), k)
  {
    WrittenKeepsAll(d, rq, keys);
    var w := WrittenDisk(d, rq, keys);
    CanPlan(d, rq, keys);
    DraftIsOn(d, rq, keys, e);
    if RestageSafe(w, rq.deletions) { RestageBack(d, rq, keys); }
    CommitNames(w, AcceptedOf(d, rq), rq.deletions, keys, MaxBytes(d.t.account.value, rq), e);
    k := OneUnnamed(Disk(e.t, w.bucket));
  }

  lemma OneUnnamed(d: Disk) returns (k: Key)
    requires !AllNamed(d)
    ensures Unnamed(d, k)
  {
    k :| k in d.bucket.Keys && k !in RowKeys(d.t) + PendingKeys(d.t);
  }

  lemma CommitUnnamed(d: Disk, rq: Request, keys: map<Id, Key>, e: Draft, clock: int) returns (k: Key)
    requires Sound(d) && AllNamed(d) && FreshKeys(d, rq.uploads, keys) && DraftOf(d, rq, keys, e)
    requires !RestageSafe(d, rq.deletions)
    ensures Unnamed(CommitDisk(d, rq, keys, e, clock), k)
  {
    k := DraftUnnamed(d, rq, keys, e);
    SameNames(e.t, CommitDisk(d, rq, keys, e, clock).t);
  }

  lemma RestageBack(d: Disk, rq: Request, keys: map<Id, Key>)
    requires Sound(d) && FreshKeys(d, rq.uploads, keys) && UploadIds(AcceptedOf(d, rq)) <= keys.Keys
    requires RestageSafe(WrittenDisk(d, rq, keys), rq.deletions)
    ensures RestageSafe(d, rq.deletions)
  {
    var us := AcceptedOf(d, rq);
    var w := WrittenDisk(d, rq, keys);
    ObjectKeysWritten(d.bucket - Superseded(d.t, us), us, keys);
    forall s | s in Removed(d.t, rq.deletions) && s in d.t.staged && d.t.staged[s].key in d.bucket
      ensures d.t.staged[s].key in HistoryKeys(d.t.history)
    {
      assert d.t.staged[s].key in LiveKeys(d.t.staged);
      assert d.t.staged[s].key !in PendingKeys(d.t);
      assert Superseded(d.t, us) <= PendingKeys(d.t);
      assert s in Removed(w.t, rq.deletions);
    }
  }

  /** A finished round leaves every stored object named if and only if no deletion of it
      stages its copy over a leftover one whose object nothing else names. The coordinator
      replaces such a leftover row and the object stays in the bucket for good. */
  lemma ObjectsStayNamed(d: Disk, rq: Request, keys: map<Id, Key>, e: Draft, clock: int, window: nat, r: Disk)
    requires Sound(d) && AllNamed(d) && FreshKeys(d, rq.uploads, keys) && DraftOf(d, rq, keys, e) && window >= 1
    requires IsFinal(d, rq, keys, e, clock, window, r)
    ensures AllNamed(r) <==> RestageSafe(d, rq.deletions)
  {
    FinishRound(d, rq, keys, e, clock, window, r);
    if !RestageSafe(d, rq.deletions) {
      var k := CommitUnnamed(d, rq, keys, e, clock);
      assert Removed(d.t, rq.deletions) != {};
      var q := ClearedDisk(d, rq, keys, e, clock, window);
      UnnamedStaysCleared(d, rq, keys, e, clock, window, k);
      FinalSettles(d, rq, keys, e, clock, window, r);
      UnnamedStaysSettled(d, rq, e, q, r, k);
    }
  }

  const SLOT := Slot("s")
  const FIRST := Row(1, Id("a"), Key("ka"), 1)
  const SECOND := Row(2, Id("b"), Key("kb"), 1)

  /** A record deleted in a round that was cut short before its purge, then written again
      until its old version left the history window. */
  function LeftoverDisk(): Disk {
    Disk(Tables(Some(Account(2, 1, 1, 3, 3, None)), map[SLOT := SECOND],
                map[2 := Version(SLOT, SECOND.id, SECOND.key, 1)], 3, map[SLOT := FIRST], map[], Usage(0, 0)),
         map[FIRST.key := "x", SECOND.key := "y"])
  }

  lemma OneRecordCounts(t: Tables)
    requires t.account == Some(Account(2, 1, 1, 3, 3, None)) && t.live == map[SLOT := SECOND]
    ensures CountersExact(t)
  {
    var empty: map<Slot, Row> := map[];
    SumBytesUpdate(empty, SLOT, SECOND);
    assert Sizes(empty) == map[];
    assert empty[SLOT := SECOND] == t.live;
  }

  lemma LeftoverVersions()
    ensures LiveVersionsKept(LeftoverDisk().t) && HistoryOrdered(LeftoverDisk().t)
  {
    assert NewestVersion(LeftoverDisk().t, SLOT, 2);
  }

  lemma LeftoverKeys()
    ensures KeysAgree(LeftoverDisk().t) && PendingApart(LeftoverDisk().t) && AllNamed(LeftoverDisk())
  {
    var t := LeftoverDisk().t;
    assert t.live[SLOT].key in LiveKeys(t.live);
    assert t.staged[SLOT].key in LiveKeys(t.staged);
    assert Claims(t) == {(FIRST.key, SLOT, FIRST.id), (SECOND.key, SLOT, SECOND.id)};
  }

  /** Such a disk is sound with every object named. */
  lemma LeftoverSound()
    ensures Sound(LeftoverDisk()) && AllNamed(LeftoverDisk())
  {
    var t := LeftoverDisk().t;
    OneRecordCounts(t);
    LeftoverVersions();
    LeftoverKeys();
    assert ObjectsPresent(LeftoverDisk());
    assert LiveConsistent(t.live, 2);
  }

  const AGAIN := Request(2, [], [Deletion(SECOND.id, SLOT)], 1, 0)

  lemma LeftoverUnsafe()
    ensures !RestageSafe(LeftoverDisk(), AGAIN.deletions)
  {
    var t := LeftoverDisk().t;
    var x := AGAIN.deletions[0];
    assert Matches(t, x) && x in AGAIN.deletions;
    assert SLOT in Removed(t, AGAIN.deletions);
    assert forall h :: h in t.history ==> h == 2;
  }

  /** Deleting the record again orphans an object, though nothing fails. */
  lemma LeftoverOrphans(clock: int, window: nat) returns (e: Draft, r: Disk)
    requires window >= 1
    ensures DraftOf(LeftoverDisk(), AGAIN, map[], e) && IsFinal(LeftoverDisk(), AGAIN, map[], e, clock, window, r)
    ensures !AllNamed(r)
  {
    var d := LeftoverDisk();
    e := RoundDraft(d.t, d.t.account.value, AGAIN, map[], MaxBytes(d.t.account.value, AGAIN)).value;
    r := FinalDisk(d, AGAIN, map[], e, clock, window);
    LeftoverSound();
    LeftoverUnsafe();
    ObjectsStayNamed(d, AGAIN, map[], e, clock, window, r);
  }

  // ---- A usage that drifts -----------------------------------------------------------------

  /** A record with one older version, counted as such. */
  function CountedDisk(): Disk {
    Disk(Tables(Some(Account(2, 1, 1, 3, 3, None)), map[SLOT := SECOND],
                map[1 := Version(SLOT, FIRST.id, FIRST.key, 1), 2 := Version(SLOT, SECOND.id, SECOND.key, 1)], 3,
                  map[], map[],
                Usage(1, 1)),
         map[FIRST.key := "x", SECOND.key := "y"])
  }

  /** One upload the account holds already, and a new record. */
  const HELD_AND_NEW := Request(2, [Upload(SECOND.id, SLOT, "y", None, false),
    Upload(Id("c"), Slot("t"), "z", None, false)], [], 1, 10_000)
  const DRAWN: map<Id, Key> := map[SECOND.id := Key("k1"), Id("c") := Key("k2")]

  lemma CountedSound()
    ensures Sound(CountedDisk())
  {
    var t := CountedDisk().t;
    OneRecordCounts(t);
    CountedKeys();
    assert NewestVersion(t, SLOT, 2);
    assert LiveConsistent(t.live, 2);
    assert ObjectsPresent(CountedDisk());
  }

  lemma CountedKeys()
    ensures KeysAgree(CountedDisk().t) && PendingApart(CountedDisk().t)
  {
    var t := CountedDisk().t;
    assert HistoryClaims(t.history) == {(FIRST.key, SLOT, FIRST.id), (SECOND.key, SLOT, SECOND.id)} by {
      assert (t.history[1].key, t.history[1].slot, t.history[1].id) == (FIRST.key, SLOT, FIRST.id);
      assert (t.history[2].key, t.history[2].slot, t.history[2].id) == (SECOND.key, SLOT, SECOND.id);
      assert 1 in t.history && 2 in t.history;
    }
    assert SLOT in t.live && RowClaims(t.live) == {(t.live[SLOT].key, SLOT, t.live[SLOT].id)}
        && RowClaims(t.staged) == {};
  }

  lemma CountedExactly()
    ensures CountedDisk().t.usage == TrueUsage(CountedDisk().t)
  {
    var t := CountedDisk().t;
    assert Older(t, 1) && !Older(t, 2);
    assert OlderAll(t) == {1};
    var none: map<nat, nat> := map[];
    SumInsert(none, 1, 1);
    assert Only(VersionSizes(t.history), {1}) == none[1 := 1];
  }

  lemma HeldIsDropped()
    ensures AcceptedOf(CountedDisk(), HELD_AND_NEW) == [HELD_AND_NEW.uploads[1]]
  {
    var us, held := HELD_AND_NEW.uploads, LiveIds(CountedDisk().t.live);
    assert CountedDisk().t.live[SLOT].id in held;
    assert us[..2] == us && us[..1] == [us[0]] && us[..0] == [];
    assert Accepted([us[0]], held) == [];
    assert held == {SECOND.id};
  }

  lemma OneFits(b: Draft, u: Upload, keys: map<Id, Key>, maxBytes: int)
    requires u.id in keys && UploadIds([u]) <= keys.Keys && !OverQuota(b, u, maxBytes)
    ensures StoreAll(b, [u], keys, maxBytes).Some?
  {
    assert [u][..0] == [];
    assert StoreAll(b, [u][..0], keys, maxBytes) == Some(b);
  }

  lemma HeldFits()
    ensures UploadIds(HELD_AND_NEW.uploads) <= DRAWN.Keys
    ensures var d := CountedDisk();
      RoundDraft(d.t, d.t.account.value, HELD_AND_NEW, DRAWN, MaxBytes(d.t.account.value, HELD_AND_NEW)).Some?
  {
    var d, u := CountedDisk(), HELD_AND_NEW.uploads[1];
    HeldIsDropped();
    var b := Start(Reserved(d.t, [u], DRAWN), d.t.account.value);
    assert DeleteAll(b, HELD_AND_NEW.deletions) == b;
    OneFits(b, u, DRAWN, 10_000);
  }

  lemma DrawnAreFresh()
    ensures FreshKeys(CountedDisk(), HELD_AND_NEW.uploads, DRAWN)
  {
    var t := CountedDisk().t;
    assert RowKeys(t) + PendingKeys(t) + CountedDisk().bucket.Keys <= {FIRST.key, SECOND.key};
  }

  lemma HeldIsAllowed()
    ensures Changes(CountedDisk(), HELD_AND_NEW) && IdsAtHome(CountedDisk(), AcceptedOf(CountedDisk(), HELD_AND_NEW))
  {
    HeldIsDropped();
    assert CountedDisk().t.live.Keys == {SLOT};
  }

  lemma HeldIsUntouched()
    ensures OlderIn(CountedDisk().t, Untouched(CountedDisk(), HELD_AND_NEW)) != {}
  {
    var d := CountedDisk();
    HeldIsDropped();
    assert HELD_AND_NEW.uploads[0] in HELD_AND_NEW.uploads;
    assert SLOT in Untouched(d, HELD_AND_NEW);
    assert Older(d.t, 1) && 1 in OlderIn(d.t, Untouched(d, HELD_AND_NEW));
  }

  /** A round with a held upload to it forgets the older version, though nothing fails. */
  lemma HeldUploadForgets(clock: int, window: nat) returns (e: Draft, r: Disk)
    requires window >= 1
    ensures DraftOf(CountedDisk(), HELD_AND_NEW, DRAWN, e)
        && IsFinal(CountedDisk(), HELD_AND_NEW, DRAWN, e, clock, window, r)
    ensures CountedDisk().t.usage == TrueUsage(CountedDisk().t) && r.t.usage != TrueUsage(r.t)
  {
    HeldFits();
    e, r := HeldRound(CountedDisk(), HELD_AND_NEW, DRAWN, clock, window);
    CountedSound();
    CountedExactly();
    DrawnAreFresh();
    HeldIsAllowed();
    HeldIsUntouched();
    UsageStaysExact(CountedDisk(), HELD_AND_NEW, DRAWN, e, clock, window, r);
  }

  lemma HeldRound(d: Disk, rq: Request, keys: map<Id, Key>, clock: int, window: nat) returns (e: Draft, r: Disk)
    requires d.t.account.Some? && UploadIds(rq.uploads) <= keys.Keys
    requires RoundDraft(d.t, d.t.account.value, rq, keys, MaxBytes(d.t.account.value, rq)).Some?
    ensures DraftOf(d, rq, keys, e) && IsFinal(d, rq, keys, e, clock, window, r)
  {
    e := RoundDraft(d.t, d.t.account.value, rq, keys, MaxBytes(d.t.account.value, rq)).value;
    r := FinalDisk(d, rq, keys, e, clock, window);
  }

  // ---- Any run of rounds -------------------------------------------------------------------

  /** One request to the coordinator, with the object keys it would draw, the time it runs
      at, and how many storage calls succeed before one throws. */
  datatype Event = Event(rq: Request, keys: map<Id, Key>, clock: int, calls: nat)

  /** Serves requests one after another; a request whose keys are not new is not drawn. */
  method Serve(c: AccountCoordinator, events: seq<Event>) returns (answers: seq<Answer>)
    requires c.window >= 1 && Sound(c.disk)
    modifies c
    ensures Sound(c.disk)
    ensures c.disk.t.account.value.nextSeq >= old(c.disk.t.account.value.nextSeq)
    ensures |answers| == |events|
  {
    answers := [];
    var i := 0;
    while i < |events|
      invariant 0 <= i <= |events| && |answers| == i
      invariant Sound(c.disk)
      invariant c.disk.t.account.value.nextSeq >= old(c.disk.t.account.value.nextSeq)
    {
      var ev := events[i];
      var answer := Failed;
      if IsFresh(c.disk, ev.rq.uploads, ev.keys) {
        ghost var d := c.disk;
        FreshIs(d, ev.rq.uploads, ev.keys);
        c.callsLeft := ev.calls;
        answer := c.Sync(ev.rq, ev.keys, ev.clock);
      }
      answers := answers + [answer];
      i := i + 1;
    }
  }

  predicate IsFresh(d: Disk, us: seq<Upload>, keys: map<Id, Key>) {
    && UploadIds(us) <= keys.Keys
    && (forall i :: i in keys ==> forall j :: j in keys && keys[i] == keys[j] ==> i == j)
    && (forall i :: i in keys ==> keys[i] !in RowKeys(d.t) + PendingKeys(d.t) + d.bucket.Keys)
  }

  lemma FreshIs(d: Disk, us: seq<Upload>, keys: map<Id, Key>)
    requires IsFresh(d, us, keys)
    ensures FreshKeys(d, us, keys)
  {
  }
}
