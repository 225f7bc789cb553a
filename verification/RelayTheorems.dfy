/** What a relay round guarantees, over every state and request. */
module RelayTheorems {
  import opened RelayTables
  import opened RelayRound
  import opened RelayRoundProofs
  import opened RelayCommitProofs
  import opened RelayCleanup
  import opened RelayCleanupProofs
  import opened RelaySpec
  import opened RoundProofs
  import opened UsageProofs

  // ---- A round that runs to its end keeps the storage sound -----------------------

  lemma {:induction false} WriteAllKeeps(d: Disk, us: seq<Upload>, keys: map<Id, Key>)
    requires Sound(d) && UploadIds(us) <= keys.Keys
    requires forall u :: u in us ==> u.id in d.t.pending && u.id in keys && d.t.pending[u.id] == keys[u.id]
    ensures Keeps(d, Disk(d.t, WithObjects(d.bucket, us, keys)))
  {
    KeepsItself(d);
    if us != [] {
      var n := |us| - 1;
      UploadIdsAppend(us);
      WriteAllKeeps(d, us[..n], keys);
      var b := Disk(d.t, WithObjects(d.bucket, us[..n], keys));
      assert us[n] in us;
      PutKeeps(b, us, keys, us[n]);
      KeepsTrans(d, b, Disk(d.t, WithObjects(d.bucket, us, keys)));
    }
  }

  lemma WrittenKeepsAll(d: Disk, rq: Request, keys: map<Id, Key>)
    requires Sound(d) && FreshKeys(d, rq.uploads, keys)
    ensures UploadIds(AcceptedOf(d, rq)) <= keys.Keys && Keeps(d, WrittenDisk(d, rq, keys))
  {
    AcceptedIds(d, rq, keys);
    var us := AcceptedOf(d, rq);
    var d1 := Disk(d.t, d.bucket - Superseded(d.t, us));
    DropReservedKeeps(d, us, Superseded(d.t, us));
    ReserveKeeps(d1, us, keys);
    var d2 := Disk(Reserved(d.t, us, keys), d1.bucket);
    KeepsTrans(d, d1, d2);
    forall u | u in us ensures u.id in d2.t.pending && u.id in keys && d2.t.pending[u.id] == keys[u.id] {
      assert u.id in UploadIds(us);
    }
    WriteAllKeeps(d2, us, keys);
    KeepsTrans(d, d2, WrittenDisk(d, rq, keys));
  }

  lemma CommitRound(d: Disk, rq: Request, keys: map<Id, Key>, e: Draft, clock: int)
    requires Sound(d) && FreshKeys(d, rq.uploads, keys) && DraftOf(d, rq, keys, e)
    ensures CommittedRound(d, rq, keys, e, clock, CommitDisk(d, rq, keys, e, clock))
  {
    WrittenKeepsAll(d, rq, keys);
    Commits(d, rq, keys, e, clock);
  }

  lemma ClearRound(d: Disk, rq: Request, keys: map<Id, Key>, e: Draft, clock: int, window: nat)
    requires Sound(d) && FreshKeys(d, rq.uploads, keys) && DraftOf(d, rq, keys, e) && window >= 1
    ensures ClearedRound(d, rq, keys, e, clock, window, ClearedDisk(d, rq, keys, e, clock, window))
    ensures Keeps(CommitDisk(d, rq, keys, e, clock), ClearedDisk(d, rq, keys, e, clock, window))
  {
    var c := CommitDisk(d, rq, keys, e, clock);
    var removed := Removed(d.t, rq.deletions);
    CommitRound(d, rq, keys, e, clock);
    PurgeSound(c, removed);
    var p := Purge(c, removed);
    CanPrune(d, rq, keys, e, clock, c, p);
    PruneSound(p, TouchedOf(d, rq), e.continued, window);
    Clears(d, rq, keys, e, clock, window, c, p, ClearedDisk(d, rq, keys, e, clock, window));
    KeepsTrans(c, p, ClearedDisk(d, rq, keys, e, clock, window));
  }

  lemma EvictKeeps(q: Disk, usage: Usage, room: int)
    requires Sound(q)
    ensures Keeps(q, Evict(q, usage, room))
  {
    EvictSound(q, usage, room);
    var r := DropHistory(q, Evicted(q.t, usage, room));
    UsageKeeps(r, Spare(q.t, usage, room));
    KeepsTrans(q, r, Evict(q, usage, room));
  }

  lemma Settling(d: Disk, rq: Request, e: Draft, q: Disk) returns (usage: Usage, room: int)
    requires d.t.account.Some?
    ensures usage == UsageAfter(d.t, rq, AcceptedOf(d, rq), q.t)
    ensures room == MaxBytes(d.t.account.value, rq) - StorageBytes(e.count, e.bytes)
    ensures SettledDisk(d, rq, e, q) == Evict(q, usage, room)
  {
    usage := UsageAfter(d.t, rq, AcceptedOf(d, rq), q.t);
    room := MaxBytes(d.t.account.value, rq) - StorageBytes(e.count, e.bytes);
  }

  lemma SettledKeeps(d: Disk, rq: Request, e: Draft, q: Disk, r: Disk)
    requires Sound(q) && d.t.account.Some? && r == SettledDisk(d, rq, e, q)
    ensures Keeps(q, r)
  {
    var usage, room := Settling(d, rq, e, q);
    EvictKeeps(q, usage, room);
  }

  /** `r` is what the round leaves when nothing fails. */
  ghost predicate IsFinal(d: Disk, rq: Request, keys: map<Id, Key>, e: Draft, clock: int, window: nat, r: Disk) {
    && d.t.account.Some? && UploadIds(rq.uploads) <= keys.Keys && r == FinalDisk(d, rq, keys, e, clock, window)
  }

  lemma FinalSettles(d: Disk, rq: Request, keys: map<Id, Key>, e: Draft, clock: int, window: nat, r: Disk)
    requires IsFinal(d, rq, keys, e, clock, window, r) && Changes(d, rq)
    ensures r == SettledDisk(d, rq, e, ClearedDisk(d, rq, keys, e, clock, window))
  {
  }

  lemma FinalCommits(d: Disk, rq: Request, keys: map<Id, Key>, e: Draft, clock: int, window: nat, r: Disk)
    requires IsFinal(d, rq, keys, e, clock, window, r) && !Changes(d, rq)
    ensures r == CommitDisk(d, rq, keys, e, clock)
  {
  }

  lemma FinishRound(d: Disk, rq: Request, keys: map<Id, Key>, e: Draft, clock: int, window: nat, r: Disk)
    requires Sound(d) && FreshKeys(d, rq.uploads, keys) && DraftOf(d, rq, keys, e) && window >= 1
    requires IsFinal(d, rq, keys, e, clock, window, r)
    ensures RoundKeeps(d, rq, CommitDisk(d, rq, keys, e, clock), r) && Keeps(CommitDisk(d, rq, keys, e, clock), r)
  {
    var c := CommitDisk(d, rq, keys, e, clock);
    CommitRound(d, rq, keys, e, clock);
    if Changes(d, rq) {
      var q := ClearedDisk(d, rq, keys, e, clock, window);
      FinalSettles(d, rq, keys, e, clock, window, r);
      ClearRound(d, rq, keys, e, clock, window);
      SettledKeeps(d, rq, e, q, r);
      KeepsTrans(c, q, r);
    } else {
      FinalCommits(d, rq, keys, e, clock, window, r);
      KeepsItself(c);
    }
    CleanedKeeps(d, rq, c, c, r);
  }

  // ---- The quota --------------------------------------------------------------------

  /** What live records take: their bytes, and the overhead of each. */
  ghost function LiveStorage(t: Tables): int { StorageBytes(|t.live|, SumBytes(t.live)) }

  lemma {:induction false} DeletionsFree(d: Draft, ds: seq<Deletion>)
    ensures StorageBytes(DeleteAll(d, ds).count, DeleteAll(d, ds).bytes) <= StorageBytes(d.count, d.bytes)
  {
    if ds != [] { DeletionsFree(d, ds[..|ds| - 1]); }
  }

  lemma {:induction false} UploadsFit(d: Draft, us: seq<Upload>, keys: map<Id, Key>, maxBytes: int)
    requires UploadIds(us) <= keys.Keys && StoreAll(d, us, keys, maxBytes).Some?
    ensures var e := StoreAll(d, us, keys, maxBytes).value;
            StorageBytes(e.count, e.bytes) <= Max(maxBytes, StorageBytes(d.count, d.bytes))
  {
    if us != [] { UploadsFit(d, us[..|us| - 1], keys, maxBytes); }
  }

  lemma DraftTotals(d: Disk, rq: Request, keys: map<Id, Key>, e: Draft)
    requires Sound(d) && FreshKeys(d, rq.uploads, keys) && DraftOf(d, rq, keys, e)
    ensures StorageBytes(e.count, e.bytes) == LiveStorage(e.t)
  {
    WrittenKeepsAll(d, rq, keys);
    CanPlan(d, rq, keys);
    DraftIsOn(d, rq, keys, e);
    DraftCommits(WrittenDisk(d, rq, keys), AcceptedOf(d, rq), rq.deletions, keys, MaxBytes(d.t.account.value, rq), e);
  }

  /** After an accepted round the live records take at most the larger of the quota and
      what they took before it. */
  lemma QuotaKept(d: Disk, rq: Request, keys: map<Id, Key>, e: Draft, clock: int, window: nat, r: Disk)
    requires Sound(d) && FreshKeys(d, rq.uploads, keys) && DraftOf(d, rq, keys, e) && window >= 1
    requires IsFinal(d, rq, keys, e, clock, window, r)
    ensures LiveStorage(r.t) <= Max(MaxBytes(d.t.account.value, rq), LiveStorage(d.t))
  {
    FinalStorage(d, rq, keys, e, clock, window, r);
    AcceptedIds(d, rq, keys);
    var start := Start(BaseOf(d, rq, keys), d.t.account.value);
    DeletionsFree(start, rq.deletions);
    UploadsFit(DeleteAll(start, rq.deletions), AcceptedOf(d, rq), keys, MaxBytes(d.t.account.value, rq));
  }

  lemma FinalStorage(d: Disk, rq: Request, keys: map<Id, Key>, e: Draft, clock: int, window: nat, r: Disk)
    requires Sound(d) && FreshKeys(d, rq.uploads, keys) && DraftOf(d, rq, keys, e) && window >= 1
    requires IsFinal(d, rq, keys, e, clock, window, r)
    ensures LiveStorage(r.t) == StorageBytes(e.count, e.bytes) && r.t.live == e.t.live
  {
    FinishRound(d, rq, keys, e, clock, window, r);
    CommitRound(d, rq, keys, e, clock);
    DraftTotals(d, rq, keys, e);
  }

  // ---- The history usage -------------------------------------------------------------

  lemma SettledDrift(d: Disk, rq: Request, e: Draft, q: Disk, r: Disk)
    requires d.t.account.Some? && SameOutside(d.t, q.t, TouchedOf(d, rq)) && r == SettledDisk(d, rq, e, q)
    ensures Drift(r.t) == Minus(Drift(d.t), UsageIn(d.t, Untouched(d, rq)))
  {
    var usage, room := Settling(d, rq, e, q);
    UsageAfterDrift(d, rq, q.t);
    EvictUsage(q, usage, room);
  }

  /** A finished round that changed something takes off the kept usage, beyond what it
      should, just the older versions of the records it names without touching them. */
  lemma DriftMoves(d: Disk, rq: Request, keys: map<Id, Key>, e: Draft, clock: int, window: nat, r: Disk)
    requires Sound(d) && FreshKeys(d, rq.uploads, keys) && DraftOf(d, rq, keys, e) && window >= 1
    requires Changes(d, rq) && IdsAtHome(d, AcceptedOf(d, rq)) && IsFinal(d, rq, keys, e, clock, window, r)
    ensures Drift(r.t) == Minus(Drift(d.t), UsageIn(d.t, Untouched(d, rq)))
  {
    WrittenKeepsAll(d, rq, keys);
    ClearedSame(d, rq, keys, e, clock, window);
    FinalSettles(d, rq, keys, e, clock, window, r);
    SettledDrift(d, rq, e, ClearedDisk(d, rq, keys, e, clock, window), r);
  }

  /** A finished round that changed something leaves the usage exact if and only if the
      records it names without touching them, their uploads being held already, have no
      older versions. */
  lemma UsageStaysExact(d: Disk, rq: Request, keys: map<Id, Key>, e: Draft, clock: int, window: nat, r: Disk)
    requires Sound(d) && FreshKeys(d, rq.uploads, keys) && DraftOf(d, rq, keys, e) && window >= 1
    requires Changes(d, rq) && IdsAtHome(d, AcceptedOf(d, rq)) && d.t.usage == TrueUsage(d.t)
    requires IsFinal(d, rq, keys, e, clock, window, r)
    ensures r.t.usage == TrueUsage(r.t) <==> OlderIn(d.t, Untouched(d, rq)) == {}
  {
    DriftMoves(d, rq, keys, e, clock, window, r);
    ExactUnless(d.t, r.t, Untouched(d, rq));
  }

  lemma ExactUnless(t: Tables, after: Tables, slots: set<Slot>)
    requires t.usage == TrueUsage(t) && Drift(after) == Minus(Drift(t), UsageIn(t, slots))
    ensures after.usage == TrueUsage(after) <==> OlderIn(t, slots) == {}
  {
    NoOlder(t, slots);
    NoDrift(t);
    NoDrift(after);
  }

  /** Cut short at any point from its commit to the end of the clean-up before the quota is
      looked at, a round leaves the kept usage off by what it did to the records it touched. */
  lemma CutShortDrift(d: Disk, rq: Request, keys: map<Id, Key>, e: Draft, clock: int, window: nat)
    requires Sound(d) && FreshKeys(d, rq.uploads, keys) && DraftOf(d, rq, keys, e)
    requires IdsAtHome(d, AcceptedOf(d, rq))
    ensures var c, slots := CommitDisk(d, rq, keys, e, clock), TouchedOf(d, rq);
            Drift(c.t) == Minus(Plus(Drift(d.t), UsageIn(d.t, slots)), UsageIn(c.t, slots))
    ensures var q, slots := ClearedDisk(d, rq, keys, e, clock, window), TouchedOf(d, rq);
            Drift(q.t) == Minus(Plus(Drift(d.t), UsageIn(d.t, slots)), UsageIn(q.t, slots))
  {
    WrittenKeepsAll(d, rq, keys);
    CommitSame(d, rq, keys, e, clock);
    ClearedSame(d, rq, keys, e, clock, window);
    CanPlan(d, rq, keys);
    DraftIsOn(d, rq, keys, e);
    DriftUnsaved(d.t, CommitDisk(d, rq, keys, e, clock).t, TouchedOf(d, rq));
    DriftUnsaved(d.t, ClearedDisk(d, rq, keys, e, clock, window).t, TouchedOf(d, rq));
  }

  lemma SettledFits(d: Disk, rq: Request, e: Draft, q: Disk, r: Disk)
    requires d.t.account.Some? && d.t.usage == TrueUsage(d.t) && SameOutside(d.t, q.t, TouchedOf(d, rq))
    requires OlderIn(d.t, Untouched(d, rq)) == {} && r == SettledDisk(d, rq, e, q)
    ensures UsageBytes(r.t.usage) <= MaxBytes(d.t.account.value, rq) - StorageBytes(e.count, e.bytes)
            || OlderAll(r.t) == {}
  {
    var usage, room := Settling(d, rq, e, q);
    UsageAfterDrift(d, rq, q.t);
    NoOlder(d.t, Untouched(d, rq));
    NoDrift(d.t);
    EvictFits(q, usage, room);
  }

  /** With the usage exact, a finished round ends with live records and history together in
      the quota, or with no older version left. */
  lemma QuotaMet(d: Disk, rq: Request, keys: map<Id, Key>, e: Draft, clock: int, window: nat, r: Disk)
    requires Sound(d) && FreshKeys(d, rq.uploads, keys) && DraftOf(d, rq, keys, e) && window >= 1
    requires Changes(d, rq) && IdsAtHome(d, AcceptedOf(d, rq)) && d.t.usage == TrueUsage(d.t)
    requires OlderIn(d.t, Untouched(d, rq)) == {} && IsFinal(d, rq, keys, e, clock, window, r)
    ensures LiveStorage(r.t) + UsageBytes(TrueUsage(r.t)) <= MaxBytes(d.t.account.value, rq) || OlderAll(r.t) == {}
  {
    FinalStorage(d, rq, keys, e, clock, window, r);
    UsageStaysExact(d, rq, keys, e, clock, window, r);
    WrittenKeepsAll(d, rq, keys);
    ClearedSame(d, rq, keys, e, clock, window);
    FinalSettles(d, rq, keys, e, clock, window, r);
    SettledFits(d, rq, e, ClearedDisk(d, rq, keys, e, clock, window), r);
  }
}
