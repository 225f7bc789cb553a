/**
 The coordinator's round as it runs: storage call by storage call, any of which may throw.
 `callsLeft` counts the calls that still succeed, so a round started with any value of it
 may be cut short at any call, and the storage it leaves is what the next round finds.
 */
module Coordinator {
  import opened Wrappers
  import opened Collections
  import opened SyncLimits
  import opened RelayTables
  import opened RelayRound
  import opened RelayRoundProofs
  import opened RelayCommitProofs
  import opened RelayCleanup
  import opened RelayCleanupProofs
  import opened RelaySpec
  import opened StatementProofs
  import opened PlanProofs
  import opened RoundProofs

  const HISTORY_CHUNK := 49

  class AccountCoordinator {
    /** Versions kept per record, the live one included. */
    const window: nat
    /** The D1 tables and the R2 bucket this coordinator writes. */
    var disk: Disk
    var callsLeft: nat

    constructor (window: nat, disk: Disk)
      ensures this.window == window && this.disk == disk
    {
      this.window, this.disk, this.callsLeft := window, disk, 0;
    }

    method Call() returns (ok: bool)
      modifies this`callsLeft
      ensures ok ==> callsLeft < old(callsLeft)
    {
      ok := callsLeft > 0;
      if ok { callsLeft := callsLeft - 1; }
    }

    /** One D1 batch: all of it or, on a violated index or a failed call, nothing. */
    method Batch(statements: seq<Statement>) returns (ok: bool)
      modifies this
      ensures ok ==> ApplyAll(old(disk.t), statements) == Some(disk.t) && disk.bucket == old(disk.bucket)
      ensures !ok ==> disk == old(disk)
    {
      ok := Call();
      if ok {
        var applied := ApplyAll(disk.t, statements);
        ok := applied.Some?;
        if ok { disk := disk.(t := applied.value); }
      }
    }

    /** Deletes objects in no particular order; a failed call leaves any of them behind. */
    method DeleteObjects(keys: set<Key>) returns (ok: bool, ghost done: set<Key>)
      modifies this
      ensures done <= keys && disk == Disk(old(disk.t), old(disk.bucket) - done)
      ensures ok ==> done == keys
    {
      var rest := keys;
      ok, done := true, {};
      assert disk.bucket - {} == disk.bucket;
      while rest != {}
        invariant rest <= keys && done == keys - rest
        invariant disk == Disk(old(disk.t), old(disk.bucket) - done)
        decreases rest
      {
        ok := Call();
        if !ok { return; }
        var k :| k in rest;
        disk := disk.(bucket := disk.bucket - {k});
        rest, done := rest - {k}, done + {k};
      }
      ok := true;
    }

    /** One chunk of history rows: first the objects nothing else names, then the rows. */
    method DropChunk(chunk: set<nat>) returns (ok: bool)
      requires Sound(disk) && SparesLive(disk.t, chunk)
      modifies this
      ensures Keeps(old(disk), disk)
      ensures ok ==> disk == DropHistory(old(disk), chunk)
      ensures Within(disk.bucket, old(disk.bucket))
    {
      ghost var d0 := disk;
      KeepsItself(d0);
      ok := Call();
      if !ok { return; }
      ghost var done;
      ok, done := DeleteObjects(Loose(disk.t, chunk));
      LooseCutShort(d0, chunk, done);
      if !ok { return; }
      ok := Batch([DropVersions(chunk)]);
      if ok {
        DropVersionsApplies(d0.t, chunk);
        DropHistoryKeeps(d0, chunk);
      }
    }

    /** Drops history rows, with the objects only they name, chunk by chunk. */
    method DropHistoryRows(rows: seq<nat>) returns (ok: bool)
      requires Sound(disk) && SparesLive(disk.t, SetOf(rows))
      modifies this
      ensures Keeps(old(disk), disk)
      ensures ok ==> disk == DropHistory(old(disk), SetOf(rows))
      ensures Within(disk.bucket, old(disk.bucket))
    {
      ghost var d0 := disk;
      var i := 0;
      ok := true;
      NoChunksYet(d0, rows);
      while i < |rows|
        invariant 0 <= i <= |rows|
        invariant ChunksDone(d0, rows, i, disk) && Within(disk.bucket, d0.bucket)
      {
        var next := if i + HISTORY_CHUNK < |rows| then i + HISTORY_CHUNK else |rows|;
        ghost var d := disk;
        ChunkSpares(d0, d, rows, i, next);
        ok := DropChunk(SetOf(rows[i..next]));
        KeepsTrans(d0, d, disk);
        if !ok { return; }
        ChunkDone(d0, d, rows, i, next);
        i := next;
      }
      ok := true;
      AllChunksDone(d0, rows, disk);
    }

    /** Records deleted for good: their versions, then the staged copies' objects and rows. */
    method PurgeDeletedRecords(slots: set<Slot>) returns (ok: bool)
      requires Sound(disk)
      modifies this
      ensures Keeps(old(disk), disk)
      ensures ok ==> disk == Purge(old(disk), slots)
      ensures Within(disk.bucket, old(disk.bucket))
    {
      ghost var d0 := disk;
      KeepsItself(d0);
      ok := Call();
      if !ok { return; }
      var gone := DeletedVersions(disk.t, slots);
      var rows := Sort(gone);
      AscendingSet(gone);
      DeletedSpares(disk.t, slots);
      ok := DropHistoryRows(rows);
      if !ok { return; }
      ghost var d1 := disk;
      ok := DropStagedCopies(slots);
      KeepsTrans(d0, d1, disk);
    }

    method DropStagedCopies(slots: set<Slot>) returns (ok: bool)
      requires Sound(disk)
      modifies this
      ensures Keeps(old(disk), disk)
      ensures ok ==> disk == DropStagedRows(old(disk), slots)
      ensures Within(disk.bucket, old(disk.bucket))
    {
      ghost var d0 := disk;
      KeepsItself(d0);
      ok := Call();
      if !ok { return; }
      ghost var done;
      ok, done := DeleteObjects(StagedLoose(disk.t, slots));
      StagedCutShort(d0, slots, done);
      if !ok { return; }
      ok := Batch([DropStaged(StagedIn(disk.t, slots))]);
      if ok {
        ApplyOne(d0.t, DropStaged(StagedIn(d0.t, slots)));
        DropStagedKeeps(d0, slots);
      }
    }

    method PruneHistory(slots: set<Slot>, continued: set<Id>) returns (ok: bool)
      requires Sound(disk) && window >= 1 && continued !! LiveIds(disk.t.live)
      modifies this
      ensures Keeps(old(disk), disk)
      ensures ok ==> disk == Prune(old(disk), slots, continued, window)
      ensures Within(disk.bucket, old(disk.bucket))
    {
      ghost var d0 := disk;
      KeepsItself(d0);
      if slots == {} {
        DropNothing(d0);
        return true;
      }
      ok := Call();
      if !ok { return; }
      var gone := Expired(disk.t, slots, continued, window);
      var rows := Sort(gone);
      AscendingSet(gone);
      ExpiredSpares(disk.t, slots, continued, window);
      ok := DropHistoryRows(rows);
    }

    /** Evicts the oldest older versions until live records and history fit. */
    method EvictOldest(usage: Usage, room: int) returns (ok: bool, left: Usage)
      requires Sound(disk)
      modifies this
      ensures Keeps(old(disk), disk)
      ensures ok ==> disk == DropHistory(old(disk), Evicted(old(disk.t), usage, room))
                     && left == Spare(old(disk.t), usage, room)
      ensures Within(disk.bucket, old(disk.bucket))
    {
      ghost var d0 := disk;
      left := usage;
      KeepsItself(d0);
      if UsageBytes(usage) <= room || usage.versions <= 0 {
        DropNothing(d0);
        NoBytes(d0.t);
        return true, usage;
      }
      ok := Call();
      if !ok { return; }
      var gone;
      gone, left := ChooseEvicted(disk.t, usage, room);
      EvictedAreOlder(d0.t, usage, room);
      OlderSpares(d0.t, Evicted(d0.t, usage, room));
      ok := DropHistoryRows(gone);
    }

    /** Writes the reserved objects in no particular order; a failed call leaves any missing. */
    method PutObjects(us: seq<Upload>, keys: map<Id, Key>) returns (ok: bool)
      requires ReadyToWrite(disk, us, keys)
      modifies this
      ensures Keeps(old(disk), disk)
      ensures ok ==> disk == Disk(old(disk.t), WithObjects(old(disk.bucket), us, keys))
      ensures Within(disk.bucket, WithObjects(old(disk.bucket), us, keys))
    {
      ghost var d0 := disk;
      var todo := set u | u in us;
      ghost var done := {};
      ok := true;
      WriteNone(d0, us, keys);
      while todo != {}
        invariant done + todo == set u | u in us
        invariant Writing(d0, us, keys, done, disk)
        decreases todo
      {
        ok := Call();
        if !ok {
          WrittenKeeps(d0, us, keys, done, disk);
          return;
        }
        var u :| u in todo;
        WriteOne(d0, us, keys, done, disk, u);
        disk := Disk(disk.t, disk.bucket[keys[u.id] := u.ciphertext]);
        todo, done := todo - {u}, done + {u};
      }
      ok := true;
      WrittenKeeps(d0, us, keys, done, disk);
    }

    /** Drops what earlier attempts left, reserves the new keys, and writes the bytes. */
    method ReserveAndWrite(us: seq<Upload>, keys: map<Id, Key>) returns (ok: bool)
      requires Sound(disk) && FreshKeys(disk, us, keys) && DistinctIds(us)
      modifies this
      ensures Keeps(old(disk), disk)
      ensures ok ==> disk == Disk(Reserved(old(disk.t), us, keys),
                                  WithObjects(old(disk.bucket) - Superseded(old(disk.t), us), us, keys))
      ensures Within(disk.bucket, WithObjects(old(disk.bucket), us, keys))
    {
      ghost var d0 := disk;
      ghost var done;
      FoundStays(d0, us, keys);
      ok, done := DeleteObjects(Superseded(disk.t, us));
      DropReservedKeeps(d0, us, done);
      if !ok { return; }
      WithinWritten(disk.bucket, d0.bucket, us, keys);
      ghost var d1 := disk;
      StillFresh(d0, us, keys);
      ok := Batch(Reservations(us, keys));
      if !ok { return; }
      ReservationsApply(d1.t, us, keys);
      ReserveKeeps(d1, us, keys);
      ghost var d2 := disk;
      KeepsTrans(d0, d1, d2);
      ReadyOnceReserved(d1, us, keys);
      ok := PutObjects(us, keys);
      KeepsTrans(d0, d2, disk);
    }

    /** Moves the account's last-seen time when that is due. */
    method Touch(a: Account, clock: int) returns (ok: bool)
      requires disk.t.account == Some(a)
      modifies this
      ensures ok ==> disk == TouchedDisk(old(disk), clock)
      ensures !ok ==> disk == old(disk)
    {
      ghost var d0 := disk;
      ok := true;
      if TouchDue(a, clock) {
        ok := Batch([TouchAccount(Now(a, clock))]);
        ApplyOne(d0.t, TouchAccount(Now(a, clock)));
      }
    }

    /** Reads the objects of these rows. */
    method Hydrate(rows: seq<PageRow>) returns (ok: bool, envelopes: seq<Envelope>)
      requires forall i :: 0 <= i < |rows| ==> rows[i].row.key in disk.bucket
      modifies this`callsLeft
      ensures ok ==> Carries(disk, rows, envelopes)
    {
      ok, envelopes := true, [];
      var i := 0;
      while i < |rows|
        invariant 0 <= i <= |rows| && |envelopes| == i
        invariant forall j :: 0 <= j < i ==> envelopes[j] == Hydrated(disk.bucket, rows[j])
      {
        ok := Call();
        if !ok { return; }
        envelopes := envelopes + [Hydrated(disk.bucket, rows[i])];
        i := i + 1;
      }
      ok := true;
    }

    /** The versions and objects a committed round no longer needs. */
    method PurgeAndPrune(deleted: set<Slot>, touched: set<Slot>, continued: set<Id>) returns (ok: bool)
      requires Sound(disk) && window >= 1 && continued !! LiveIds(disk.t.live)
      modifies this
      ensures Keeps(old(disk), disk) && Within(disk.bucket, old(disk.bucket))
      ensures ok ==> disk == Prune(Purge(old(disk), deleted), touched, continued, window)
    {
      ghost var d0 := disk;
      KeepsItself(d0);
      PurgeNothing(d0);
      ok := true;
      if deleted != {} {
        ok := PurgeDeletedRecords(deleted);
        if !ok { return; }
      }
      ghost var p := disk;
      ok := PruneHistory(touched, continued);
      KeepsTrans(d0, p, disk);
    }

    /** Everything after the commit of a round that changed something. */
    method ClearAway(rq: Request, accepted: seq<Upload>, plan: Plan, a: Account, before: Usage, ghost d0: Disk,
                     ghost keys: map<Id, Key>, ghost e: Draft, clock: int)
      returns (ok: bool)
      requires window >= 1 && CommittedRound(d0, rq, keys, e, clock, disk) && Changes(d0, rq)
      requires accepted == AcceptedOf(d0, rq) && d0.t.account == Some(a)
      requires before == UsageIn(d0.t, Touched(rq.uploads, rq.deletions))
      requires plan.continued == e.continued && plan.deleted == e.deleted
      requires plan.count == e.count && plan.bytes == e.bytes && disk.t.usage == d0.t.usage
      modifies this
      ensures RoundKeeps(d0, rq, CommitDisk(d0, rq, keys, e, clock), disk)
      ensures ok ==> disk == FinalDisk(d0, rq, keys, e, clock, window)
      ensures Within(disk.bucket, old(disk.bucket))
    {
      ghost var c := disk;
      var touched := Touched(accepted, rq.deletions);
      ok := PurgeAndPrune(plan.deleted, touched, plan.continued);
      CleanedKeeps(d0, rq, c, c, disk);
      if !ok { return; }
      assert disk == ClearedDisk(d0, rq, keys, e, clock, window);
      ok := SettleUsage(rq, touched, plan, a, before, d0, e, c);
    }

    /** The history usage the round leaves, and the eviction when it is over the quota. */
    method SettleUsage(rq: Request, touched: set<Slot>, plan: Plan, a: Account, before: Usage, ghost d0: Disk,
                       ghost e: Draft, ghost goal: Disk)
      returns (ok: bool)
      requires RoundKeeps(d0, rq, goal, disk)
      requires touched == Touched(AcceptedOf(d0, rq), rq.deletions) && d0.t.account == Some(a)
      requires before == UsageIn(d0.t, Touched(rq.uploads, rq.deletions))
      requires plan.count == e.count && plan.bytes == e.bytes && disk.t.usage == d0.t.usage
      modifies this
      ensures RoundKeeps(d0, rq, goal, disk)
      ensures ok ==> disk == SettledDisk(d0, rq, e, old(disk))
      ensures Within(disk.bucket, old(disk.bucket))
    {
      ghost var q := disk;
      ok := Call();
      if !ok { return; }
      var now := CountOlder(disk.t, touched);
      var known := disk.t.usage;
      var usage := Usage(known.versions + now.versions - before.versions, known.bytes + now.bytes - before.bytes);
      var room := MaxBytes(a, rq) - StorageBytes(plan.count, plan.bytes);
      Settles(d0, rq, e, q, before, now, usage, room);
      ok := EvictAndSave(usage, room);
      CleanedKeeps(d0, rq, goal, q, disk);
    }

    method EvictAndSave(usage: Usage, room: int) returns (ok: bool)
      requires Sound(disk)
      modifies this
      ensures Keeps(old(disk), disk)
      ensures ok ==> disk == Evict(old(disk), usage, room)
      ensures Within(disk.bucket, old(disk.bucket))
    {
      ghost var q := disk;
      var left;
      ok, left := EvictOldest(usage, room);
      if !ok { return; }
      ghost var r := disk;
      ok := SaveUsage(left);
      KeepsTrans(q, r, disk);
    }

    method SaveUsage(left: Usage) returns (ok: bool)
      requires Sound(disk)
      modifies this
      ensures Keeps(old(disk), disk)
      ensures ok ==> disk == Disk(old(disk.t).(usage := left), old(disk.bucket))
      ensures Within(disk.bucket, old(disk.bucket))
    {
      ghost var r := disk;
      KeepsItself(r);
      ok := true;
      if left != disk.t.usage {
        ok := Batch([SetUsage(left)]);
        if !ok { return; }
        ApplyOne(r.t, SetUsage(left));
        UsageKeeps(r, left);
      }
    }

    /** Commits the planned batch once every object is written. */
    method Commit(rq: Request, plan: Plan, a: Account, ghost d0: Disk, ghost keys: map<Id, Key>, ghost e: Draft,
                  clock: int, changes: bool)
      returns (ok: bool)
      requires Sound(d0) && FreshKeys(d0, rq.uploads, keys) && DraftOf(d0, rq, keys, e)
      requires UploadIds(AcceptedOf(d0, rq)) <= keys.Keys
      requires disk == WrittenDisk(d0, rq, keys) && Keeps(d0, disk)
      requires PlanOf(BaseOf(d0, rq, keys), plan, e) && d0.t.account == Some(a) && changes == Changes(d0, rq)
      modifies this
      ensures RoundKeeps(d0, rq, CommitDisk(d0, rq, keys, e, clock), disk)
      ensures ok ==> CommittedRound(d0, rq, keys, e, clock, disk) && disk.t.usage == d0.t.usage
      ensures Within(disk.bucket, old(disk.bucket))
    {
      ghost var w := disk;
      WroteKeeps(d0, rq, CommitDisk(d0, rq, keys, e, clock), w);
      Commits(d0, rq, keys, e, clock);
      ok := Batch(FullBatch(plan, a, Now(a, clock), changes, TouchDue(a, clock)));
      if ok {
        BatchCommits(d0, rq, keys, plan, e, clock);
      }
    }

    /** Reads what the uploads may clash with and plans the round; changes nothing. */
    method PlanHere(rq: Request, a: Account, keys: map<Id, Key>)
      returns (read: bool, fits: bool, accepted: seq<Upload>, plan: Plan,
                                                                          ghost e: Draft)
      requires FreshKeys(disk, rq.uploads, keys) && disk.t.account == Some(a)
      modifies this`callsLeft
      ensures accepted == AcceptedOf(disk, rq) && UploadIds(accepted) <= keys.Keys
      ensures read && !fits ==> RoundDraft(disk.t, a, rq, keys, MaxBytes(a, rq)).None?
      ensures read && fits ==> DraftOf(disk, rq, keys, e) && PlanOf(BaseOf(disk, rq, keys), plan, e)
    {
      e := NoPlan(disk.t);
      accepted := FilterAccepted(rq.uploads, LiveIds(disk.t.live));
      plan, fits, read := Plan([], 0, 0, 0, {}, {}), false, true;
      AcceptedIds(disk, rq, keys);
      if accepted != [] {
        read := Call();
        if !read { return; }
      }
      ghost var base := BaseOf(disk, rq, keys);
      CanPlan(disk, rq, keys);
      fits, plan := PlanRound(rq, accepted, a, keys, disk.t.live, base);
      if fits {
        e := TheDraft(disk, rq, keys);
      } else {
        NoDraft(disk, rq, keys);
      }
    }

    /** Plans, writes and commits a round that no earlier exit answered. */
    method WriteRound(rq: Request, a: Account, keys: map<Id, Key>, clock: int, before: Usage,
                      ghost whole: map<Key, string>)
      returns (answer: Answer)
      requires window >= 1 && Sound(disk) && FreshKeys(disk, rq.uploads, keys) && disk.t.account == Some(a)
      requires before == UsageIn(disk.t, Touched(rq.uploads, rq.deletions))
      requires Within(disk.bucket, whole) && whole == Whole(disk, rq, keys)
      modifies this
      ensures RoundKeeps(old(disk), rq, DraftGoal(old(disk), rq, keys, clock), disk)
      ensures answer != Failed ==> Written(old(disk), rq, keys, clock, window, answer, disk)
      ensures Within(disk.bucket, whole)
    {
      ghost var d0 := disk;
      var read, fits, accepted, plan;
      ghost var e;
      read, fits, accepted, plan, e := PlanHere(rq, a, keys);
      if !read || !fits {
        TouchKeeps(d0, rq, DraftGoal(d0, rq, keys, clock), clock);
        return if read then QuotaExceeded else Failed;
      }
      answer := WritePlanned(rq, a, keys, clock, before, accepted, plan, e);
      PlannedIsWritten(d0, rq, keys, e, clock, window, answer, disk);
    }

    /** Stores what was planned: the objects, the commit, then the clean-up. */
    method WritePlanned(rq: Request, a: Account, keys: map<Id, Key>, clock: int, before: Usage, accepted: seq<Upload>,
                        plan: Plan,
                        ghost e: Draft)
      returns (answer: Answer)
      requires window >= 1 && Sound(disk) && FreshKeys(disk, rq.uploads, keys) && disk.t.account == Some(a)
      requires before == UsageIn(disk.t, Touched(rq.uploads, rq.deletions)) && DraftOf(disk, rq, keys, e)
      requires accepted == AcceptedOf(disk, rq) && UploadIds(accepted) <= keys.Keys
          && PlanOf(BaseOf(disk, rq, keys), plan, e)
      modifies this
      ensures RoundKeeps(old(disk), rq, CommitDisk(old(disk), rq, keys, e, clock), disk)
      ensures answer != Failed ==>
        && disk == FinalDisk(old(disk), rq, keys, e, clock, window)
        && answer == Reply(Max(rq.cursor, e.seqno), [], [], false, false, true,
                           ReportOf(e.count, e.bytes, disk.t.usage, MaxBytes(a, rq)))
      ensures Within(disk.bucket, WithObjects(old(disk.bucket), accepted, keys))
    {
      ghost var d0 := disk;
      ghost var goal := CommitDisk(d0, rq, keys, e, clock);
      AcceptedIds(d0, rq, keys);
      WroteNothingYet(d0, rq, keys, goal);
      var ok := true;
      if accepted != [] {
        ok := ReserveAndWrite(accepted, keys);
        WroteKeeps(d0, rq, goal, disk);
        if !ok { return Failed; }
      }
      DraftDeletes(d0, rq, keys, e);
      var changes := accepted != [] || plan.deleted != {};
      ok := Commit(rq, plan, a, d0, keys, e, clock, changes);
      if !ok { return Failed; }
      if changes {
        ok := ClearAway(rq, accepted, plan, a, before, d0, keys, e, clock);
        if !ok { return Failed; }
      }
      answer := Reply(Max(rq.cursor, plan.seqno), [], [], false, false, true,
                      ReportOf(plan.count, plan.bytes, disk.t.usage, MaxBytes(a, rq)));
    }

    /** One relay round. Whatever call it fails at, what it leaves is sound. */
    method Sync(rq: Request, keys: map<Id, Key>, clock: int) returns (answer: Answer)
      requires window >= 1 && FreshKeys(disk, rq.uploads, keys)
      requires disk.t.account.Some? ==> Sound(disk)
      modifies this
      ensures if old(disk).t.account.Some? then RoundKeeps(old(disk), rq, GoalOf(old(disk), rq, keys, clock), disk)
          else disk == old(disk)
      ensures answer != Failed ==> Answered(old(disk), rq, keys, clock, window, answer, disk)
      ensures Within(disk.bucket, Whole(old(disk), rq, keys))
    {
      FoundWhole(disk, rq, keys);
      if disk.t.account.Some? { TouchKeeps(disk, rq, GoalOf(disk, rq, keys, clock), clock); }
      var ok := Call();
      if !ok { return Failed; }
      if disk.t.account.None? { return NoAccount; }
      answer := AnswerWith(rq, disk.t.account.value, keys, clock, Whole(disk, rq, keys));
    }

    /** The exits of a round in turn, once the account is read: reset, page, conflicts, write. */
    method AnswerWith(rq: Request, a: Account, keys: map<Id, Key>, clock: int, ghost whole: map<Key, string>)
      returns (answer: Answer)
      requires window >= 1 && Sound(disk) && FreshKeys(disk, rq.uploads, keys) && disk.t.account == Some(a)
      requires Within(disk.bucket, whole) && whole == Whole(disk, rq, keys)
      modifies this
      ensures RoundKeeps(old(disk), rq, GoalOf(old(disk), rq, keys, clock), disk)
      ensures answer != Failed ==> Answered(old(disk), rq, keys, clock, window, answer, disk)
      ensures Within(disk.bucket, whole)
    {
      ghost var goal := GoalOf(disk, rq, keys, clock);
      if rq.cursor > a.nextSeq {
        answer := SendReset(rq, a, clock, goal);
        return;
      }
      var limit := AtLeastOne(rq.downloadLimit);
      var rows := SelectPage(disk.t.live, rq.cursor, limit, a.nextSeq);
      var page, hasMore := FitDownloadPage(rows, limit, MAX_DOWNLOAD_PAGE_BYTES, RowBytes);
      if page != [] {
        answer := SendPage(rq, a, clock, rows, page, hasMore, goal);
        return;
      }
      answer := AnswerDrained(rq, a, keys, clock, goal, whole);
    }

    /** A client ahead of the account is told to start over. */
    method SendReset(rq: Request, a: Account, clock: int, ghost goal: Disk) returns (answer: Answer)
      requires Sound(disk) && disk.t.account == Some(a) && rq.cursor > a.nextSeq
      modifies this
      ensures RoundKeeps(old(disk), rq, goal, disk) && disk.bucket == old(disk.bucket)
      ensures answer != Failed ==>
        && disk == TouchedDisk(old(disk), clock)
        && answer == Reply(0, [], [], false, true, false, AccountReport(old(disk).t, rq))
    {
      TouchKeeps(disk, rq, goal, clock);
      var ok := Touch(a, clock);
      if !ok { return Failed; }
      answer := Reply(0, [], [], false, true, false, AccountReport(disk.t, rq));
    }

    /** The exits of a round whose client has seen everything: conflicts, or the write. */
    method AnswerDrained(rq: Request, a: Account, keys: map<Id, Key>, clock: int, ghost goal: Disk,
                         ghost whole: map<Key, string>)
      returns (answer: Answer)
      requires window >= 1 && Sound(disk) && FreshKeys(disk, rq.uploads, keys) && disk.t.account == Some(a)
      requires rq.cursor <= a.nextSeq && Candidates(disk.t.live, rq.cursor, AtLeastOne(rq.downloadLimit)) == []
      requires goal == GoalOf(disk, rq, keys, clock)
      requires Within(disk.bucket, whole) && whole == Whole(disk, rq, keys)
      modifies this
      ensures RoundKeeps(old(disk), rq, goal, disk)
      ensures answer != Failed ==> Answered(old(disk), rq, keys, clock, window, answer, disk)
      ensures Within(disk.bucket, whole)
    {
      ConflictsAreLive(disk.t.live, rq.uploads);
      var conflicts := LiveRows(disk.t.live, ConflictSlots(disk.t.live, rq.uploads));
      if conflicts != [] {
        answer := SendConflicts(rq, a, clock, conflicts, goal);
        return;
      }
      var before := CountOlder(disk.t, Touched(rq.uploads, rq.deletions));
      answer := WriteRound(rq, a, keys, clock, before, whole);
    }

    method SendPage(rq: Request, a: Account, clock: int, ghost rows: seq<PageRow>, page: seq<PageRow>, hasMore: bool,
                    ghost goal: Disk)
      returns (answer: Answer)
      requires Sound(disk) && disk.t.account == Some(a) && rq.cursor <= a.nextSeq
      requires rows == Candidates(disk.t.live, rq.cursor, AtLeastOne(rq.downloadLimit)) && page != []
      requires IsPage(rows, page, AtLeastOne(rq.downloadLimit), MAX_DOWNLOAD_PAGE_BYTES, RowBytes)
      requires hasMore <==> |page| < |rows|
      modifies this
      ensures RoundKeeps(old(disk), rq, goal, disk)
      ensures answer != Failed ==> PageAnswer(old(disk), rq, clock, answer, disk)
      ensures Within(disk.bucket, old(disk.bucket))
    {
      ghost var d0 := disk;
      TouchKeeps(d0, rq, goal, clock);
      PageRowsLive(d0, rq, page);
      var ok := Touch(a, clock);
      if !ok { return Failed; }
      var envelopes;
      ok, envelopes := Hydrate(page);
      if !ok { return Failed; }
      PageAnswered(d0, rq, clock, page, envelopes, hasMore);
      answer := Reply(page[|page| - 1].row.seqno, envelopes, [], hasMore, false, !rq.Mutates(),
                      ReportOf(a.envelopeCount, a.ciphertextBytes, disk.t.usage, MaxBytes(a, rq)));
    }

    method SendConflicts(rq: Request, a: Account, clock: int, conflicts: seq<PageRow>, ghost goal: Disk)
      returns (answer: Answer)
      requires Sound(disk) && disk.t.account == Some(a) && conflicts != []
      requires forall r :: r in conflicts ==> r.slot in disk.t.live && r.row == disk.t.live[r.slot]
      modifies this
      ensures RoundKeeps(old(disk), rq, goal, disk)
      ensures answer != Failed ==>
        answer.Reply? && disk == TouchedDisk(old(disk), clock) && Carries(old(disk), conflicts, answer.conflicts)
        && answer == Reply(Max(rq.cursor, a.nextSeq), [], answer.conflicts, false, false, false,
                           AccountReport(old(disk).t, rq))
      ensures Within(disk.bucket, old(disk.bucket))
    {
      ghost var d0 := disk;
      TouchKeeps(d0, rq, goal, clock);
      LiveRowsPresent(d0, conflicts);
      var ok := Touch(a, clock);
      if !ok { return Failed; }
      var envelopes;
      ok, envelopes := Hydrate(conflicts);
      if !ok { return Failed; }
      answer := Reply(Max(rq.cursor, a.nextSeq), [], envelopes, false, false, false,
                      ReportOf(a.envelopeCount, a.ciphertextBytes, disk.t.usage, MaxBytes(a, rq)));
    }
  }

  /** Drops the oldest of the given versions, one at a time, while the usage is over the room left. */
  method EvictWhileOver(t: Tables, ids: seq<nat>, usage: Usage, room: int) returns (n: nat, left: Usage)
    requires forall h :: h in ids ==> h in t.history
    requires forall j, k :: 0 <= j < k < |ids| ==> ids[j] < ids[k]
    ensures Evicting(t, ids, usage, room, n, left) && (n == |ids| || UsageBytes(left) <= room)
  {
    n, left := 0, usage;
    EvictingStart(t, ids, usage, room);
    while n < |ids| && UsageBytes(left) > room
      invariant n <= |ids| && Evicting(t, ids, usage, room, n, left)
    {
      EvictingNext(t, ids, usage, room, n, left);
      left := Usage(left.versions - 1, left.bytes - t.history[ids[n]].bytes);
      n := n + 1;
    }
  }

  /** The history rows the quota leaves no room for, oldest first, and what is kept. */
  method ChooseEvicted(t: Tables, usage: Usage, room: int) returns (gone: seq<nat>, left: Usage)
    requires UsageBytes(usage) > room && usage.versions > 0
    ensures SetOf(gone) == Evicted(t, usage, room) && left == Spare(t, usage, room)
  {
    var ids := Sort(OlderAll(t));
    AscendingSpec(OlderAll(t));
    var n;
    n, left := EvictWhileOver(t, ids, usage, room);
    EvictingDone(t, ids, usage, room, n, left);
    gone := ids[..n];
  }

  /** The deletions of a round, against the live rows its slots held. */
  method PlanDeletions(ds: seq<Deletion>, a: Account, current0: map<Slot, Row>, ghost base: Tables,
                       ghost slots: set<Slot>)
    returns (batch: seq<Statement>, current: map<Slot, Row>, count: int, bytes: int, deleted: set<Slot>)
    requires Agrees(current0, base.live, slots) && DeletionSlots(ds) <= slots
    ensures var e := DeleteAll(Start(base, a), ds);
            Tracks(base, batch, current, slots, count, bytes, e) && deleted == e.deleted
  {
    batch, current, count, bytes, deleted := [], current0, a.envelopeCount, a.ciphertextBytes, {};
    TracksStart(base, a, current0, slots);
    var i := 0;
    while i < |ds|
      invariant 0 <= i <= |ds|
      invariant Tracks(base, batch, current, slots, count, bytes, DeleteAll(Start(base, a), ds[..i]))
      invariant deleted == DeleteAll(Start(base, a), ds[..i]).deleted
    {
      var x := ds[i];
      ghost var d := DeleteAll(Start(base, a), ds[..i]);
      assert x.slot in DeletionSlots(ds);
      TracksDelete(base, batch, current, slots, count, bytes, d, x);
      DeletedNext(Start(base, a), ds, i);
      if x.slot in current && current[x.slot].id == x.id {
        var removed := current[x.slot];
        deleted := deleted + {x.slot};
        batch := batch + DeleteStatements(x.slot, removed);
        count, bytes := count - 1, bytes - removed.bytes;
        current := current - {x.slot};
      }
      i := i + 1;
    }
    assert ds[..i] == ds;
  }

  /** One accepted upload, checked against the quota before anything is reserved or written. */
  method PlanUpload(u: Upload, key: Key, maxBytes: int, plan: Plan, current: map<Slot, Row>)
    returns (fits: bool, next: Plan, stored: map<Slot, Row>)
    ensures var prior := if u.slot in current then Some(current[u.slot]) else None;
            var count := plan.count + (if prior.Some? then 0 else 1);
            var bytes := plan.bytes + |u.ciphertext| - (if prior.Some? then prior.value.bytes else 0);
            var row := Row(plan.seqno + 1, u.id, key, |u.ciphertext|);
            && fits == (StorageBytes(count, bytes) <= maxBytes
                        || StorageBytes(count, bytes) < StorageBytes(plan.count, plan.bytes))
            && (fits ==>
                  && stored == current[u.slot := row]
                  && next == Plan(plan.batch + StoreStatements(prior, u, row), count, bytes, plan.seqno + 1,
                                  if prior.Some? && u.continues then plan.continued + {prior.value.id}
                                  else plan.continued,
                                  plan.deleted))
  {
    next, stored := plan, current;
    var prior := if u.slot in current then Some(current[u.slot]) else None;
    var projectedCount := plan.count + (if prior.Some? then 0 else 1);
    var projectedBytes := plan.bytes + |u.ciphertext| - (if prior.Some? then prior.value.bytes else 0);
    var projected := StorageBytes(projectedCount, projectedBytes);
    if projected > maxBytes && projected >= StorageBytes(plan.count, plan.bytes) {
      return false, next, stored;
    }
    var sequence := plan.seqno + 1;
    var continued := if prior.Some? && u.continues then plan.continued + {prior.value.id} else plan.continued;
    var row := Row(sequence, u.id, key, |u.ciphertext|);
    next := Plan(plan.batch + StoreStatements(prior, u, row), projectedCount, projectedBytes, sequence, continued,
                 plan.deleted);
    fits, stored := true, current[u.slot := row];
  }

  /** The accepted uploads of a round in turn, until one is refused. */
  method PlanUploads(us: seq<Upload>, keys: map<Id, Key>, maxBytes: int, start: Plan, current0: map<Slot, Row>,
                     ghost base: Tables, ghost slots: set<Slot>, ghost d: Draft)
    returns (fits: bool, plan: Plan)
    requires CanStoreAll(d, us, keys) && UploadSlots(us) <= slots
    requires Planning(d, us, keys, maxBytes, 0, base, current0, slots, start, d)
    ensures fits == StoreAll(d, us, keys, maxBytes).Some?
    ensures fits ==> PlanOf(base, plan, StoreAll(d, us, keys, maxBytes).value)
  {
    var current := current0;
    ghost var e := d;
    plan := start;
    var i := 0;
    while i < |us|
      invariant 0 <= i <= |us| && Planning(d, us, keys, maxBytes, i, base, current, slots, plan, e)
    {
      assert us[i].slot in UploadSlots(us);
      PlanningChecks(d, us, keys, maxBytes, i, base, current, slots, plan, e);
      var next, stored;
      fits, next, stored := PlanUpload(us[i], keys[us[i].id], maxBytes, plan, current);
      if !fits { return; }
      e := PlanningNext(d, us, keys, maxBytes, i, base, current, slots, plan, e, stored, next);
      plan, current := next, stored;
      i := i + 1;
    }
    PlanningDone(d, us, keys, maxBytes, base, current, slots, plan, e);
    fits := true;
  }

  /** Drops uploads whose id the account holds, or an earlier upload of the round carries. */
  method FilterAccepted(us: seq<Upload>, held: set<Id>) returns (accepted: seq<Upload>)
    ensures accepted == Accepted(us, held)
  {
    accepted := [];
    var known := held;
    var i := 0;
    while i < |us|
      invariant 0 <= i <= |us| && accepted == Accepted(us[..i], held)
      invariant known == held + UploadIds(accepted)
    {
      assert us[..i + 1][..i] == us[..i];
      if us[i].id !in known {
        known := known + {us[i].id};
        accepted := accepted + [us[i]];
      }
      i := i + 1;
    }
    assert us[..i] == us;
  }

  /** Count and bytes of the older versions the given records hold. */
  method CountOlder(t: Tables, slots: set<Slot>) returns (usage: Usage)
    ensures usage == UsageIn(t, slots)
  {
    var rest := OlderIn(t, slots);
    ghost var done: set<nat> := {};
    usage := Usage(0, 0);
    NoBytes(t);
    while rest != {}
      invariant done + rest == OlderIn(t, slots) && done !! rest
      invariant usage == Usage(|done|, VersionBytes(t, done))
      decreases rest
    {
      var h :| h in rest;
      VersionBytesAdd(t, done, h);
      usage := Usage(usage.versions + 1, usage.bytes + t.history[h].bytes);
      rest, done := rest - {h}, done + {h};
    }
  }

  /** The page query: rows above the cursor in ascending order, up to the limit and one more. */
  method SelectPage(live: map<Slot, Row>, cursor: int, limit: nat, ghost nextSeq: nat) returns (rows: seq<PageRow>)
    requires LiveConsistent(live, nextSeq)
    ensures rows == Candidates(live, cursor, limit)
  {
    var ns := Sort(SeqsAbove(live, cursor));
    SeqCount(live, cursor);
    rows := CollectRows(live, cursor, ns, Min(limit + 1, |ns|), nextSeq, RowsAbove(live, cursor));
  }

  method CollectRows(live: map<Slot, Row>, cursor: int, ns: seq<nat>, count: nat, ghost nextSeq: nat,
                     ghost all: seq<PageRow>)
    returns (rows: seq<PageRow>)
    requires LiveConsistent(live, nextSeq) && ns == Ascending(SeqsAbove(live, cursor))
    requires all == RowsAbove(live, cursor) && count <= |ns| == |all|
    ensures rows == all[..count]
  {
    rows := [];
    var i := 0;
    while i < count
      invariant 0 <= i <= count && rows == all[..i]
    {
      var row := RowNumbered(live, cursor, nextSeq, ns[i], i);
      assert all[..i + 1] == all[..i] + [all[i]];
      rows := rows + [row];
      i := i + 1;
    }
  }

  method RowNumbered(live: map<Slot, Row>, cursor: int, ghost nextSeq: nat, n: nat, ghost i: nat) returns (row: PageRow)
    requires LiveConsistent(live, nextSeq)
    requires i < |Ascending(SeqsAbove(live, cursor))| && n == Ascending(SeqsAbove(live, cursor))[i]
    ensures i < |RowsAbove(live, cursor)| && row == RowsAbove(live, cursor)[i]
  {
    SeqHasRow(live, cursor, i);
    var s :| s in live && live[s].seqno == n;
    RowAtSeq(live, cursor, nextSeq, i, s);
    row := PageRow(s, live[s]);
  }

  /** The whole plan of a round: deletions first, then the accepted uploads. */
  method PlanRound(rq: Request, accepted: seq<Upload>, a: Account, keys: map<Id, Key>, live: map<Slot, Row>,
                   ghost base: Tables)
    returns (fits: bool, plan: Plan)
    requires base.live == live
    requires CanStoreAll(DeleteAll(Start(base, a), rq.deletions), accepted, keys)
    requires UploadSlots(accepted) <= UploadSlots(rq.uploads)
    ensures var planned := StoreAll(DeleteAll(Start(base, a), rq.deletions), accepted, keys, MaxBytes(a, rq));
            fits == planned.Some? && (fits ==> PlanOf(base, plan, planned.value))
  {
    var slots := UploadSlots(rq.uploads) + DeletionSlots(rq.deletions);
    var ids := UploadIds(rq.uploads);
    var current := map s | s in live && (s in slots || live[s].id in ids) :: live[s];
    var batch, count, bytes, deleted;
    batch, current, count, bytes, deleted := PlanDeletions(rq.deletions, a, current, base, slots);
    ghost var d := DeleteAll(Start(base, a), rq.deletions);
    DeleteAllTotals(Start(base, a), rq.deletions);
    PlanningStart(d, accepted, keys, MaxBytes(a, rq), base, current, slots,
                  Plan(batch, count, bytes, a.nextSeq, {}, deleted));
    fits, plan := PlanUploads(accepted, keys, MaxBytes(a, rq),
                              Plan(batch, count, bytes, a.nextSeq, {}, deleted), current, base, slots, d);
  }
}
