/** How the steps of one round fit together: what each leaves holds of the round as a whole. */
module RoundProofs {
  import opened Wrappers
  import opened RelayTables
  import opened RelayRound
  import opened RelayRoundProofs
  import opened RelayCommitProofs
  import opened RelayCleanup
  import opened RelayCleanupProofs
  import opened RelaySpec
  import opened PlanProofs

  lemma AcceptedIds(d: Disk, rq: Request, keys: map<Id, Key>)
    requires FreshKeys(d, rq.uploads, keys)
    ensures var us := AcceptedOf(d, rq);
            && FreshKeys(d, us, keys) && DistinctIds(us) && UploadIds(us) !! LiveIds(d.t.live)
            && UploadSlots(us) <= UploadSlots(rq.uploads)
  {
    AcceptedAreNew(rq.uploads, LiveIds(d.t.live));
    forall id | id in UploadIds(AcceptedOf(d, rq)) ensures id in UploadIds(rq.uploads) && id !in LiveIds(d.t.live) {
      var u :| u in AcceptedOf(d, rq) && u.id == id;
    }
  }

  /** The tables a round plans on: the reservations made, everything else as read. */
  function BaseOf(d: Disk, rq: Request, keys: map<Id, Key>): Tables
    requires UploadIds(AcceptedOf(d, rq)) <= keys.Keys
  {
    Reserved(d.t, AcceptedOf(d, rq), keys)
  }

  /** The disk once the accepted objects are reserved and written. */
  function WrittenDisk(d: Disk, rq: Request, keys: map<Id, Key>): Disk
    requires UploadIds(AcceptedOf(d, rq)) <= keys.Keys
  {
    var us := AcceptedOf(d, rq);
    Disk(Reserved(d.t, us, keys), WithObjects(d.bucket - Superseded(d.t, us), us, keys))
  }

  lemma AcceptedFrom(d: Disk, rq: Request)
    ensures UploadIds(AcceptedOf(d, rq)) <= UploadIds(rq.uploads)
  {
    AcceptedAreNew(rq.uploads, LiveIds(d.t.live));
  }

  /** All the objects a round may leave, wherever it stops: those it found and those it writes. */
  function Whole(d: Disk, rq: Request, keys: map<Id, Key>): map<Key, string>
    requires UploadIds(rq.uploads) <= keys.Keys
  {
    AcceptedFrom(d, rq);
    WithObjects(d.bucket, AcceptedOf(d, rq), keys)
  }

  /** Writing on fewer objects leaves no more, and what was found stays under other keys. */
  lemma {:induction false} WithinWritten(part: map<Key, string>, whole: map<Key, string>, us: seq<Upload>,
                                         keys: map<Id, Key>)
    requires UploadIds(us) <= keys.Keys && Within(part, whole)
    ensures Within(WithObjects(part, us, keys), WithObjects(whole, us, keys))
  {
    if us != [] {
      UploadIdsAppend(us);
      WithinWritten(part, whole, us[..|us| - 1], keys);
    }
  }

  lemma FoundStays(d: Disk, us: seq<Upload>, keys: map<Id, Key>)
    requires FreshKeys(d, us, keys)
    ensures Within(d.bucket, WithObjects(d.bucket, us, keys))
  {
    ObjectKeysWritten(d.bucket, us, keys);
  }

  lemma FoundWhole(d: Disk, rq: Request, keys: map<Id, Key>)
    requires FreshKeys(d, rq.uploads, keys)
    ensures Within(d.bucket, Whole(d, rq, keys))
  {
    AcceptedIds(d, rq, keys);
    FoundStays(d, AcceptedOf(d, rq), keys);
  }

  lemma NothingToWrite(d: Disk, rq: Request, keys: map<Id, Key>)
    requires AcceptedOf(d, rq) == []
    ensures WrittenDisk(d, rq, keys) == d
  {
    assert UploadIds([]) == {};
    assert Reserved(d.t, [], keys).pending == d.t.pending;
    assert d.bucket - Superseded(d.t, []) == d.bucket;
  }

  lemma CanPlan(d: Disk, rq: Request, keys: map<Id, Key>)
    requires d.t.account.Some? && FreshKeys(d, rq.uploads, keys)
    ensures UploadIds(AcceptedOf(d, rq)) <= keys.Keys
    ensures CanStoreAll(Start(BaseOf(d, rq, keys), d.t.account.value), AcceptedOf(d, rq), keys)
    ensures CanStoreAll(DeleteAll(Start(BaseOf(d, rq, keys), d.t.account.value), rq.deletions), AcceptedOf(d, rq), keys)
  {
    AcceptedIds(d, rq, keys);
    var start := Start(BaseOf(d, rq, keys), d.t.account.value);
    DeleteAllEffect(start, rq.deletions);
    var after := DeleteAll(start, rq.deletions);
    assert forall s :: s in after.t.live ==> s in start.t.live && after.t.live[s] == start.t.live[s];
    assert LiveIds(after.t.live) <= LiveIds(start.t.live);
  }

  /** The draft of this round. */
  ghost predicate DraftOf(d: Disk, rq: Request, keys: map<Id, Key>, e: Draft) {
    && d.t.account.Some? && UploadIds(rq.uploads) <= keys.Keys
    && RoundDraft(d.t, d.t.account.value, rq, keys, MaxBytes(d.t.account.value, rq)) == Some(e)
  }

  lemma DraftIsOn(d: Disk, rq: Request, keys: map<Id, Key>, e: Draft)
    requires d.t.account.Some? && FreshKeys(d, rq.uploads, keys) && DraftOf(d, rq, keys, e)
    ensures UploadIds(AcceptedOf(d, rq)) <= keys.Keys
    ensures DraftOn(WrittenDisk(d, rq, keys).t, d.t.account.value, AcceptedOf(d, rq), rq.deletions, keys,
                    MaxBytes(d.t.account.value, rq), e)
    ensures e.deleted == Removed(d.t, rq.deletions)
    ensures e.seqno == d.t.account.value.nextSeq + |AcceptedOf(d, rq)| && e.t.account == d.t.account
    ensures e.t.usage == d.t.usage
  {
    AcceptedIds(d, rq, keys);
    var start := Start(BaseOf(d, rq, keys), d.t.account.value);
    DeleteAllEffect(start, rq.deletions);
    DeleteAllTotals(start, rq.deletions);
    StoreAllIds(DeleteAll(start, rq.deletions), AcceptedOf(d, rq), keys, MaxBytes(d.t.account.value, rq));
    StoreAllDeleted(DeleteAll(start, rq.deletions), AcceptedOf(d, rq), keys, MaxBytes(d.t.account.value, rq));
  }

  lemma {:induction false} StoreAllDeleted(d: Draft, us: seq<Upload>, keys: map<Id, Key>, maxBytes: int)
    requires UploadIds(us) <= keys.Keys && StoreAll(d, us, keys, maxBytes).Some?
    ensures StoreAll(d, us, keys, maxBytes).value.deleted == d.deleted
    ensures StoreAll(d, us, keys, maxBytes).value.t.account == d.t.account
    ensures StoreAll(d, us, keys, maxBytes).value.t.usage == d.t.usage
  {
    if us != [] { StoreAllDeleted(d, us[..|us| - 1], keys, maxBytes); }
  }

  lemma RestageStays(d: Disk, rq: Request, keys: map<Id, Key>)
    requires Sound(d) && FreshKeys(d, rq.uploads, keys) && RestageSafe(d, rq.deletions)
    requires UploadIds(AcceptedOf(d, rq)) <= keys.Keys
    ensures RestageSafe(WrittenDisk(d, rq, keys), rq.deletions)
  {
    var us := AcceptedOf(d, rq);
    var w := WrittenDisk(d, rq, keys);
    ObjectKeysWritten(d.bucket - Superseded(d.t, us), us, keys);
    forall s | s in Removed(w.t, rq.deletions) && s in w.t.staged && w.t.staged[s].key in w.bucket
      ensures w.t.staged[s].key in HistoryKeys(w.t.history)
    {
      assert d.t.staged[s].key in LiveKeys(d.t.staged);
      assert d.t.staged[s].key in RowKeys(d.t);
      assert s in Removed(d.t, rq.deletions);
    }
  }

  lemma CommitNamed(d: Disk, rq: Request, keys: map<Id, Key>, e: Draft, clock: int)
    requires Sound(d) && FreshKeys(d, rq.uploads, keys) && DraftOf(d, rq, keys, e)
    requires UploadIds(AcceptedOf(d, rq)) <= keys.Keys && Keeps(d, WrittenDisk(d, rq, keys))
    requires AllNamed(d) && RestageSafe(d, rq.deletions)
    ensures AllNamed(CommitDisk(d, rq, keys, e, clock))
  {
    var w := WrittenDisk(d, rq, keys);
    CanPlan(d, rq, keys);
    DraftIsOn(d, rq, keys, e);
    RestageStays(d, rq, keys);
    CommitNames(w, AcceptedOf(d, rq), rq.deletions, keys, MaxBytes(d.t.account.value, rq), e);
    SameNames(e.t, CommitDisk(d, rq, keys, e, clock).t);
  }

  lemma SameNames(t: Tables, after: Tables)
    requires after == t.(account := after.account)
    ensures RowKeys(after) == RowKeys(t) && PendingKeys(after) == PendingKeys(t)
  {
  }

  /** The commit of a round whose objects are all written. */
  lemma CommitKeeps(d: Disk, rq: Request, keys: map<Id, Key>, e: Draft, clock: int)
    requires Sound(d) && FreshKeys(d, rq.uploads, keys) && DraftOf(d, rq, keys, e)
    requires UploadIds(AcceptedOf(d, rq)) <= keys.Keys && Keeps(d, WrittenDisk(d, rq, keys))
    ensures RoundKeeps(d, rq, CommitDisk(d, rq, keys, e, clock), CommitDisk(d, rq, keys, e, clock))
    ensures CommitDisk(d, rq, keys, e, clock).t.live == e.t.live
  {
    CommitIsSound(d, rq, keys, e, clock);
    DraftIsOn(d, rq, keys, e);
    if AllNamed(d) && RestageSafe(d, rq.deletions) {
      CommitNamed(d, rq, keys, e, clock);
    }
    CommitSeq(d, rq, keys, e, clock);
  }

  lemma CommitSeq(d: Disk, rq: Request, keys: map<Id, Key>, e: Draft, clock: int)
    requires d.t.account.Some? && UploadIds(rq.uploads) <= keys.Keys && e.t.account == d.t.account
    requires e.seqno >= d.t.account.value.nextSeq
    ensures var t := CommitDisk(d, rq, keys, e, clock).t;
            t.account.Some? && t.account.value.nextSeq >= d.t.account.value.nextSeq
  {
  }

  lemma ObjectsIn(d: Disk, rq: Request, keys: map<Id, Key>)
    requires FreshKeys(d, rq.uploads, keys) && UploadIds(AcceptedOf(d, rq)) <= keys.Keys
    ensures var w := WrittenDisk(d, rq, keys);
            forall u :: u in AcceptedOf(d, rq) && u.id in keys
                        ==> keys[u.id] in w.bucket && w.bucket[keys[u.id]] == u.ciphertext
  {
    AcceptedIds(d, rq, keys);
    ObjectsWritten(d.bucket - Superseded(d.t, AcceptedOf(d, rq)), AcceptedOf(d, rq), keys);
  }

  lemma CommitIsSound(d: Disk, rq: Request, keys: map<Id, Key>, e: Draft, clock: int)
    requires Sound(d) && FreshKeys(d, rq.uploads, keys) && DraftOf(d, rq, keys, e)
    requires UploadIds(AcceptedOf(d, rq)) <= keys.Keys && Sound(WrittenDisk(d, rq, keys))
    ensures Sound(CommitDisk(d, rq, keys, e, clock))
  {
    var w := WrittenDisk(d, rq, keys);
    var a := d.t.account.value;
    CanPlan(d, rq, keys);
    DraftIsOn(d, rq, keys, e);
    ObjectsIn(d, rq, keys);
    CommitSound(w, AcceptedOf(d, rq), rq.deletions, keys, MaxBytes(a, rq), e, Now(a, clock), TouchDue(a, clock));
    CommitIsWritten(d, rq, keys, e, clock, w);
  }

  lemma CommitIsWritten(d: Disk, rq: Request, keys: map<Id, Key>, e: Draft, clock: int, w: Disk)
    requires d.t.account.Some? && UploadIds(rq.uploads) <= keys.Keys
    requires UploadIds(AcceptedOf(d, rq)) <= keys.Keys && w == WrittenDisk(d, rq, keys)
    ensures var a, changes := d.t.account.value, AcceptedOf(d, rq) != [] || Removed(w.t, rq.deletions) != {};
      CommitDisk(d, rq, keys, e, clock)
        == Disk(WithAccount(e, a, Now(a, clock), changes, TouchDue(a, clock)), w.bucket)
  {
    assert Removed(w.t, rq.deletions) == Removed(d.t, rq.deletions);
  }

  lemma ContinuedGone(d: Disk, rq: Request, keys: map<Id, Key>, e: Draft)
    requires Sound(d) && FreshKeys(d, rq.uploads, keys) && DraftOf(d, rq, keys, e)
    requires UploadIds(AcceptedOf(d, rq)) <= keys.Keys && Sound(WrittenDisk(d, rq, keys))
    ensures e.continued !! LiveIds(e.t.live)
  {
    var start := Start(BaseOf(d, rq, keys), d.t.account.value);
    CanPlan(d, rq, keys);
    assert DraftSound(start);
    DeleteAllSound(start, rq.deletions);
    DeleteAllTotals(start, rq.deletions);
    StoreAllContinued(DeleteAll(start, rq.deletions), AcceptedOf(d, rq), keys, MaxBytes(d.t.account.value, rq));
  }

  // ---- Chaining ----------------------------------------------------------------

  lemma KeepsSameLive(d: Disk, mid: Disk, after: Disk)
    requires SameLive(d, mid) && Sound(mid) && Keeps(mid, after)
    ensures SameLive(d, after)
  {
    assert ObjectsPresent(mid);
  }

  lemma WroteKeeps(d: Disk, rq: Request, goal: Disk, after: Disk)
    requires Sound(d) && Keeps(d, after)
    ensures RoundKeeps(d, rq, goal, after)
  {
    KeepsSameLive(d, d, after);
  }

  lemma CleanedKeeps(d: Disk, rq: Request, goal: Disk, mid: Disk, after: Disk)
    requires RoundKeeps(d, rq, goal, mid) && Keeps(mid, after)
    ensures RoundKeeps(d, rq, goal, after)
  {
    if SameLive(d, mid) { KeepsSameLive(d, mid, after); } else { KeepsSameLive(goal, mid, after); }
  }

  lemma TouchKeeps(d: Disk, rq: Request, goal: Disk, clock: int)
    requires Sound(d)
    ensures Keeps(d, d) && RoundKeeps(d, rq, goal, d) && RoundKeeps(d, rq, goal, TouchedDisk(d, clock))
  {
    var a := d.t.account.value;
    SoundSame(d, a.(lastSeenAt := Now(a, clock)), d.t.usage);
  }

  lemma UsageKeeps(d: Disk, usage: Usage)
    requires Sound(d)
    ensures Keeps(d, Disk(d.t.(usage := usage), d.bucket))
  {
    SoundSame(d, d.t.account.value, usage);
  }

  lemma PurgeNothing(d: Disk)
    ensures Purge(d, {}) == d
  {
    assert DeletedVersions(d.t, {}) == {};
    DropNothing(d);
    assert d.t.staged - StagedIn(d.t, {}) == d.t.staged;
    assert d.bucket - StagedLoose(d.t, {}) == d.bucket;
  }

  // ---- The commit batch and the clean-up, step by step -------------------------

  /** The batch with the account row's update, when there is one. */
  function FullBatch(p: Plan, a: Account, now: int, changes: bool, touchDue: bool): seq<Statement> {
    p.batch + (if changes || touchDue
               then [SetAccount(p.seqno, p.count, p.bytes, if changes then now else a.updatedAt, now)] else [])
  }

  lemma SetAccountApplies(t: Tables, e: Draft, a: Account, now: int, changes: bool, touchDue: bool)
    requires t == e.t && t.account == Some(a) && (changes || touchDue)
    ensures Apply(t, SetAccount(e.seqno, e.count, e.bytes, if changes then now else a.updatedAt, now))
            == Some(WithAccount(e, a, now, changes, touchDue))
  {
  }

  lemma FullBatchApplies(base: Tables, p: Plan, a: Account, e: Draft, now: int, changes: bool, touchDue: bool)
    requires ApplyAll(base, p.batch) == Some(e.t) && p.count == e.count && p.bytes == e.bytes && p.seqno == e.seqno
    requires e.t.account == Some(a)
    ensures ApplyAll(base, FullBatch(p, a, now, changes, touchDue)) == Some(WithAccount(e, a, now, changes, touchDue))
  {
    if changes || touchDue {
      ApplyAppend(base, p.batch, SetAccount(p.seqno, p.count, p.bytes, if changes then now else a.updatedAt, now));
      SetAccountApplies(e.t, e, a, now, changes, touchDue);
    } else {
      assert p.batch + [] == p.batch;
    }
  }

  /** Everything that is known once the round has committed. */
  ghost predicate CommittedRound(d: Disk, rq: Request, keys: map<Id, Key>, e: Draft, clock: int, c: Disk) {
    && Sound(d) && d.t.account.Some? && UploadIds(rq.uploads) <= keys.Keys && DraftOf(d, rq, keys, e)
    && c == CommitDisk(d, rq, keys, e, clock) && RoundKeeps(d, rq, c, c)
    && c.t.live == e.t.live && e.continued !! LiveIds(c.t.live) && e.deleted == Removed(d.t, rq.deletions)
  }

  lemma Commits(d: Disk, rq: Request, keys: map<Id, Key>, e: Draft, clock: int)
    requires Sound(d) && FreshKeys(d, rq.uploads, keys) && DraftOf(d, rq, keys, e)
    requires UploadIds(AcceptedOf(d, rq)) <= keys.Keys && Keeps(d, WrittenDisk(d, rq, keys))
    ensures CommittedRound(d, rq, keys, e, clock, CommitDisk(d, rq, keys, e, clock))
  {
    CommitKeeps(d, rq, keys, e, clock);
    ContinuedGone(d, rq, keys, e);
    DraftIsOn(d, rq, keys, e);
  }

  ghost predicate PurgedRound(d: Disk, rq: Request, keys: map<Id, Key>, e: Draft, clock: int, c: Disk, p: Disk) {
    CommittedRound(d, rq, keys, e, clock, c) && Keeps(c, p) && p == Purge(c, Removed(d.t, rq.deletions))
  }

  lemma CanPrune(d: Disk, rq: Request, keys: map<Id, Key>, e: Draft, clock: int, c: Disk, p: Disk)
    requires PurgedRound(d, rq, keys, e, clock, c, p)
    ensures Sound(p) && e.continued !! LiveIds(p.t.live)
  {
  }

  ghost predicate ClearedRound(d: Disk, rq: Request, keys: map<Id, Key>, e: Draft, clock: int, window: nat, q: Disk) {
    && Sound(d) && d.t.account.Some? && UploadIds(rq.uploads) <= keys.Keys && DraftOf(d, rq, keys, e)
    && RoundKeeps(d, rq, CommitDisk(d, rq, keys, e, clock), q) && q == ClearedDisk(d, rq, keys, e, clock, window)
  }

  lemma Clears(d: Disk, rq: Request, keys: map<Id, Key>, e: Draft, clock: int, window: nat, c: Disk, p: Disk, q: Disk)
    requires PurgedRound(d, rq, keys, e, clock, c, p) && Keeps(p, q)
    requires q == Prune(p, Touched(AcceptedOf(d, rq), rq.deletions), e.continued, window)
    ensures ClearedRound(d, rq, keys, e, clock, window, q)
  {
    KeepsTrans(c, p, q);
    CleanedKeeps(d, rq, c, c, q);
  }

  lemma Settles(d: Disk, rq: Request, e: Draft, q: Disk, before: Usage, now: Usage, usage: Usage, room: int)
    requires d.t.account.Some? && q.t.usage == d.t.usage
    requires before == UsageIn(d.t, Touched(rq.uploads, rq.deletions))
    requires now == UsageIn(q.t, Touched(AcceptedOf(d, rq), rq.deletions))
    requires usage == Usage(q.t.usage.versions + now.versions - before.versions,
                            q.t.usage.bytes + now.bytes - before.bytes)
    requires room == MaxBytes(d.t.account.value, rq) - StorageBytes(e.count, e.bytes)
    ensures Evict(q, usage, room) == SettledDisk(d, rq, e, q)
  {
    assert usage == UsageAfter(d.t, rq, AcceptedOf(d, rq), q.t);
  }

  lemma NoDraft(d: Disk, rq: Request, keys: map<Id, Key>)
    requires d.t.account.Some? && UploadIds(rq.uploads) <= keys.Keys && UploadIds(AcceptedOf(d, rq)) <= keys.Keys
    requires StoreAll(DeleteAll(Start(BaseOf(d, rq, keys), d.t.account.value), rq.deletions), AcceptedOf(d, rq), keys,
                      MaxBytes(d.t.account.value, rq)).None?
    ensures RoundDraft(d.t, d.t.account.value, rq, keys, MaxBytes(d.t.account.value, rq)).None?
  {
  }

  ghost function TheDraft(d: Disk, rq: Request, keys: map<Id, Key>): (e: Draft)
    requires d.t.account.Some? && UploadIds(rq.uploads) <= keys.Keys && UploadIds(AcceptedOf(d, rq)) <= keys.Keys
    requires StoreAll(DeleteAll(Start(BaseOf(d, rq, keys), d.t.account.value), rq.deletions), AcceptedOf(d, rq), keys,
                      MaxBytes(d.t.account.value, rq)).Some?
    ensures DraftOf(d, rq, keys, e)
    ensures StoreAll(DeleteAll(Start(BaseOf(d, rq, keys), d.t.account.value), rq.deletions), AcceptedOf(d, rq), keys,
                     MaxBytes(d.t.account.value, rq)) == Some(e)
  {
    RoundDraft(d.t, d.t.account.value, rq, keys, MaxBytes(d.t.account.value, rq)).value
  }

  function NoPlan(t: Tables): Draft { Draft(t, 0, 0, 0, {}, {}) }

  lemma PlannedIsWritten(d: Disk, rq: Request, keys: map<Id, Key>, e: Draft, clock: int, window: nat, answer: Answer,
                         after: Disk)
    requires d.t.account.Some? && UploadIds(rq.uploads) <= keys.Keys && DraftOf(d, rq, keys, e)
    requires RoundKeeps(d, rq, CommitDisk(d, rq, keys, e, clock), after)
    requires answer != Failed ==>
      && after == FinalDisk(d, rq, keys, e, clock, window)
      && answer == Reply(Max(rq.cursor, e.seqno), [], [], false, false, true,
                         ReportOf(e.count, e.bytes, after.t.usage, MaxBytes(d.t.account.value, rq)))
    ensures RoundKeeps(d, rq, DraftGoal(d, rq, keys, clock), after)
    ensures answer != Failed ==> Written(d, rq, keys, clock, window, answer, after)
  {
    GoalIsCommit(d, rq, keys, e, clock);
  }

  lemma GoalIsCommit(d: Disk, rq: Request, keys: map<Id, Key>, e: Draft, clock: int)
    requires d.t.account.Some? && UploadIds(rq.uploads) <= keys.Keys && DraftOf(d, rq, keys, e)
    ensures DraftGoal(d, rq, keys, clock) == CommitDisk(d, rq, keys, e, clock)
  {
  }

  lemma NothingToWriteKeeps(d: Disk, rq: Request, keys: map<Id, Key>)
    requires Sound(d) && UploadIds(AcceptedOf(d, rq)) <= keys.Keys
    ensures AcceptedOf(d, rq) == [] ==> WrittenDisk(d, rq, keys) == d && Keeps(d, d)
  {
    KeepsItself(d);
    if AcceptedOf(d, rq) == [] {
      NothingToWrite(d, rq, keys);
    }
  }

  lemma WroteNothingYet(d: Disk, rq: Request, keys: map<Id, Key>, goal: Disk)
    requires Sound(d) && UploadIds(AcceptedOf(d, rq)) <= keys.Keys
    ensures RoundKeeps(d, rq, goal, d)
    ensures AcceptedOf(d, rq) == [] ==> WrittenDisk(d, rq, keys) == d && Keeps(d, d)
  {
    NothingToWriteKeeps(d, rq, keys);
    KeepsItself(d);
    WroteKeeps(d, rq, goal, d);
  }

  lemma DraftDeletes(d: Disk, rq: Request, keys: map<Id, Key>, e: Draft)
    requires d.t.account.Some? && FreshKeys(d, rq.uploads, keys) && DraftOf(d, rq, keys, e)
    ensures e.deleted == Removed(d.t, rq.deletions)
  {
    DraftIsOn(d, rq, keys, e);
  }

  lemma BatchCommits(d: Disk, rq: Request, keys: map<Id, Key>, p: Plan, e: Draft, clock: int)
    requires d.t.account.Some? && FreshKeys(d, rq.uploads, keys) && DraftOf(d, rq, keys, e)
    requires UploadIds(AcceptedOf(d, rq)) <= keys.Keys && PlanOf(BaseOf(d, rq, keys), p, e)
    ensures var a := d.t.account.value;
            ApplyAll(BaseOf(d, rq, keys), FullBatch(p, a, Now(a, clock), Changes(d, rq), TouchDue(a, clock)))
              == Some(CommitDisk(d, rq, keys, e, clock).t)
    ensures CommitDisk(d, rq, keys, e, clock).bucket == WrittenDisk(d, rq, keys).bucket
    ensures CommitDisk(d, rq, keys, e, clock).t.usage == d.t.usage
  {
    var a := d.t.account.value;
    DraftIsOn(d, rq, keys, e);
    FullBatchApplies(BaseOf(d, rq, keys), p, a, e, Now(a, clock), Changes(d, rq), TouchDue(a, clock));
  }

  lemma LiveRowsPresent(d: Disk, rows: seq<PageRow>)
    requires Sound(d) && forall r :: r in rows ==> r.slot in d.t.live && r.row == d.t.live[r.slot]
    ensures forall i :: 0 <= i < |rows| ==> rows[i].row.key in d.bucket
  {
    forall i | 0 <= i < |rows| ensures rows[i].row.key in d.bucket {
      assert rows[i] in rows;
    }
  }

  lemma PageRowsLive(d: Disk, rq: Request, page: seq<PageRow>)
    requires Sound(d) && page <= Candidates(d.t.live, rq.cursor, AtLeastOne(rq.downloadLimit))
    ensures forall i :: 0 <= i < |page| ==> page[i].row.key in d.bucket
  {
    RowsAboveLive(d.t.live, rq.cursor);
    forall r | r in page ensures r.slot in d.t.live && r.row == d.t.live[r.slot] {
      assert r in RowsAbove(d.t.live, rq.cursor);
    }
    LiveRowsPresent(d, page);
  }
}
