/** Runs of finished rounds: the kept history usage stays the true one, and the quota is met. */
module RelayRuns {
  import opened Wrappers
  import opened Collections
  import opened RelayTables
  import opened RelayRound
  import opened RelayRoundProofs
  import opened RelayCommitProofs
  import opened RelayCleanup
  import opened RelayCleanupProofs
  import opened RelaySpec
  import opened RoundProofs
  import opened UsageProofs
  import opened RelayTheorems
  import opened RelayEffects

  // ---- An id names versions of one record only ---------------------------------------------

  /** Every version kept was there before, or is one of the ids the round found live or brought. */
  ghost predicate HistoryFrom(before: Tables, after: Tables, ids: set<Id>) {
    forall h :: h in after.history ==>
      (h in before.history && before.history[h] == after.history[h])
      || after.history[h].id in LiveIds(before.live) || after.history[h].id in ids
  }

  lemma StoreHome(t: Tables, u: Upload, key: Key, seqno: nat, nextSeq: nat, after: Tables)
    requires AtHome(t.live, t.history) && OwnId(t.history, u) && u.id !in LiveIds(t.live)
    requires LiveConsistent(t.live, nextSeq) && HistoryOrdered(t) && after == StoreTables(t, u, key, seqno)
    ensures AtHome(after.live, after.history) && HistoryFrom(t, after, {u.id})
  {
    PriorHome(t, u.slot, nextSeq, KeepPrior(t, u.slot));
    PutHome(KeepPrior(t, u.slot), u, Row(seqno, u.id, key, |u.ciphertext|), after);
  }

  lemma PriorHome(t: Tables, slot: Slot, nextSeq: nat, after: Tables)
    requires AtHome(t.live, t.history) && LiveConsistent(t.live, nextSeq) && HistoryOrdered(t)
        && after == KeepPrior(t, slot)
    ensures AtHome(t.live, after.history) && HistoryOrdered(after) && after.live == t.live
    ensures forall h :: h in after.history && h !in t.history ==>
        slot in t.live && after.history[h].id == t.live[slot].id
    ensures forall h :: h in t.history ==> h in after.history && after.history[h] == t.history[h]
  {
  }

  lemma PutHome(t: Tables, u: Upload, row: Row, after: Tables)
    requires AtHome(t.live, t.history) && OwnId(t.history, u) && u.id !in LiveIds(t.live) && row.id == u.id
    requires HistoryOrdered(t) && after == PutRow(t, u, row)
    ensures AtHome(after.live, after.history)
    ensures forall h :: h in after.history && h !in t.history ==> after.history[h].id == u.id
    ensures forall h :: h in t.history ==> h in after.history && after.history[h] == t.history[h]
  {
    forall s | s in t.live ensures t.live[s].id != u.id {
      assert t.live[s].id in LiveIds(t.live);
    }
  }

  lemma StoreNextHome(t: Tables, us: seq<Upload>, u: Upload, key: Key, b: Draft, e: Draft)
    requires LiveConsistent(b.t.live, b.seqno) && HistoryOrdered(b.t)
    requires AtHome(b.t.live, b.t.history) && OwnId(b.t.history, u) && u.id !in LiveIds(b.t.live)
    requires HistoryFrom(t, b.t, UploadIds(us)) && LiveIds(b.t.live) <= LiveIds(t.live) + UploadIds(us)
    requires e.t == StoreTables(b.t, u, key, b.seqno + 1)
    ensures AtHome(e.t.live, e.t.history) && HistoryFrom(t, e.t, UploadIds(us + [u]))
  {
    StoreHome(b.t, u, key, b.seqno + 1, b.seqno, e.t);
    HistoryGrows(t, b.t, e.t, us, u);
  }

  /** The draft of all uploads but the last, and the last one stored on it. */
  lemma LastStored(d: Draft, us: seq<Upload>, keys: map<Id, Key>, maxBytes: int, e: Draft) returns (b: Draft)
    requires us != [] && UploadIds(us) <= keys.Keys && StoreAll(d, us, keys, maxBytes) == Some(e)
    ensures UploadIds(us[..|us| - 1]) <= keys.Keys && StoreAll(d, us[..|us| - 1], keys, maxBytes) == Some(b)
    ensures us[|us| - 1].id in keys && e.t == StoreTables(b.t, us[|us| - 1], keys[us[|us| - 1].id], b.seqno + 1)
  {
    UploadIdsAppend(us);
    b := StoreAll(d, us[..|us| - 1], keys, maxBytes).value;
  }

  lemma LastAllowed(d: Draft, us: seq<Upload>, keys: map<Id, Key>, maxBytes: int, b: Draft)
    requires us != [] && CanStoreAll(d, us, keys) && UploadIds(us[..|us| - 1]) <= keys.Keys
    requires StoreAll(d, us[..|us| - 1], keys, maxBytes) == Some(b)
    ensures CanStoreAll(d, us[..|us| - 1], keys) && us[|us| - 1].id !in LiveIds(b.t.live)
    ensures LiveIds(b.t.live) <= LiveIds(d.t.live) + UploadIds(us[..|us| - 1])
  {
    UploadIdsAppend(us);
    StoreAllIds(d, us[..|us| - 1], keys, maxBytes);
    NextCanStore(d, us, keys, b);
  }

  lemma StoredInOrder(d: Draft, us: seq<Upload>, keys: map<Id, Key>, maxBytes: int, b: Draft)
    requires DraftSound(d) && CanStoreAll(d, us, keys) && StoreAll(d, us, keys, maxBytes) == Some(b)
    ensures LiveConsistent(b.t.live, b.seqno) && HistoryOrdered(b.t)
  {
    StoreAllSound(d, us, keys, maxBytes);
  }

  lemma {:induction false} StoreAllHome(d: Draft, us: seq<Upload>, keys: map<Id, Key>, maxBytes: int, e: Draft)
    requires DraftSound(d) && CanStoreAll(d, us, keys) && StoreAll(d, us, keys, maxBytes) == Some(e)
    requires AtHome(d.t.live, d.t.history) && OwnIds(d.t.history, us)
    ensures AtHome(e.t.live, e.t.history) && HistoryFrom(d.t, e.t, UploadIds(us))
  {
    if us != [] {
      var b := LastStored(d, us, keys, maxBytes, e);
      LastAllowed(d, us, keys, maxBytes, b);
      StoredInOrder(d, us[..|us| - 1], keys, maxBytes, b);
      StoreAllHome(d, us[..|us| - 1], keys, maxBytes, b);
      StoreLastHome(d, us, keys, b, e);
    }
  }

  lemma StoreLastHome(d: Draft, us: seq<Upload>, keys: map<Id, Key>, b: Draft, e: Draft)
    requires us != [] && CanStoreAll(d, us, keys) && OwnIds(d.t.history, us) && us[|us| - 1].id in keys
    requires LiveConsistent(b.t.live, b.seqno) && HistoryOrdered(b.t) && AtHome(b.t.live, b.t.history)
    requires HistoryFrom(d.t, b.t, UploadIds(us[..|us| - 1])) && us[|us| - 1].id !in LiveIds(b.t.live)
    requires LiveIds(b.t.live) <= LiveIds(d.t.live) + UploadIds(us[..|us| - 1])
    requires e.t == StoreTables(b.t, us[|us| - 1], keys[us[|us| - 1].id], b.seqno + 1)
    ensures AtHome(e.t.live, e.t.history) && HistoryFrom(d.t, e.t, UploadIds(us))
  {
    var init, u := us[..|us| - 1], us[|us| - 1];
    StillOwn(d, us, keys, b, u);
    assert us == init + [u];
    StoreNextHome(d.t, init, u, keys[u.id], b, e);
  }

  /** An upload's id is still its own after the uploads before it. */
  lemma StillOwn(d: Draft, us: seq<Upload>, keys: map<Id, Key>, b: Draft, u: Upload)
    requires us != [] && u == us[|us| - 1] && CanStoreAll(d, us, keys) && OwnIds(d.t.history, us)
    requires HistoryFrom(d.t, b.t, UploadIds(us[..|us| - 1]))
    ensures OwnId(b.t.history, u)
  {
    assert u in us && u.id in UploadIds(us);
    assert u.id !in UploadIds(us[..|us| - 1]);
  }

  lemma HistoryGrows(t: Tables, b: Tables, after: Tables, us: seq<Upload>, u: Upload)
    requires HistoryFrom(t, b, UploadIds(us)) && HistoryFrom(b, after, {u.id})
    requires LiveIds(b.live) <= LiveIds(t.live) + UploadIds(us)
    ensures HistoryFrom(t, after, UploadIds(us + [u]))
  {
    assert UploadIds(us + [u]) == UploadIds(us) + {u.id};
    forall h | h in after.history
      ensures (h in t.history && t.history[h] == after.history[h])
        || after.history[h].id in LiveIds(t.live) || after.history[h].id in UploadIds(us + [u])
    {
      if h in b.history && b.history[h] == after.history[h] {}
    }
  }

  /** The draft the uploads are stored on: sound, with the same history and fewer records. */
  lemma DeletedDraft(d: Disk, rq: Request, keys: map<Id, Key>) returns (b: Draft)
    requires Sound(d) && FreshKeys(d, rq.uploads, keys)
    ensures UploadIds(AcceptedOf(d, rq)) <= keys.Keys
    ensures b == DeleteAll(Start(BaseOf(d, rq, keys), d.t.account.value), rq.deletions)
    ensures DraftSound(b) && CanStoreAll(b, AcceptedOf(d, rq), keys)
    ensures b.t.history == d.t.history && forall s :: s in b.t.live ==> s in d.t.live && b.t.live[s] == d.t.live[s]
  {
    WrittenKeepsAll(d, rq, keys);
    CanPlan(d, rq, keys);
    var start := Start(BaseOf(d, rq, keys), d.t.account.value);
    assert DraftSound(start) by { assert Sound(WrittenDisk(d, rq, keys)); }
    DeleteAllSound(start, rq.deletions);
    DeleteAllEffect(start, rq.deletions);
    b := DeleteAll(start, rq.deletions);
  }

  lemma DraftHome(d: Disk, rq: Request, keys: map<Id, Key>, e: Draft)
    requires Sound(d) && FreshKeys(d, rq.uploads, keys) && DraftOf(d, rq, keys, e)
    requires IdsAtHome(d, AcceptedOf(d, rq))
    ensures AtHome(e.t.live, e.t.history)
  {
    var b := DeletedDraft(d, rq, keys);
    StoreAllHome(b, AcceptedOf(d, rq), keys, MaxBytes(d.t.account.value, rq), e);
  }

  /** Clearing away only drops versions. */
  lemma FinalHistory(d: Disk, rq: Request, keys: map<Id, Key>, e: Draft, clock: int, window: nat, r: Disk)
    requires IsFinal(d, rq, keys, e, clock, window, r)
    ensures forall h :: h in r.t.history ==> h in e.t.history && r.t.history[h] == e.t.history[h]
  {
    var c := CommitDisk(d, rq, keys, e, clock);
    if Changes(d, rq) {
      FinalSettles(d, rq, keys, e, clock, window, r);
      var q := ClearedDisk(d, rq, keys, e, clock, window);
      assert forall h :: h in q.t.history ==> h in c.t.history && q.t.history[h] == c.t.history[h];
      assert forall h :: h in r.t.history ==> h in q.t.history && r.t.history[h] == q.t.history[h];
    } else {
      FinalCommits(d, rq, keys, e, clock, window, r);
    }
  }

  /** A finished round keeps every id at home, if its own ids are. */
  lemma FinalHome(d: Disk, rq: Request, keys: map<Id, Key>, e: Draft, clock: int, window: nat, r: Disk)
    requires Sound(d) && FreshKeys(d, rq.uploads, keys) && DraftOf(d, rq, keys, e) && window >= 1
    requires IdsAtHome(d, AcceptedOf(d, rq)) && IsFinal(d, rq, keys, e, clock, window, r)
    ensures AtHome(r.t.live, r.t.history)
  {
    DraftHome(d, rq, keys, e);
    FinalHistory(d, rq, keys, e, clock, window, r);
    FinalStorage(d, rq, keys, e, clock, window, r);
  }

  // ---- Runs -------------------------------------------------------------------------------

  /** A round of the run: a request, what it drew, when it ran and what it was answered. */
  datatype Round = Round(rq: Request, keys: map<Id, Key>, clock: int, answer: Answer)

  /** The account is sound and every id is at home. */
  ghost predicate Homed(d: Disk) { Sound(d) && AtHome(d.t.live, d.t.history) }

  /** And the usage is the true one. */
  ghost predicate Accounted(d: Disk) { Homed(d) && d.t.usage == TrueUsage(d.t) }

  /** An answered round that draws new keys and ids, and sends no held upload to a record
      with older versions. */
  ghost predicate Careful(d: Disk, v: Round, window: nat, after: Disk) {
    && FreshKeys(d, v.rq.uploads, v.keys) && Answered(d, v.rq, v.keys, v.clock, window, v.answer, after)
    && OwnIds(d.t.history, AcceptedOf(d, v.rq)) && OlderIn(d.t, Untouched(d, v.rq)) == {}
  }

  /** Everything is in the quota, or there is no older version left to give up. */
  ghost predicate WithinQuota(t: Tables, maxBytes: nat) {
    LiveStorage(t) + UsageBytes(TrueUsage(t)) <= maxBytes || OlderAll(t) == {}
  }

  /** Told that its writes are in, by a round that changed something. */
  predicate Changed(d: Disk, v: Round) {
    v.answer.Reply? && v.answer.writesAccepted && v.rq.Mutates() && Changes(d, v.rq)
  }

  lemma TouchedKeepsDrift(d: Disk, after: Disk)
    requires Homed(d) && after.bucket == d.bucket && after.t.account.Some?
    requires after.t == d.t.(account := Some(d.t.account.value.(lastSeenAt := after.t.account.value.lastSeenAt)))
    ensures Homed(after) && Drift(after.t) == Drift(d.t)
  {
    SoundSame(d, after.t.account.value, d.t.usage);
    assert OlderAll(after.t) == OlderAll(d.t);
  }

  lemma WriteKeepsDrift(d: Disk, v: Round, window: nat, e: Draft, after: Disk)
    requires Homed(d) && Careful(d, v, window, after) && window >= 1 && Changes(d, v.rq)
    requires DraftOf(d, v.rq, v.keys, e) && IsFinal(d, v.rq, v.keys, e, v.clock, window, after)
    ensures Homed(after) && Drift(after.t) == Drift(d.t)
  {
    FinishRound(d, v.rq, v.keys, e, v.clock, window, after);
    FinalHome(d, v.rq, v.keys, e, v.clock, window, after);
    DriftMoves(d, v.rq, v.keys, e, v.clock, window, after);
    NoOlder(d.t, Untouched(d, v.rq));
  }

  /** A round told that its writes are in ran to its end. */
  lemma AcceptedIsFinal(d: Disk, v: Round, window: nat, after: Disk) returns (e: Draft)
    requires Sound(d) && Careful(d, v, window, after) && Changed(d, v)
    ensures DraftOf(d, v.rq, v.keys, e) && IsFinal(d, v.rq, v.keys, e, v.clock, window, after)
  {
    e := RoundDraft(d.t, d.t.account.value, v.rq, v.keys, MaxBytes(d.t.account.value, v.rq)).value;
  }

  /** An answered round leaves the kept usage as far from the true one as it found it. */
  lemma RoundKeepsDrift(d: Disk, v: Round, window: nat, after: Disk)
    requires Homed(d) && Careful(d, v, window, after) && window >= 1
    ensures Homed(after) && Drift(after.t) == Drift(d.t)
  {
    if Changed(d, v) {
      var e := AcceptedIsFinal(d, v, window, after);
      WriteKeepsDrift(d, v, window, e, after);
    } else {
      UnchangedRound(d, v, window, after);
      TouchedKeepsDrift(d, after);
    }
  }

  lemma RoundStaysAccounted(d: Disk, v: Round, window: nat, after: Disk)
    requires Accounted(d) && Careful(d, v, window, after) && window >= 1
    ensures Accounted(after)
    ensures Changed(d, v) ==> WithinQuota(after.t, MaxBytes(d.t.account.value, v.rq))
  {
    RoundKeepsDrift(d, v, window, after);
    NoDrift(d.t);
    NoDrift(after.t);
    if Changed(d, v) {
      var e := AcceptedIsFinal(d, v, window, after);
      QuotaMet(d, v.rq, v.keys, e, v.clock, window, after);
    }
  }

  lemma UnchangedRound(d: Disk, v: Round, window: nat, after: Disk)
    requires Sound(d) && Careful(d, v, window, after) && !Changed(d, v)
    ensures after.bucket == d.bucket && after.t.account.Some?
    ensures after.t == d.t.(account := Some(d.t.account.value.(lastSeenAt := after.t.account.value.lastSeenAt)))
  {
    if v.answer.Reply? && v.answer.writesAccepted && v.rq.Mutates() {
      AcceptedIsIdle(d, v, window, after);
    } else {
      RefusedChangesNothing(d, v.rq, v.keys, v.clock, window, v.answer, after);
    }
  }

  lemma AcceptedIsIdle(d: Disk, v: Round, window: nat, after: Disk)
    requires Sound(d) && Careful(d, v, window, after) && !Changes(d, v.rq)
    requires v.answer.Reply? && v.answer.writesAccepted && v.rq.Mutates()
    ensures after == TouchedDisk(d, v.clock)
  {
    ConflictsAreLive(d.t.live, v.rq.uploads);
    IdleRound(d, v.rq, v.keys, v.clock, window, v.answer, after);
  }

  ghost predicate CarefulRun(disks: seq<Disk>, rounds: seq<Round>, window: nat) {
    && |disks| == |rounds| + 1
    && forall i :: 0 <= i < |rounds| ==> Careful(disks[i], rounds[i], window, disks[i + 1])
  }

  /** Over any run of such rounds from an accounted disk, the usage stays the true one, and
      each round that changed something ends in its quota or with no older version left. */
  lemma UsageOverRuns(disks: seq<Disk>, rounds: seq<Round>, window: nat, n: nat)
    requires CarefulRun(disks, rounds, window) && window >= 1 && Accounted(disks[0]) && n < |disks|
    ensures Accounted(disks[n])
    ensures n > 0 && Changed(disks[n - 1], rounds[n - 1]) ==>
      WithinQuota(disks[n].t, MaxBytes(disks[n - 1].t.account.value, rounds[n - 1].rq))
  {
    var d := disks[0];
    for i := 0 to n
      invariant d == disks[i] && Accounted(d)
      invariant i > 0 && Changed(disks[i - 1], rounds[i - 1]) ==>
          WithinQuota(d.t, MaxBytes(disks[i - 1].t.account.value, rounds[i - 1].rq))
    {
      RoundStaysAccounted(d, rounds[i], window, disks[i + 1]);
      d := disks[i + 1];
    }
  }

  // ---- A round cut short ------------------------------------------------------------------

  lemma CommitHome(d: Disk, rq: Request, keys: map<Id, Key>, e: Draft, clock: int, c: Disk)
    requires Homed(d) && FreshKeys(d, rq.uploads, keys) && DraftOf(d, rq, keys, e)
    requires OwnIds(d.t.history, AcceptedOf(d, rq)) && c == CommitDisk(d, rq, keys, e, clock)
    ensures Homed(c)
  {
    CommitRound(d, rq, keys, e, clock);
    DraftHome(d, rq, keys, e);
  }

  lemma LessHistory(c: Disk, q: Disk)
    requires Homed(c) && Keeps(c, q)
    requires forall h :: h in q.t.history ==> h in c.t.history && q.t.history[h] == c.t.history[h]
    ensures Homed(q)
  {
  }

  /** A round cut short at its commit, or later but before the quota is looked at, leaves a
      sound account with every id at home. */
  lemma CutShortHome(d: Disk, rq: Request, keys: map<Id, Key>, e: Draft, clock: int, window: nat)
    requires Homed(d) && FreshKeys(d, rq.uploads, keys) && DraftOf(d, rq, keys, e) && window >= 1
    requires OwnIds(d.t.history, AcceptedOf(d, rq))
    ensures Homed(CommitDisk(d, rq, keys, e, clock)) && Homed(ClearedDisk(d, rq, keys, e, clock, window))
  {
    CommitHome(d, rq, keys, e, clock, CommitDisk(d, rq, keys, e, clock));
    ClearRound(d, rq, keys, e, clock, window);
    LessHistory(CommitDisk(d, rq, keys, e, clock), ClearedDisk(d, rq, keys, e, clock, window));
  }

  lemma NextRound(disks: seq<Disk>, rounds: seq<Round>, window: nat, n: nat, d: Disk, after: Disk)
    requires CarefulRun(disks, rounds, window) && window >= 1 && n < |rounds| && d == disks[n] && after == disks[n + 1]
    requires Homed(d)
    ensures Homed(after) && Drift(after.t) == Drift(d.t)
  {
    RoundKeepsDrift(d, rounds[n], window, after);
  }

  /** Over any run of answered rounds the kept usage stays as far from the true one as the
      first found it: no round makes good what one cut short left out. */
  lemma DriftOverRuns(disks: seq<Disk>, rounds: seq<Round>, window: nat, n: nat)
    requires CarefulRun(disks, rounds, window) && window >= 1 && Homed(disks[0]) && n < |disks|
    ensures Homed(disks[n]) && Drift(disks[n].t) == Drift(disks[0].t)
  {
    var d, drift := disks[0], Drift(disks[0].t);
    for i := 0 to n
      invariant d == disks[i] && Homed(d) && Drift(d.t) == drift
    {
      NextRound(disks, rounds, window, i, d, disks[i + 1]);
      d := disks[i + 1];
    }
  }

  /** An accounted account, a round cut short at its commit, and any run after it: the kept
      usage stays off by what the round did to the versions of the records it touched. */
  lemma CutShortStays(d: Disk, rq: Request, keys: map<Id, Key>, e: Draft, clock: int, disks: seq<Disk>,
                      rounds: seq<Round>, window: nat, n: nat)
    requires Accounted(d) && FreshKeys(d, rq.uploads, keys) && DraftOf(d, rq, keys, e) && window >= 1
    requires OwnIds(d.t.history, AcceptedOf(d, rq))
    requires CarefulRun(disks, rounds, window) && n < |disks| && disks[0] == CommitDisk(d, rq, keys, e, clock)
    ensures Drift(disks[n].t) == Minus(UsageIn(d.t, TouchedOf(d, rq)), UsageIn(disks[0].t, TouchedOf(d, rq)))
  {
    CutShortHome(d, rq, keys, e, clock, window);
    CutShortDrift(d, rq, keys, e, clock, window);
    NoDrift(d.t);
    DriftOverRuns(disks, rounds, window, n);
  }

  /** A new account is accounted. */
  lemma NewAccount(now: int, quota: Option<nat>)
    ensures Accounted(Disk(Tables(Some(Account(0, 0, 0, now, now, quota)), map[], map[], 1, map[], map[], Usage(0, 0)),
        map[]))
  {
    var t := Tables(Some(Account(0, 0, 0, now, now, quota)), map[], map[], 1, map[], map[], Usage(0, 0));
    assert Sizes(t.live) == map[];
    assert Only(VersionSizes(t.history), {}) == map[];
    assert OlderAll(t) == {};
  }
}
