/** The relay's rounds as they overlap: writing ones behind the lock, reading ones beside them. */
module LockedRounds {
  import opened SyncLimits
  import opened RelayTables
  import opened RelayRound
  import opened RelayCommitProofs
  import opened RelaySpec
  import opened RoundProofs
  import opened RelayView
  import opened RelayViewProofs
  import opened WriteLock

  // ---------------------------------------------------------------- writing rounds

  /** A writing request, what it drew, when it ran and what it was answered. */
  datatype Job = Job(rq: Request, keys: map<Id, Key>, clock: int, answer: Answer)

  /** What the coordinator promises of a round run alone, however far it got. */
  ghost predicate IsRound(d: Disk, j: Job, window: nat, after: Disk)
    requires UploadIds(j.rq.uploads) <= j.keys.Keys
  {
    && RoundKeeps(d, j.rq, GoalOf(d, j.rq, j.keys, j.clock), after)
    && Within(after.bucket, Whole(d, j.rq, j.keys))
    && (j.answer != Failed ==> Answered(d, j.rq, j.keys, j.clock, window, j.answer, after))
  }

  /** Run alone on any sound disk, these reads and writes are such a round. */
  ghost predicate WorksAsRound(work: seq<Event<Disk>>, j: Job, window: nat)
    requires UploadIds(j.rq.uploads) <= j.keys.Keys
  {
    forall d :: Sound(d) && FreshKeys(d, j.rq.uploads, j.keys) && Sees(d, work) ==>
        IsRound(d, j, window, Stored(d, work))
  }

  /** The calls behind the lock are rounds that draw new keys. */
  ghost predicate RoundsRun(run: seq<Event<Disk>>, jobs: seq<Job>, window: nat, start: Disk) {
    && Possible(Chained, run) && Sees(start, run) && Sound(start) && |jobs| == |After(Chained, run).calls|
    && (forall k :: 0 <= k < |jobs| ==> FreshKeys(FoundBy(start, run, k), jobs[k].rq.uploads, jobs[k].keys))
    && (forall k :: 0 <= k < |jobs| ==> WorksAsRound(Of(run, k), jobs[k], window))
  }

  lemma AloneIsRound(d: Disk, work: seq<Event<Disk>>, j: Job, window: nat, after: Disk)
    requires Sound(d) && FreshKeys(d, j.rq.uploads, j.keys) && WorksAsRound(work, j, window)
    requires Sees(d, work) && after == Stored(d, work)
    ensures IsRound(d, j, window, after) && Sound(after)
  {
  }

  lemma NextIsRound(run: seq<Event<Disk>>, jobs: seq<Job>, window: nat, start: Disk, k: nat, found: Disk, left: Disk)
    requires RoundsRun(run, jobs, window, start) && k < |jobs|
    requires found == FoundBy(start, run, k) && left == FoundBy(start, run, k + 1) && Sound(found)
    ensures FreshKeys(found, jobs[k].rq.uploads, jobs[k].keys)
    ensures IsRound(found, jobs[k], window, left) && Sound(left)
  {
    CallRunsAlone(Chained, run, start, k);
    AloneIsRound(found, Of(run, k), jobs[k], window, left);
  }

  lemma FoundSound(run: seq<Event<Disk>>, jobs: seq<Job>, window: nat, start: Disk, k: nat)
    requires RoundsRun(run, jobs, window, start) && k <= |jobs|
    ensures Sound(FoundBy(start, run, k))
  {
    var found := start;
    for i := 0 to k
      invariant found == FoundBy(start, run, i) && Sound(found)
    {
      var left := FoundBy(start, run, i + 1);
      NextIsRound(run, jobs, window, start, i, found, left);
      found := left;
    }
  }

  /** However requests overlap, each round is one of a sequence in order of arrival: it is
      answered, and leaves the disk, as when run alone on what those before it left. */
  lemma ConcurrentRounds(run: seq<Event<Disk>>, jobs: seq<Job>, window: nat, start: Disk, k: nat, found: Disk,
                         left: Disk)
    requires RoundsRun(run, jobs, window, start) && k < |jobs|
    requires found == FoundBy(start, run, k) && left == FoundBy(start, run, k + 1)
    ensures Sound(found) && FreshKeys(found, jobs[k].rq.uploads, jobs[k].keys) && IsRound(found, jobs[k], window, left)
    ensures FoundBy(start, run, 0) == start && FoundBy(start, run, |jobs|) == Stored(start, run)
    ensures Sound(left) && Sound(Stored(start, run))
  {
    FoundSound(run, jobs, window, start, k);
    NextIsRound(run, jobs, window, start, k, found, left);
    FoundSound(run, jobs, window, start, |jobs|);
    CallRunsAlone(Chained, run, start, k);
  }

  /** And to its clients it has happened whole, or not at all. */
  lemma ConcurrentOnView(run: seq<Event<Disk>>, jobs: seq<Job>, window: nat, start: Disk, k: nat, found: Disk,
                         left: Disk,
                         report: Report)
    requires RoundsRun(run, jobs, window, start) && k < |jobs| && window >= 1
    requires found == FoundBy(start, run, k) && left == FoundBy(start, run, k + 1)
    ensures Sound(found) && Sound(left)
    ensures var before, after := ViewOf(found), ViewOf(left);
      if jobs[k].answer == Failed then
        after == before || ClientRound(before, jobs[k].rq, Accepting(before, jobs[k].rq, report), after)
      else ClientRound(before, jobs[k].rq, jobs[k].answer, after)
  {
    var j := jobs[k];
    ConcurrentRounds(run, jobs, window, start, k, found, left);
    if j.answer == Failed {
      FailureOnView(found, j.rq, j.keys, j.clock, left, report);
    } else {
      AnswerOnView(found, j.rq, j.keys, j.clock, window, j.answer, left);
    }
  }

  // ---------------------------------------------------------------- reading rounds beside them

  /** Rounds one after another, each of which draws new keys and finds at most the objects
      the one before may leave. */
  ghost predicate InTurn(starts: seq<Disk>, jobs: seq<Job>) {
    && |starts| == |jobs|
    && (forall k :: 0 <= k < |jobs| ==> FreshKeys(starts[k], jobs[k].rq.uploads, jobs[k].keys))
    && (forall k :: 0 < k < |jobs| ==> LeavesAtMost(starts[k - 1], jobs[k - 1], starts[k]))
    && (|jobs| > 0 ==> DrawnOnce(starts[0], jobs))
  }

  /** No key is drawn twice, or for an object that was there from the start. */
  ghost predicate DrawnOnce(start: Disk, jobs: seq<Job>) {
    && (forall i, j :: 0 <= i < j < |jobs| ==> jobs[i].keys.Values !! jobs[j].keys.Values)
    && (forall k :: 0 <= k < |jobs| ==> start.bucket.Keys !! jobs[k].keys.Values)
  }

  /** All the disk's objects are those the round found or those it writes. The coordinator
      promises this at whichever storage call the round stops, so of every disk it passes. */
  ghost predicate LeavesAtMost(d: Disk, j: Job, after: Disk) {
    UploadIds(j.rq.uploads) <= j.keys.Keys && Within(after.bucket, Whole(d, j.rq, j.keys))
  }

  ghost predicate SeenBy(starts: seq<Disk>, jobs: seq<Job>, k: nat, d: Disk) {
    k < |starts| == |jobs| && LeavesAtMost(starts[k], jobs[k], d)
  }

  lemma LockedRound(run: seq<Event<Disk>>, jobs: seq<Job>, window: nat, start: Disk, k: nat, found: Disk, left: Disk)
    requires RoundsRun(run, jobs, window, start) && k < |jobs|
    requires found == FoundBy(start, run, k) && left == FoundBy(start, run, k + 1)
    ensures FreshKeys(found, jobs[k].rq.uploads, jobs[k].keys) && LeavesAtMost(found, jobs[k], left)
    ensures FoundBy(start, run, 0) == start
  {
    ConcurrentRounds(run, jobs, window, start, k, found, left);
  }

  /** Rounds behind the lock that draw every key once are in turn. */
  lemma LockedInTurn(run: seq<Event<Disk>>, jobs: seq<Job>, window: nat, start: Disk, starts: seq<Disk>)
    requires RoundsRun(run, jobs, window, start) && |starts| == |jobs| && DrawnOnce(start, jobs)
    requires forall k :: 0 <= k < |jobs| ==> starts[k] == FoundBy(start, run, k)
    ensures InTurn(starts, jobs)
  {
    forall k | 0 <= k < |jobs| ensures FreshKeys(starts[k], jobs[k].rq.uploads, jobs[k].keys)
      ensures k + 1 < |jobs| ==> LeavesAtMost(starts[k], jobs[k], starts[k + 1])
      ensures k == 0 ==> starts[k] == start
    {
      LockedRound(run, jobs, window, start, k, starts[k], FoundBy(start, run, k + 1));
    }
    forall k | 0 < k < |jobs| ensures LeavesAtMost(starts[k - 1], jobs[k - 1], starts[k]) {
      assert LeavesAtMost(starts[k - 1], jobs[k - 1], starts[k - 1 + 1]);
    }
  }

  /** What a round writes is added under new keys. */
  lemma AddsObjects(d: Disk, j: Job, all: map<Key, string>) returns (more: map<Key, string>)
    requires FreshKeys(d, j.rq.uploads, j.keys) && Within(d.bucket, all) && all.Keys !! j.keys.Values
    ensures Within(all, more) && Within(Whole(d, j.rq, j.keys), more) && more.Keys <= all.Keys + j.keys.Values
  {
    var us := AcceptedOf(d, j.rq);
    AcceptedFrom(d, j.rq);
    more := WithObjects(all, us, j.keys);
    WithinWritten(d.bucket, all, us, j.keys);
    ObjectKeysWritten(all, us, j.keys);
  }

  /** None of the keys still to be drawn is taken. */
  ghost predicate StillFree(taken: set<Key>, jobs: seq<Job>, k: nat) {
    forall j :: k <= j < |jobs| ==> taken !! jobs[j].keys.Values
  }

  lemma TakesOwn(start: Disk, jobs: seq<Job>, k: nat, taken: set<Key>, more: set<Key>)
    requires DrawnOnce(start, jobs) && k < |jobs| && StillFree(taken, jobs, k) && more <= taken + jobs[k].keys.Values
    ensures StillFree(more, jobs, k + 1)
  {
  }

  /** Everything ever written by the first `n` rounds, under one text per key. */
  lemma AllObjects(starts: seq<Disk>, jobs: seq<Job>, n: nat) returns (all: map<Key, string>)
    requires InTurn(starts, jobs) && 0 < n <= |jobs|
    ensures forall k :: 0 <= k < n ==> Within(Whole(starts[k], jobs[k].rq, jobs[k].keys), all)
  {
    all := starts[0].bucket;
    for k := 0 to n
      invariant forall i :: 0 <= i < k ==> Within(Whole(starts[i], jobs[i].rq, jobs[i].keys), all)
      invariant k < |jobs| ==> Within(starts[k].bucket, all)
      invariant StillFree(all.Keys, jobs, k)
    {
      var more := AddsObjects(starts[k], jobs[k], all);
      TakesOwn(starts[0], jobs, k, all.Keys, more.Keys);
      if k + 1 < |jobs| { assert LeavesAtMost(starts[k + 1 - 1], jobs[k], starts[k + 1]); }
      all := more;
    }
  }

  /** An object found under a key again has the contents it had. */
  lemma ObjectStays(starts: seq<Disk>, jobs: seq<Job>, p: nat, before: Disk, q: nat, after: Disk, k: Key)
    requires InTurn(starts, jobs) && SeenBy(starts, jobs, p, before) && SeenBy(starts, jobs, q, after)
    requires k in before.bucket && k in after.bucket
    ensures after.bucket[k] == before.bucket[k]
  {
    var all := AllObjects(starts, jobs, |jobs|);
    assert Within(Whole(starts[p], jobs[p].rq, jobs[p].keys), all);
    assert Within(Whole(starts[q], jobs[q].rq, jobs[q].keys), all);
  }

  /** A page whose rows are read at once, and whose objects are read one by one while rounds
      write, is the page of the moment its rows were read. */
  lemma OverlappingPage(starts: seq<Disk>, jobs: seq<Job>, p: nat, d: Disk, rounds: seq<nat>, found: seq<Disk>,
                        rq: Request, page: seq<PageRow>, envelopes: seq<Envelope>, hasMore: bool)
    requires InTurn(starts, jobs) && SeenBy(starts, jobs, p, d) && Sound(d) && page != []
    requires var limit := AtLeastOne(rq.downloadLimit);
             var candidates := Candidates(d.t.live, rq.cursor, limit);
             IsPage(candidates, page, limit, MAX_DOWNLOAD_PAGE_BYTES, RowBytes) && (hasMore <==> |page| < |candidates|)
    requires |rounds| == |found| == |page| == |envelopes|
    requires forall i :: 0 <= i < |page| ==> SeenBy(starts, jobs, rounds[i], found[i])
    requires forall i :: 0 <= i < |page| ==>
      page[i].row.key in found[i].bucket && envelopes[i] == Hydrated(found[i].bucket, page[i])
    ensures Delivers(ViewOf(d).cells, rq.cursor, envelopes, page[|page| - 1].row.seqno, hasMore)
  {
    PageOfRows(d.t.live, rq.cursor, AtLeastOne(rq.downloadLimit), page);
    RowsAboveLive(d.t.live, rq.cursor);
    forall i | 0 <= i < |page| ensures page[i].row.key in d.bucket && envelopes[i] == Hydrated(d.bucket, page[i]) {
      assert page[i] == RowsAbove(d.t.live, rq.cursor)[i];
      assert page[i] in RowsAbove(d.t.live, rq.cursor);
      ObjectStays(starts, jobs, p, d, rounds[i], found[i], page[i].row.key);
    }
    PageDelivers(d, rq, page, envelopes, hasMore);
  }
}
