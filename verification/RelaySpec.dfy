/** What a round answers and the storage it leaves when no storage call fails. */
module RelaySpec {
  import opened Wrappers
  import opened Collections
  import opened RelayTables
  import opened RelayRound
  import opened RelayCleanup
  import opened SyncLimits

  datatype Envelope = Envelope(seqno: nat, id: Id, slot: Slot, ciphertext: string)
  datatype Report = Report(envelopeCount: int, ciphertextBytes: int, storageBytes: int, maxBytes: int)
  datatype Answer =
    | NoAccount
    | Failed
    | QuotaExceeded
    | Reply(cursor: int, envelopes: seq<Envelope>, conflicts: seq<Envelope>, hasMore: bool, reset: bool,
            writesAccepted: bool, usage: Report)

  const ACCOUNT_SEEN_INTERVAL_MS := 3_600_000

  function Now(a: Account, clock: int): int { if clock > a.updatedAt + 1 then clock else a.updatedAt + 1 }

  predicate TouchDue(a: Account, clock: int) { Now(a, clock) - a.lastSeenAt >= ACCOUNT_SEEN_INTERVAL_MS }

  function MaxBytes(a: Account, rq: Request): nat {
    if a.quota.Some? && a.quota.value != 0 then a.quota.value else rq.maxAccountBytes
  }

  function ReportOf(count: int, bytes: int, usage: Usage, maxBytes: int): Report {
    Report(count, bytes, StorageBytes(count, bytes) + UsageBytes(usage), maxBytes)
  }

  /** The sequence numbers of live records a client at `cursor` has not been sent. */
  function SeqsAbove(live: map<Slot, Row>, cursor: int): set<nat> {
    set s | s in live && live[s].seqno > cursor :: live[s].seqno
  }

  function AtLeastOne(n: int): nat { if n < 1 then 1 else n }

  function Touched(us: seq<Upload>, ds: seq<Deletion>): set<Slot> { UploadSlots(us) + DeletionSlots(ds) }

  /** The uploads a round accepts. */
  function AcceptedOf(d: Disk, rq: Request): seq<Upload> { Accepted(rq.uploads, LiveIds(d.t.live)) }

  predicate Changes(d: Disk, rq: Request) { AcceptedOf(d, rq) != [] || Removed(d.t, rq.deletions) != {} }

  /** The committed disk: every accepted object written, the batch applied. */
  function CommitDisk(d: Disk, rq: Request, keys: map<Id, Key>, e: Draft, clock: int): Disk
    requires d.t.account.Some? && UploadIds(rq.uploads) <= keys.Keys
  {
    var us := Accepted(rq.uploads, LiveIds(d.t.live));
    AcceptedAreNew(rq.uploads, LiveIds(d.t.live));
    var a := d.t.account.value;
    Disk(WithAccount(e, a, Now(a, clock), us != [] || Removed(d.t, rq.deletions) != {}, TouchDue(a, clock)),
         WithObjects(d.bucket - Superseded(d.t, us), us, keys))
  }

  /** The usage a round writes back before evicting: what its slots hold now replaces what
      all requested slots held before. */
  ghost function UsageAfter(before: Tables, rq: Request, us: seq<Upload>, after: Tables): Usage {
    var had := UsageIn(before, Touched(rq.uploads, rq.deletions));
    var has := UsageIn(after, Touched(us, rq.deletions));
    Usage(before.usage.versions + has.versions - had.versions, before.usage.bytes + has.bytes - had.bytes)
  }

  ghost function Evict(d: Disk, usage: Usage, room: int): Disk {
    var dropped := DropHistory(d, Evicted(d.t, usage, room));
    Disk(dropped.t.(usage := Spare(d.t, usage, room)), dropped.bucket)
  }

  /** The disk after purging and pruning, before the quota is looked at again. */
  ghost function ClearedDisk(d: Disk, rq: Request, keys: map<Id, Key>, e: Draft, clock: int, window: nat): Disk
    requires d.t.account.Some? && UploadIds(rq.uploads) <= keys.Keys
  {
    var us := Accepted(rq.uploads, LiveIds(d.t.live));
    Prune(Purge(CommitDisk(d, rq, keys, e, clock), Removed(d.t, rq.deletions)), Touched(us, rq.deletions),
          e.continued, window)
  }

  /** A cleared disk with its history usage settled, and the quota met if it can be. */
  ghost function SettledDisk(d: Disk, rq: Request, e: Draft, cleared: Disk): Disk
    requires d.t.account.Some?
  {
    Evict(cleared, UsageAfter(d.t, rq, AcceptedOf(d, rq), cleared.t),
          MaxBytes(d.t.account.value, rq) - StorageBytes(e.count, e.bytes))
  }

  /** The disk after a round that committed draft `e` and finished its clean-up. */
  ghost function FinalDisk(d: Disk, rq: Request, keys: map<Id, Key>, e: Draft, clock: int, window: nat): Disk
    requires d.t.account.Some? && UploadIds(rq.uploads) <= keys.Keys
  {
    if Changes(d, rq) then SettledDisk(d, rq, e, ClearedDisk(d, rq, keys, e, clock, window))
    else CommitDisk(d, rq, keys, e, clock)
  }

  // ---- Answers ---------------------------------------------------------------

  datatype PageRow = PageRow(slot: Slot, row: Row)

  function RowBytes(r: PageRow): int { r.row.bytes }

  predicate HasSeq(live: map<Slot, Row>, n: nat) { exists s :: s in live && live[s].seqno == n }

  ghost function SlotAt(live: map<Slot, Row>, n: nat): (s: Slot)
    requires HasSeq(live, n)
    ensures s in live && live[s].seqno == n
  {
    var s :| s in live && live[s].seqno == n;
    s
  }

  ghost function RowsOf(live: map<Slot, Row>, ns: seq<nat>): (rows: seq<PageRow>)
    requires forall n :: n in ns ==> HasSeq(live, n)
    ensures |rows| == |ns|
    ensures forall i :: 0 <= i < |ns| ==>
              rows[i].slot in live && rows[i].row == live[rows[i].slot] && rows[i].row.seqno == ns[i]
  {
    if ns == [] then []
    else
      var s := SlotAt(live, ns[|ns| - 1]);
      RowsOf(live, ns[..|ns| - 1]) + [PageRow(s, live[s])]
  }

  /** The rows above a cursor, lowest sequence number first. */
  ghost function RowsAbove(live: map<Slot, Row>, cursor: int): (rows: seq<PageRow>)
    ensures |rows| == |SeqsAbove(live, cursor)|
  {
    SeqsHaveRows(live, cursor);
    RowsOf(live, Ascending(SeqsAbove(live, cursor)))
  }

  lemma SeqsHaveRows(live: map<Slot, Row>, cursor: int)
    ensures |Ascending(SeqsAbove(live, cursor))| == |SeqsAbove(live, cursor)|
    ensures forall n :: n in Ascending(SeqsAbove(live, cursor)) ==> HasSeq(live, n)
  {
    AscendingSpec(SeqsAbove(live, cursor));
  }

  lemma RowsAboveLive(live: map<Slot, Row>, cursor: int)
    ensures forall r :: r in RowsAbove(live, cursor) ==> r.slot in live && r.row == live[r.slot] && r.row.seqno > cursor
    ensures forall i, j :: 0 <= i < j < |RowsAbove(live, cursor)| ==>
              RowsAbove(live, cursor)[i].row.seqno < RowsAbove(live, cursor)[j].row.seqno
  {
    var above := SeqsAbove(live, cursor);
    var ns := Ascending(above);
    AscendingSpec(above);
    SeqsHaveRows(live, cursor);
    var rows := RowsAbove(live, cursor);
    assert rows == RowsOf(live, ns);
    forall r | r in rows ensures r.slot in live && r.row == live[r.slot] && r.row.seqno > cursor {
      var i :| 0 <= i < |rows| && rows[i] == r;
      assert ns[i] in ns;
    }
  }

  lemma RowIsAbove(live: map<Slot, Row>, cursor: int, nextSeq: nat, s: Slot)
    requires LiveConsistent(live, nextSeq) && s in live && live[s].seqno > cursor
    ensures PageRow(s, live[s]) in RowsAbove(live, cursor)
  {
    var ns := Ascending(SeqsAbove(live, cursor));
    AscendingSpec(SeqsAbove(live, cursor));
    assert live[s].seqno in ns;
    var i :| 0 <= i < |ns| && ns[i] == live[s].seqno;
    RowAtSeq(live, cursor, nextSeq, i, s);
  }

  /** Exactly the live rows above the cursor, in strictly ascending order. */
  lemma RowsAboveSpec(live: map<Slot, Row>, cursor: int, nextSeq: nat)
    requires LiveConsistent(live, nextSeq)
    ensures forall r :: r in RowsAbove(live, cursor) <==>
        r.slot in live && r.row == live[r.slot] && r.row.seqno > cursor
    ensures forall i, j :: 0 <= i < j < |RowsAbove(live, cursor)| ==>
              RowsAbove(live, cursor)[i].row.seqno < RowsAbove(live, cursor)[j].row.seqno
  {
    RowsAboveLive(live, cursor);
    forall r: PageRow | r.slot in live && r.row == live[r.slot] && r.row.seqno > cursor
      ensures r in RowsAbove(live, cursor)
    {
      RowIsAbove(live, cursor, nextSeq, r.slot);
    }
  }

  /** The only live row with the `i`-th sequence number is the `i`-th row. */
  lemma RowAtSeq(live: map<Slot, Row>, cursor: int, nextSeq: nat, i: nat, s: Slot)
    requires LiveConsistent(live, nextSeq) && s in live && i < |Ascending(SeqsAbove(live, cursor))|
    requires live[s].seqno == Ascending(SeqsAbove(live, cursor))[i]
    ensures i < |RowsAbove(live, cursor)| && RowsAbove(live, cursor)[i] == PageRow(s, live[s])
  {
    SeqsHaveRows(live, cursor);
    assert RowsAbove(live, cursor) == RowsOf(live, Ascending(SeqsAbove(live, cursor)));
  }

  lemma SeqCount(live: map<Slot, Row>, cursor: int)
    ensures |Ascending(SeqsAbove(live, cursor))| == |RowsAbove(live, cursor)|
  {
    AscendingSpec(SeqsAbove(live, cursor));
  }

  lemma SeqHasRow(live: map<Slot, Row>, cursor: int, i: nat)
    requires i < |Ascending(SeqsAbove(live, cursor))|
    ensures HasSeq(live, Ascending(SeqsAbove(live, cursor))[i])
  {
    AscendingSpec(SeqsAbove(live, cursor));
    assert Ascending(SeqsAbove(live, cursor))[i] in SeqsAbove(live, cursor);
  }

  function Min(a: nat, b: nat): nat { if a < b then a else b }

  /** The candidate rows of one page: one more than the limit, to see whether more follow. */
  ghost function Candidates(live: map<Slot, Row>, cursor: int, limit: nat): seq<PageRow> {
    var rows := RowsAbove(live, cursor);
    rows[..Min(limit + 1, |rows|)]
  }

  function Hydrated(bucket: map<Key, string>, r: PageRow): Envelope
    requires r.row.key in bucket
  {
    Envelope(r.row.seqno, r.row.id, r.slot, bucket[r.row.key])
  }

  /** The envelopes carry these rows, each with its stored object. */
  ghost predicate Carries(d: Disk, rows: seq<PageRow>, envelopes: seq<Envelope>) {
    && |envelopes| == |rows|
    && (forall i :: 0 <= i < |rows| ==> rows[i].row.key in d.bucket && envelopes[i] == Hydrated(d.bucket, rows[i]))
  }

  function LiveRows(live: map<Slot, Row>, slots: seq<Slot>): (rows: seq<PageRow>)
    requires forall s :: s in slots ==> s in live
  {
    seq(|slots|, i requires 0 <= i < |slots| => PageRow(slots[i], live[slots[i]]))
  }

  lemma {:induction false} ConflictsAreLive(live: map<Slot, Row>, us: seq<Upload>)
    ensures forall s :: s in ConflictSlots(live, us) ==> s in live
  {
    if us != [] { ConflictsAreLive(live, us[..|us| - 1]); }
  }

  function TouchedDisk(d: Disk, clock: int): Disk
    requires d.t.account.Some?
  {
    var a := d.t.account.value;
    if TouchDue(a, clock) then d.(t := d.t.(account := Some(a.(lastSeenAt := Now(a, clock))))) else d
  }

  function AccountReport(t: Tables, rq: Request): Report
    requires t.account.Some?
  {
    var a := t.account.value;
    ReportOf(a.envelopeCount, a.ciphertextBytes, t.usage, MaxBytes(a, rq))
  }

  function Max(a: int, b: int): int { if a > b then a else b }

  /** The answer of a round that has something to download. */
  ghost predicate PageAnswer(d: Disk, rq: Request, clock: int, answer: Answer, after: Disk)
    requires d.t.account.Some?
  {
    var limit := AtLeastOne(rq.downloadLimit);
    var candidates := Candidates(d.t.live, rq.cursor, limit);
    && answer.Reply? && after == TouchedDisk(d, clock)
    && (exists page: seq<PageRow> ::
          page != [] && IsPage(candidates, page, limit, MAX_DOWNLOAD_PAGE_BYTES, RowBytes)
          && Carries(d, page, answer.envelopes) && answer.cursor == page[|page| - 1].row.seqno)
    && answer == Reply(answer.cursor, answer.envelopes, [], |answer.envelopes| < |candidates|, false,
                       !rq.Mutates(), AccountReport(d.t, rq))
  }

  lemma PageAnswered(d: Disk, rq: Request, clock: int, page: seq<PageRow>, envelopes: seq<Envelope>, hasMore: bool)
    requires d.t.account.Some? && page != []
    requires var limit := AtLeastOne(rq.downloadLimit);
             var candidates := Candidates(d.t.live, rq.cursor, limit);
             IsPage(candidates, page, limit, MAX_DOWNLOAD_PAGE_BYTES, RowBytes) && (hasMore <==> |page| < |candidates|)
    requires Carries(d, page, envelopes)
    ensures PageAnswer(d, rq, clock, Reply(page[|page| - 1].row.seqno, envelopes, [], hasMore, false, !rq.Mutates(),
                                           AccountReport(d.t, rq)), TouchedDisk(d, clock))
  {
  }

  /** A round past the reading exits: refused for the quota, or written to the end. */
  ghost predicate Written(d: Disk, rq: Request, keys: map<Id, Key>, clock: int, window: nat, answer: Answer,
                          after: Disk)
    requires d.t.account.Some? && UploadIds(rq.uploads) <= keys.Keys
  {
    var a := d.t.account.value;
    match RoundDraft(d.t, a, rq, keys, MaxBytes(a, rq))
    case None => answer == QuotaExceeded && after == d
    case Some(e) =>
      && after == FinalDisk(d, rq, keys, e, clock, window)
      && answer == Reply(Max(rq.cursor, e.seqno), [], [], false, false, true,
                         ReportOf(e.count, e.bytes, after.t.usage, MaxBytes(a, rq)))
  }

  /** A round that was answered, and what it left: one clause per exit. */
  ghost predicate Answered(d: Disk, rq: Request, keys: map<Id, Key>, clock: int, window: nat, answer: Answer,
                           after: Disk)
    requires UploadIds(rq.uploads) <= keys.Keys
  {
    match d.t.account
    case None => answer == NoAccount && after == d
    case Some(a) =>
      ConflictsAreLive(d.t.live, rq.uploads);
      var conflicts := LiveRows(d.t.live, ConflictSlots(d.t.live, rq.uploads));
      if rq.cursor > a.nextSeq then
        && answer == Reply(0, [], [], false, true, false, AccountReport(d.t, rq))
        && after == TouchedDisk(d, clock)
      else if Candidates(d.t.live, rq.cursor, AtLeastOne(rq.downloadLimit)) != [] then
        PageAnswer(d, rq, clock, answer, after)
      else if conflicts != [] then
        && answer.Reply? && after == TouchedDisk(d, clock) && Carries(d, conflicts, answer.conflicts)
        && answer == Reply(Max(rq.cursor, a.nextSeq), [], answer.conflicts, false, false, false, AccountReport(d.t, rq))
      else
        Written(d, rq, keys, clock, window, answer, after)
  }

  /** The disk as a round would commit it. */
  ghost function DraftGoal(d: Disk, rq: Request, keys: map<Id, Key>, clock: int): Disk
    requires d.t.account.Some? && UploadIds(rq.uploads) <= keys.Keys
  {
    match RoundDraft(d.t, d.t.account.value, rq, keys, MaxBytes(d.t.account.value, rq))
    case None => d
    case Some(e) => CommitDisk(d, rq, keys, e, clock)
  }

  /** What a round is after: only one that no earlier exit answers commits anything. */
  ghost function GoalOf(d: Disk, rq: Request, keys: map<Id, Key>, clock: int): Disk
    requires UploadIds(rq.uploads) <= keys.Keys
  {
    if d.t.account.None? || rq.cursor > d.t.account.value.nextSeq
      || Candidates(d.t.live, rq.cursor, AtLeastOne(rq.downloadLimit)) != []
    then d
    else
      ConflictsAreLive(d.t.live, rq.uploads);
      if LiveRows(d.t.live, ConflictSlots(d.t.live, rq.uploads)) != [] then d else DraftGoal(d, rq, keys, clock)
  }

  /** The same live records with the same contents, under the same sequence counter. */
  ghost predicate SameLive(before: Disk, after: Disk) {
    && after.t.live == before.t.live && before.t.account.Some? && after.t.account.Some?
    && after.t.account.value.nextSeq == before.t.account.value.nextSeq
    && (forall s :: s in before.t.live && before.t.live[s].key in before.bucket
                    && before.t.live[s].key in after.bucket ==>
          after.bucket[before.t.live[s].key] == before.bucket[before.t.live[s].key])
  }

  /** What a round keeps, however far it got: to its clients either all it is after has
      happened or nothing has. */
  ghost predicate RoundKeeps(d: Disk, rq: Request, goal: Disk, after: Disk) {
    && Sound(after) && d.t.account.Some?
    && (AllNamed(d) && RestageSafe(d, rq.deletions) ==> AllNamed(after))
    && after.t.account.value.nextSeq >= d.t.account.value.nextSeq
    && (SameLive(d, after) || SameLive(goal, after))
  }
}
