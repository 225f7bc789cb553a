/** Every answered round on the storage is a round on the clients' view. */
module RelayViewProofs {
  import opened Wrappers
  import opened SyncLimits
  import opened RelayTables
  import opened RelayRound
  import opened RelayRoundProofs
  import opened RelayCommitProofs
  import opened RelayCleanupProofs
  import opened RelaySpec
  import opened RelayView
  import opened RoundProofs
  import opened RelayTheorems

  lemma CellsFromRows(d: Disk)
    requires Sound(d)
    ensures CellsOf(d.t.live, d.bucket).Keys == d.t.live.Keys
    ensures HeldIds(CellsOf(d.t.live, d.bucket)) == LiveIds(d.t.live)
  {
    var cells := CellsOf(d.t.live, d.bucket);
    assert ObjectsPresent(d);
    forall s | s in d.t.live ensures d.t.live[s].id in HeldIds(cells) {
      assert cells[s].id == d.t.live[s].id;
    }
  }

  lemma CellsSame(d: Disk, after: Disk)
    requires ObjectsPresent(d) && ObjectsPresent(after) && SameContents(d, after) && after.t.live == d.t.live
    ensures CellsOf(after.t.live, after.bucket) == CellsOf(d.t.live, d.bucket)
  {
  }

  lemma ViewSame(d: Disk, after: Disk)
    requires Sound(d) && Keeps(d, after)
    ensures ViewOf(after) == ViewOf(d)
  {
    CellsSame(d, after);
  }

  lemma {:induction false} StoreAllCells(d: Draft, us: seq<Upload>, keys: map<Id, Key>, maxBytes: int,
                                         bucket: map<Key, string>)
    requires UploadIds(us) <= keys.Keys && StoreAll(d, us, keys, maxBytes).Some?
    requires forall u :: u in us && u.id in keys ==> keys[u.id] in bucket && bucket[keys[u.id]] == u.ciphertext
    ensures CellsOf(StoreAll(d, us, keys, maxBytes).value.t.live, bucket)
            == StoreCells(CellsOf(d.t.live, bucket), us, d.seqno)
  {
    if us != [] {
      var n := |us| - 1;
      UploadIdsAppend(us);
      assert us == us[..n] + [us[n]];
      StoreAllIds(d, us[..n], keys, maxBytes);
      StoreAllCells(d, us[..n], keys, maxBytes, bucket);
      StoreCellsNext(d, us, keys, maxBytes, bucket);
    }
  }

  lemma StoreCellsNext(d: Draft, us: seq<Upload>, keys: map<Id, Key>, maxBytes: int, bucket: map<Key, string>)
    requires us != [] && UploadIds(us) <= keys.Keys && UploadIds(us[..|us| - 1]) <= keys.Keys
    requires StoreAll(d, us, keys, maxBytes).Some? && us[|us| - 1].id in keys
    requires keys[us[|us| - 1].id] in bucket && bucket[keys[us[|us| - 1].id]] == us[|us| - 1].ciphertext
    requires var b := StoreAll(d, us[..|us| - 1], keys, maxBytes).value;
             && b.seqno == d.seqno + |us| - 1
             && CellsOf(b.t.live, bucket) == StoreCells(CellsOf(d.t.live, bucket), us[..|us| - 1], d.seqno)
    ensures CellsOf(StoreAll(d, us, keys, maxBytes).value.t.live, bucket)
            == StoreCells(CellsOf(d.t.live, bucket), us, d.seqno)
  {
    StoreOneCells(StoreAll(d, us[..|us| - 1], keys, maxBytes).value, us[|us| - 1], keys[us[|us| - 1].id], bucket);
  }

  lemma StoreOneCells(b: Draft, u: Upload, key: Key, bucket: map<Key, string>)
    requires key in bucket && bucket[key] == u.ciphertext
    ensures CellsOf(StoreOne(b, u, key).t.live, bucket)
            == CellsOf(b.t.live, bucket)[u.slot := Cell(b.seqno + 1, u.id, u.ciphertext)]
  {
    CellsUpdate(b.t.live, bucket, u.slot, Row(b.seqno + 1, u.id, key, |u.ciphertext|));
  }

  lemma CellsUpdate(live: map<Slot, Row>, bucket: map<Key, string>, s: Slot, row: Row)
    requires row.key in bucket
    ensures CellsOf(live[s := row], bucket) == CellsOf(live, bucket)[s := Cell(row.seqno, row.id, bucket[row.key])]
  {
  }

  lemma CellsWithout(d: Disk, w: Disk, gone: set<Slot>)
    requires Sound(d) && Keeps(d, w)
    ensures CellsOf(d.t.live - gone, w.bucket) == CellsOf(d.t.live, d.bucket) - gone
  {
    assert ObjectsPresent(d) && ObjectsPresent(w);
  }

  lemma DraftCells(b: Draft, us: seq<Upload>, keys: map<Id, Key>, maxBytes: int, e: Draft, bucket: map<Key, string>,
                   cells: map<Slot, Cell>)
    requires UploadIds(us) <= keys.Keys && StoreAll(b, us, keys, maxBytes) == Some(e)
    requires forall u :: u in us && u.id in keys ==> keys[u.id] in bucket && bucket[keys[u.id]] == u.ciphertext
    requires CellsOf(b.t.live, bucket) == cells
    ensures CellsOf(e.t.live, bucket) == StoreCells(cells, us, b.seqno)
  {
    StoreAllCells(b, us, keys, maxBytes, bucket);
  }

  /** The draft the uploads are stored on. */
  lemma AfterDeletions(d: Disk, rq: Request, keys: map<Id, Key>, e: Draft) returns (b: Draft)
    requires d.t.account.Some? && UploadIds(AcceptedOf(d, rq)) <= keys.Keys && DraftOf(d, rq, keys, e)
    ensures StoreAll(b, AcceptedOf(d, rq), keys, MaxBytes(d.t.account.value, rq)) == Some(e)
    ensures b.t.live == d.t.live - Removed(d.t, rq.deletions) && b.seqno == d.t.account.value.nextSeq
  {
    var start := Start(BaseOf(d, rq, keys), d.t.account.value);
    b := DeleteAll(start, rq.deletions);
    DeleteAllEffect(start, rq.deletions);
    DeleteAllTotals(start, rq.deletions);
  }

  lemma CommitCells(d: Disk, rq: Request, keys: map<Id, Key>, e: Draft, w: Disk)
    requires Sound(d) && FreshKeys(d, rq.uploads, keys) && DraftOf(d, rq, keys, e)
    requires UploadIds(AcceptedOf(d, rq)) <= keys.Keys && w == WrittenDisk(d, rq, keys) && Keeps(d, w)
    ensures CellsOf(e.t.live, w.bucket)
            == StoreCells(CellsOf(d.t.live, d.bucket) - Removed(d.t, rq.deletions), AcceptedOf(d, rq),
                          d.t.account.value.nextSeq)
  {
    var gone := Removed(d.t, rq.deletions);
    var b := AfterDeletions(d, rq, keys, e);
    var cells := CellsOf(d.t.live, d.bucket) - gone;
    assert CellsOf(b.t.live, w.bucket) == cells by { CellsWithout(d, w, gone); }
    assert forall u :: u in AcceptedOf(d, rq) && u.id in keys
                       ==> keys[u.id] in w.bucket && w.bucket[keys[u.id]] == u.ciphertext by {
      ObjectsIn(d, rq, keys);
    }
    DraftCells(b, AcceptedOf(d, rq), keys, MaxBytes(d.t.account.value, rq), e, w.bucket, cells);
  }

  lemma SameRequestOnView(d: Disk, rq: Request)
    requires Sound(d)
    ensures Removed(d.t, rq.deletions) == Deleted(ViewOf(d).cells, rq.deletions)
    ensures AcceptedOf(d, rq) == Accepted(rq.uploads, HeldIds(ViewOf(d).cells))
  {
    CellsFromRows(d);
  }

  lemma CommitSeqno(d: Disk, rq: Request, keys: map<Id, Key>, e: Draft, clock: int)
    requires Sound(d) && FreshKeys(d, rq.uploads, keys) && DraftOf(d, rq, keys, e)
    ensures CommitDisk(d, rq, keys, e, clock).t.account.Some?
    ensures CommitDisk(d, rq, keys, e, clock).t.account.value.nextSeq == e.seqno
    ensures e.seqno == d.t.account.value.nextSeq + |AcceptedOf(d, rq)|
  {
    DraftIsOn(d, rq, keys, e);
  }

  lemma CommitIsView(d: Disk, rq: Request, keys: map<Id, Key>, e: Draft, clock: int, c: Disk)
    requires Sound(d) && FreshKeys(d, rq.uploads, keys) && DraftOf(d, rq, keys, e)
    requires c == CommitDisk(d, rq, keys, e, clock) && c.t.live == e.t.live
    ensures c.t.account.Some? && ViewOf(c) == StoredView(ViewOf(d), rq) && ViewOf(c).nextSeq == e.seqno
  {
    WrittenKeepsAll(d, rq, keys);
    CommitCells(d, rq, keys, e, WrittenDisk(d, rq, keys));
    CommitSeqno(d, rq, keys, e, clock);
    SameRequestOnView(d, rq);
  }

  /** A committed round stores, on the view, all it accepted and nothing else. */
  lemma CommitOnView(d: Disk, rq: Request, keys: map<Id, Key>, e: Draft, clock: int, window: nat, r: Disk)
    requires Sound(d) && FreshKeys(d, rq.uploads, keys) && DraftOf(d, rq, keys, e) && window >= 1
    requires IsFinal(d, rq, keys, e, clock, window, r)
    ensures r.t.account.Some? && ViewOf(r) == StoredView(ViewOf(d), rq) && ViewOf(r).nextSeq == e.seqno
  {
    var c := CommitDisk(d, rq, keys, e, clock);
    FinishRound(d, rq, keys, e, clock, window, r);
    CommitRound(d, rq, keys, e, clock);
    CommitIsView(d, rq, keys, e, clock, c);
    ViewSame(c, r);
  }

  // ---- Each exit of a round, on the view ------------------------------------------------

  lemma RowsAreCells(d: Disk, rows: seq<PageRow>, envelopes: seq<Envelope>)
    requires Sound(d) && Carries(d, rows, envelopes)
    requires forall r :: r in rows ==> r.slot in d.t.live && r.row == d.t.live[r.slot]
    ensures forall i :: 0 <= i < |envelopes| ==> IsCell(ViewOf(d).cells, envelopes[i])
  {
    forall i | 0 <= i < |envelopes| ensures IsCell(ViewOf(d).cells, envelopes[i]) {
      assert rows[i] in rows;
    }
  }

  /** Where a page ends, every row up to its last sequence number is in it. */
  lemma PrefixComplete(live: map<Slot, Row>, cursor: int, nextSeq: nat, page: seq<PageRow>, s: Slot)
    requires LiveConsistent(live, nextSeq) && page != [] && page <= RowsAbove(live, cursor)
    requires s in live && cursor < live[s].seqno <= page[|page| - 1].row.seqno
    ensures exists i :: 0 <= i < |page| && page[i].slot == s
  {
    var rows := RowsAbove(live, cursor);
    RowsAboveLive(live, cursor);
    RowIsAbove(live, cursor, nextSeq, s);
    var i :| 0 <= i < |rows| && rows[i] == PageRow(s, live[s]);
    assert page[|page| - 1] == rows[|page| - 1];
    assert page[i] == rows[i];
  }

  lemma PageSkipsNothing(d: Disk, cursor: int, page: seq<PageRow>, envelopes: seq<Envelope>)
    requires Sound(d) && page != [] && page <= RowsAbove(d.t.live, cursor) && Carries(d, page, envelopes)
    ensures forall s :: s in ViewOf(d).cells && cursor < ViewOf(d).cells[s].seqno <= page[|page| - 1].row.seqno
                        ==> Carried(envelopes, s)
  {
    CellsFromRows(d);
    forall s | s in d.t.live && cursor < d.t.live[s].seqno <= page[|page| - 1].row.seqno ensures Carried(envelopes, s) {
      PrefixComplete(d.t.live, cursor, d.t.account.value.nextSeq, page, s);
      var i :| 0 <= i < |page| && page[i].slot == s;
      assert envelopes[i].slot == s;
    }
  }

  lemma LastPageDrains(d: Disk, cursor: int, page: seq<PageRow>)
    requires Sound(d) && page != [] && page == RowsAbove(d.t.live, cursor)
    ensures Drained(ViewOf(d).cells, page[|page| - 1].row.seqno)
  {
    CellsFromRows(d);
    RowsAboveLive(d.t.live, cursor);
    forall s | s in d.t.live ensures d.t.live[s].seqno <= page[|page| - 1].row.seqno {
      if d.t.live[s].seqno > cursor {
        RowIsAbove(d.t.live, cursor, d.t.account.value.nextSeq, s);
      } else {
        assert page[0] in page;
      }
    }
  }

  /** A page is a prefix of the rows above the cursor, and all of them when no more follow. */
  lemma PageOfRows(live: map<Slot, Row>, cursor: int, limit: nat, page: seq<PageRow>)
    requires IsPage(Candidates(live, cursor, limit), page, limit, MAX_DOWNLOAD_PAGE_BYTES, RowBytes) && page != []
    ensures page <= RowsAbove(live, cursor)
    ensures |page| == |Candidates(live, cursor, limit)| ==> page == RowsAbove(live, cursor)
  {
  }

  lemma PageInOrder(d: Disk, cursor: int, page: seq<PageRow>, envelopes: seq<Envelope>)
    requires page != [] && page <= RowsAbove(d.t.live, cursor) && Carries(d, page, envelopes)
    ensures forall r :: r in page ==> r.slot in d.t.live && r.row == d.t.live[r.slot]
    ensures forall i :: 0 <= i < |envelopes| ==> envelopes[i].seqno > cursor
    ensures forall i, j :: 0 <= i < j < |envelopes| ==> envelopes[i].seqno < envelopes[j].seqno
  {
    var rows := RowsAbove(d.t.live, cursor);
    RowsAboveLive(d.t.live, cursor);
    assert forall i :: 0 <= i < |page| ==> page[i] == rows[i] && rows[i] in rows;
    forall i, j | 0 <= i < j < |envelopes| ensures envelopes[i].seqno < envelopes[j].seqno {
      assert page[i] == rows[i] && page[j] == rows[j];
    }
  }

  lemma PageDelivers(d: Disk, rq: Request, page: seq<PageRow>, envelopes: seq<Envelope>, hasMore: bool)
    requires Sound(d) && page != []
    requires var limit := AtLeastOne(rq.downloadLimit);
             var candidates := Candidates(d.t.live, rq.cursor, limit);
             IsPage(candidates, page, limit, MAX_DOWNLOAD_PAGE_BYTES, RowBytes) && (hasMore <==> |page| < |candidates|)
    requires Carries(d, page, envelopes)
    ensures Delivers(ViewOf(d).cells, rq.cursor, envelopes, page[|page| - 1].row.seqno, hasMore)
  {
    PageOfRows(d.t.live, rq.cursor, AtLeastOne(rq.downloadLimit), page);
    PageInOrder(d, rq.cursor, page, envelopes);
    RowsAreCells(d, page, envelopes);
    PageSkipsNothing(d, rq.cursor, page, envelopes);
    if !hasMore {
      LastPageDrains(d, rq.cursor, page);
    }
  }

  lemma NothingAboveIsDrained(d: Disk, rq: Request)
    requires Sound(d) && Candidates(d.t.live, rq.cursor, AtLeastOne(rq.downloadLimit)) == []
    ensures Drained(ViewOf(d).cells, rq.cursor)
  {
    CellsFromRows(d);
    assert RowsAbove(d.t.live, rq.cursor) == [];
    forall s | s in ViewOf(d).cells ensures ViewOf(d).cells[s].seqno <= rq.cursor {
      if d.t.live[s].seqno > rq.cursor {
        RowIsAbove(d.t.live, rq.cursor, d.t.account.value.nextSeq, s);
      }
    }
  }

  ghost predicate ConflictsAt(live: map<Slot, Row>, us: seq<Upload>, s: Slot) {
    exists u :: u in us && u.slot == s && Conflicts(live, u)
  }

  lemma {:induction false} ClashSlots(live: map<Slot, Row>, us: seq<Upload>, s: Slot)
    ensures s in ConflictSlots(live, us) <==> ConflictsAt(live, us, s)
  {
    if us != [] {
      var n := |us| - 1;
      assert us == us[..n] + [us[n]];
      ClashSlots(live, us[..n], s);
      if ConflictsAt(live, us[..n], s) {
        var u :| u in us[..n] && u.slot == s && Conflicts(live, u);
        assert u in us;
      }
      assert us[n] in us;
    }
  }

  lemma ConflictsReported(d: Disk, rq: Request, conflicts: seq<PageRow>, envelopes: seq<Envelope>)
    requires Sound(d) && Carries(d, conflicts, envelopes)
    requires forall s :: s in ConflictSlots(d.t.live, rq.uploads) ==> s in d.t.live
    requires conflicts == LiveRows(d.t.live, ConflictSlots(d.t.live, rq.uploads))
    ensures ReportsClashes(ViewOf(d).cells, rq.uploads, envelopes)
  {
    var slots := ConflictSlots(d.t.live, rq.uploads);
    CellsFromRows(d);
    RowsAreCells(d, conflicts, envelopes);
    forall i | 0 <= i < |envelopes| ensures ClashesAt(ViewOf(d).cells, rq.uploads, envelopes[i].slot) {
      assert slots[i] in slots;
      ClashSlots(d.t.live, rq.uploads, slots[i]);
      var u :| u in rq.uploads && u.slot == slots[i] && Conflicts(d.t.live, u);
      assert Clashes(ViewOf(d).cells, u);
    }
    forall u | u in rq.uploads && Clashes(ViewOf(d).cells, u) ensures Carried(envelopes, u.slot) {
      assert Conflicts(d.t.live, u);
      ClashSlots(d.t.live, rq.uploads, u.slot);
      var i :| 0 <= i < |slots| && slots[i] == u.slot;
      assert envelopes[i].slot == u.slot;
    }
  }

  lemma NoClashes(d: Disk, rq: Request)
    requires Sound(d) && ConflictSlots(d.t.live, rq.uploads) == []
    ensures forall u :: u in rq.uploads ==> !Clashes(ViewOf(d).cells, u)
  {
    CellsFromRows(d);
    forall u | u in rq.uploads ensures !Clashes(ViewOf(d).cells, u) {
      ClashSlots(d.t.live, rq.uploads, u.slot);
      assert !Conflicts(d.t.live, u);
    }
  }

  lemma TouchedView(d: Disk, clock: int)
    requires d.t.account.Some?
    ensures TouchedDisk(d, clock).t.account.Some? && ViewOf(TouchedDisk(d, clock)) == ViewOf(d)
  {
  }

  /** Whatever exit a round takes, its client sees a round on the view. */
  lemma AnswerOnView(d: Disk, rq: Request, keys: map<Id, Key>, clock: int, window: nat, answer: Answer, after: Disk)
    requires Sound(d) && FreshKeys(d, rq.uploads, keys) && window >= 1
    requires Answered(d, rq, keys, clock, window, answer, after)
    ensures after.t.account.Some? && ClientRound(ViewOf(d), rq, answer, ViewOf(after))
  {
    var a := d.t.account.value;
    var limit := AtLeastOne(rq.downloadLimit);
    TouchedView(d, clock);
    ConflictsAreLive(d.t.live, rq.uploads);
    var conflicts := LiveRows(d.t.live, ConflictSlots(d.t.live, rq.uploads));
    if rq.cursor > a.nextSeq {
    } else if Candidates(d.t.live, rq.cursor, limit) != [] {
      PageOnView(d, rq, clock, answer, after);
    } else if conflicts != [] {
      NothingAboveIsDrained(d, rq);
      ConflictsReported(d, rq, conflicts, answer.conflicts);
    } else {
      NothingAboveIsDrained(d, rq);
      NoClashes(d, rq);
      WrittenOnView(d, rq, keys, clock, window, answer, after);
    }
  }

  lemma PageOnView(d: Disk, rq: Request, clock: int, answer: Answer, after: Disk)
    requires Sound(d) && rq.cursor <= d.t.account.value.nextSeq && PageAnswer(d, rq, clock, answer, after)
    ensures after.t.account.Some? && ClientRound(ViewOf(d), rq, answer, ViewOf(after))
  {
    TouchedView(d, clock);
    var limit := AtLeastOne(rq.downloadLimit);
    var candidates := Candidates(d.t.live, rq.cursor, limit);
    var page: seq<PageRow> :|
      page != [] && IsPage(candidates, page, limit, MAX_DOWNLOAD_PAGE_BYTES, RowBytes)
      && Carries(d, page, answer.envelopes) && answer.cursor == page[|page| - 1].row.seqno;
    PageDelivers(d, rq, page, answer.envelopes, answer.hasMore);
  }

  lemma WrittenOnView(d: Disk, rq: Request, keys: map<Id, Key>, clock: int, window: nat, answer: Answer, after: Disk)
    requires Sound(d) && FreshKeys(d, rq.uploads, keys) && window >= 1
    requires rq.cursor <= d.t.account.value.nextSeq && Written(d, rq, keys, clock, window, answer, after)
    requires Drained(ViewOf(d).cells, rq.cursor) && forall u :: u in rq.uploads ==> !Clashes(ViewOf(d).cells, u)
    ensures after.t.account.Some? && ClientRound(ViewOf(d), rq, answer, ViewOf(after))
  {
    var a := d.t.account.value;
    var planned := RoundDraft(d.t, a, rq, keys, MaxBytes(a, rq));
    if planned.Some? {
      CommitOnView(d, rq, keys, planned.value, clock, window, after);
    }
  }

  // ---- Rounds cut short, on the view ------------------------------------------------------

  lemma SameLiveSameView(d: Disk, after: Disk)
    requires Sound(d) && Sound(after) && SameLive(d, after)
    ensures ViewOf(after) == ViewOf(d)
  {
    CellsFromRows(d);
    CellsFromRows(after);
  }

  /** What the relay answers a round that committed. */
  function Accepting(view: View, rq: Request, report: Report): Answer {
    Reply(Max(rq.cursor, StoredView(view, rq).nextSeq), [], [], false, false, true, report)
  }

  lemma DraftGoalOnView(d: Disk, rq: Request, keys: map<Id, Key>, clock: int, goal: Disk)
    requires Sound(d) && FreshKeys(d, rq.uploads, keys) && goal == DraftGoal(d, rq, keys, clock)
    ensures Sound(goal) && (goal == d || ViewOf(goal) == StoredView(ViewOf(d), rq))
  {
    var a := d.t.account.value;
    var planned := RoundDraft(d.t, a, rq, keys, MaxBytes(a, rq));
    if planned.Some? {
      CommitRound(d, rq, keys, planned.value, clock);
      CommitIsView(d, rq, keys, planned.value, clock, goal);
    }
  }

  lemma AcceptingRound(view: View, rq: Request, report: Report, after: View)
    requires rq.cursor <= view.nextSeq && Drained(view.cells, rq.cursor) && forall u :: u in rq.uploads ==>
        !Clashes(view.cells, u)
    requires after == StoredView(view, rq)
    ensures ClientRound(view, rq, Accepting(view, rq, report), after)
  {
  }

  lemma GoalOnView(d: Disk, rq: Request, keys: map<Id, Key>, clock: int, goal: Disk, report: Report)
    requires Sound(d) && FreshKeys(d, rq.uploads, keys) && goal == GoalOf(d, rq, keys, clock)
    ensures Sound(goal)
    ensures goal == d || ClientRound(ViewOf(d), rq, Accepting(ViewOf(d), rq, report), ViewOf(goal))
  {
    ConflictsAreLive(d.t.live, rq.uploads);
    if goal != d {
      DraftGoalOnView(d, rq, keys, clock, goal);
      NothingAboveIsDrained(d, rq);
      NoClashes(d, rq);
      AcceptingRound(ViewOf(d), rq, report, ViewOf(goal));
    }
  }

  /** To its clients a round that failed has happened whole, as if the answer was lost, or not
      at all. */
  lemma FailureOnView(d: Disk, rq: Request, keys: map<Id, Key>, clock: int, after: Disk, report: Report)
    requires Sound(d) && FreshKeys(d, rq.uploads, keys)
    requires RoundKeeps(d, rq, GoalOf(d, rq, keys, clock), after)
    ensures ViewOf(after) == ViewOf(d) || ClientRound(ViewOf(d), rq, Accepting(ViewOf(d), rq, report), ViewOf(after))
  {
    var goal := GoalOf(d, rq, keys, clock);
    GoalOnView(d, rq, keys, clock, goal, report);
    if SameLive(d, after) { SameLiveSameView(d, after); } else { SameLiveSameView(goal, after); }
  }

  lemma SeqsBounded(d: Disk)
    requires Sound(d)
    ensures forall s :: s in ViewOf(d).cells ==> ViewOf(d).cells[s].seqno <= ViewOf(d).nextSeq
  {
  }
}
