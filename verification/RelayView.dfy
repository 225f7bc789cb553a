/**
 The relay as its clients see it: a sequence counter and, for each slot, one sealed value.
 Every answered round on the storage is one step on this view.
 */
module RelayView {
  import opened Wrappers
  import opened RelayTables
  import opened RelayRound
  import opened RelaySpec

  datatype Cell = Cell(seqno: nat, id: Id, ciphertext: string)
  datatype View = View(nextSeq: nat, cells: map<Slot, Cell>)

  function CellsOf(live: map<Slot, Row>, bucket: map<Key, string>): map<Slot, Cell> {
    map s | s in live && live[s].key in bucket :: Cell(live[s].seqno, live[s].id, bucket[live[s].key])
  }

  function ViewOf(d: Disk): View
    requires d.t.account.Some?
  {
    View(d.t.account.value.nextSeq, CellsOf(d.t.live, d.bucket))
  }

  /** Uploads stored one after another, each under the next sequence number. */
  function StoreCells(cells: map<Slot, Cell>, us: seq<Upload>, nextSeq: nat): map<Slot, Cell> {
    if us == [] then cells
    else
      var u := us[|us| - 1];
      StoreCells(cells, us[..|us| - 1], nextSeq)[u.slot := Cell(nextSeq + |us|, u.id, u.ciphertext)]
  }

  function HeldIds(cells: map<Slot, Cell>): set<Id> { set s | s in cells :: cells[s].id }

  function Deleted(cells: map<Slot, Cell>, ds: seq<Deletion>): set<Slot> {
    set x | x in ds && x.slot in cells && cells[x.slot].id == x.id :: x.slot
  }

  /** The view once the round's deletions and accepted uploads are in. */
  function StoredView(v: View, rq: Request): View {
    var us := Accepted(rq.uploads, HeldIds(v.cells));
    View(v.nextSeq + |us|, StoreCells(v.cells - Deleted(v.cells, rq.deletions), us, v.nextSeq))
  }

  predicate Clashes(cells: map<Slot, Cell>, u: Upload) {
    u.slot in cells && cells[u.slot].id != u.id && Some(cells[u.slot].id) != u.expectedId
  }

  predicate Drained(cells: map<Slot, Cell>, cursor: int) {
    forall s :: s in cells ==> cells[s].seqno <= cursor
  }

  predicate IsCell(cells: map<Slot, Cell>, e: Envelope) {
    e.slot in cells && cells[e.slot] == Cell(e.seqno, e.id, e.ciphertext)
  }

  /** A page: cells above the cursor in ascending order, none skipped up to the new cursor,
      and none left above it when no more are announced. */
  ghost predicate Delivers(cells: map<Slot, Cell>, cursor: int, envelopes: seq<Envelope>, next: int, hasMore: bool) {
    && envelopes != [] && next == envelopes[|envelopes| - 1].seqno
    && (forall i :: 0 <= i < |envelopes| ==> IsCell(cells, envelopes[i]) && envelopes[i].seqno > cursor)
    && (forall i, j :: 0 <= i < j < |envelopes| ==> envelopes[i].seqno < envelopes[j].seqno)
    && (forall s :: s in cells && cursor < cells[s].seqno <= next ==> Carried(envelopes, s))
    && (!hasMore ==> Drained(cells, next))
  }

  predicate Carried(envelopes: seq<Envelope>, s: Slot) {
    exists i :: 0 <= i < |envelopes| && envelopes[i].slot == s
  }

  predicate ClashesAt(cells: map<Slot, Cell>, us: seq<Upload>, s: Slot) {
    exists u :: u in us && u.slot == s && Clashes(cells, u)
  }

  /** The conflicting cells, and only those. */
  ghost predicate ReportsClashes(cells: map<Slot, Cell>, us: seq<Upload>, conflicts: seq<Envelope>) {
    && (forall i :: 0 <= i < |conflicts| ==> IsCell(cells, conflicts[i]) && ClashesAt(cells, us, conflicts[i].slot))
    && (forall u :: u in us && Clashes(cells, u) ==> Carried(conflicts, u.slot))
  }

  /** A round on the view, as the client that sent it sees it answered. */
  ghost predicate ClientRound(v: View, rq: Request, answer: Answer, after: View) {
    match answer
    case Reply(cursor, envelopes, conflicts, hasMore, reset, accepted, _) =>
      if reset then
        && rq.cursor > v.nextSeq && after == v
        && cursor == 0 && envelopes == [] && conflicts == [] && !hasMore && !accepted
      else if envelopes != [] then
        && rq.cursor <= v.nextSeq && after == v && conflicts == []
        && Delivers(v.cells, rq.cursor, envelopes, cursor, hasMore) && accepted == !rq.Mutates()
      else
        && rq.cursor <= v.nextSeq && Drained(v.cells, rq.cursor) && !hasMore && cursor == Max(rq.cursor, after.nextSeq)
        && if conflicts != [] then
             after == v && !accepted && ReportsClashes(v.cells, rq.uploads, conflicts)
           else
             (forall u :: u in rq.uploads ==> !Clashes(v.cells, u)) && accepted && after == StoredView(v, rq)
    case _ => after == v
  }
}
