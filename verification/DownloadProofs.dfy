/** Pages follow one another without gap or overlap. */
module DownloadProofs {
  import opened RelayTables
  import opened RelayRound
  import opened RelaySpec
  import opened RelayView
  import opened Session

  /** The cells above a cursor. */
  function Remaining(cells: map<Slot, Cell>, cursor: int): set<Slot> {
    set s | s in cells && cells[s].seqno > cursor
  }

  /** The envelopes are the cells above `from` and up to `to`, each once, in order. */
  ghost predicate DeliveredOnce(cells: map<Slot, Cell>, from: int, es: seq<Envelope>, to: int) {
    && from <= to
    && (forall i :: 0 <= i < |es| ==> IsCell(cells, es[i]) && from < es[i].seqno <= to)
    && (forall i, j :: 0 <= i < j < |es| ==> es[i].seqno < es[j].seqno)
    && (forall s :: s in cells && from < cells[s].seqno <= to ==> Carried(es, s))
  }

  lemma CarriedEither(a: seq<Envelope>, b: seq<Envelope>, s: Slot)
    requires Carried(a, s) || Carried(b, s)
    ensures Carried(a + b, s)
  {
    if Carried(a, s) {
      var i :| 0 <= i < |a| && a[i].slot == s;
      assert (a + b)[i].slot == s;
    } else {
      var i :| 0 <= i < |b| && b[i].slot == s;
      assert (a + b)[|a| + i].slot == s;
    }
  }

  lemma DeliveredMore(cells: map<Slot, Cell>, from: int, es: seq<Envelope>, mid: int, more: seq<Envelope>, to: int)
    requires DeliveredOnce(cells, from, es, mid) && DeliveredOnce(cells, mid, more, to)
    ensures DeliveredOnce(cells, from, es + more, to)
  {
    forall s | s in cells && from < cells[s].seqno <= to ensures Carried(es + more, s) {
      CarriedEither(es, more, s);
    }
  }

  lemma LastIsHighest(cells: map<Slot, Cell>, cursor: int, es: seq<Envelope>, next: int, hasMore: bool)
    requires Delivers(cells, cursor, es, next, hasMore)
    ensures DeliveredOnce(cells, cursor, es, next) && cursor < next
    ensures Remaining(cells, next) < Remaining(cells, cursor)
  {
    assert IsCell(cells, es[0]) && es[0].seqno > cursor;
    assert forall i :: 0 <= i < |es| ==> es[i].seqno <= next;
    assert es[0].slot in Remaining(cells, cursor) && es[0].slot !in Remaining(cells, next);
  }

  /** A pull's answer continues what was delivered, and leaves less to deliver while more is
      announced. */
  lemma NextPage(view: View, rq: Request, answer: Answer, from: int, es: seq<Envelope>)
    requires ClientRound(view, rq, answer, view) && answer.Reply? && rq.uploads == [] && rq.deletions == []
    requires rq.cursor <= view.nextSeq && DeliveredOnce(view.cells, from, es, rq.cursor)
    requires forall s :: s in view.cells ==> view.cells[s].seqno <= view.nextSeq
    ensures !answer.reset && answer.conflicts == [] && answer.cursor <= view.nextSeq
    ensures DeliveredOnce(view.cells, from, es + answer.envelopes, answer.cursor)
    ensures answer.hasMore ==> Remaining(view.cells, answer.cursor) < Remaining(view.cells, rq.cursor)
    ensures Remaining(view.cells, answer.cursor) <= Remaining(view.cells, rq.cursor)
    ensures !answer.hasMore ==> Drained(view.cells, answer.cursor)
  {
    if answer.envelopes != [] {
      LastIsHighest(view.cells, rq.cursor, answer.envelopes, answer.cursor, answer.hasMore);
      DeliveredMore(view.cells, from, es, rq.cursor, answer.envelopes, answer.cursor);
      assert IsCell(view.cells, answer.envelopes[|answer.envelopes| - 1]);
    } else {
      assert Remaining(view.cells, rq.cursor) == {} && Remaining(view.cells, answer.cursor) == {};
      assert es + [] == es;
      NoConflictsWithoutUploads(view, rq, answer);
    }
  }

  lemma NoConflictsWithoutUploads(view: View, rq: Request, answer: Answer)
    requires ClientRound(view, rq, answer, view) && answer.Reply? && rq.uploads == []
    ensures answer.conflicts == []
  {
    if answer.envelopes == [] {
      NoClashesWithout(view.cells, answer.conflicts);
    }
  }

  lemma NoClashesWithout(cells: map<Slot, Cell>, conflicts: seq<Envelope>)
    requires conflicts != [] ==> ReportsClashes(cells, [], conflicts)
    ensures conflicts == []
  {
    assert conflicts != [] ==> ClashesAt(cells, [], conflicts[0].slot);
  }

  lemma {:induction false} ApplyMore<V>(ops: Ops<V>, l: Local<V>, es: seq<Envelope>, more: seq<Envelope>, cursor: int)
    ensures ApplyEnvelopes(ops, ApplyEnvelopes(ops, l, es).(cursor := cursor), more)
            == ApplyEnvelopes(ops, l, es + more).(cursor := cursor)
  {
    if more == [] {
      assert es + more == es;
    } else {
      var n := |more| - 1;
      ApplyMore(ops, l, es, more[..n], cursor);
      assert (es + more)[..|es + more| - 1] == es + more[..n];
    }
  }

  /** A download under way: what was delivered so far is what the session has applied. */
  ghost predicate Downloading<V>(ops: Ops<V>, view: View, start: Local<V>, es: seq<Envelope>, hasMore: bool,
                                 held: Local<V>) {
    && held.cursor <= view.nextSeq && held == ApplyEnvelopes(ops, start, es).(cursor := held.cursor)
    && DeliveredOnce(view.cells, start.cursor, es, held.cursor)
    && (!hasMore ==> Drained(view.cells, held.cursor))
  }

  lemma DownloadStarts<V>(ops: Ops<V>, view: View, start: Local<V>)
    requires start.cursor <= view.nextSeq
    ensures Downloading(ops, view, start, [], true, start)
  {
  }

  lemma DownloadGoesOn<V>(ops: Ops<V>, view: View, start: Local<V>, es: seq<Envelope>, held: Local<V>, rq: Request,
                          answer: Answer)
    requires Downloading(ops, view, start, es, true, held) && rq.cursor == held.cursor
    requires ClientRound(view, rq, answer, view) && answer.Reply? && rq.uploads == [] && rq.deletions == []
    requires forall s :: s in view.cells ==> view.cells[s].seqno <= view.nextSeq
    ensures Downloading(ops, view, start, es + answer.envelopes, answer.hasMore, Receive(ops, held, answer))
    ensures answer.hasMore ==> Remaining(view.cells, answer.cursor) < Remaining(view.cells, held.cursor)
    ensures Remaining(view.cells, answer.cursor) <= Remaining(view.cells, held.cursor)
  {
    NextPage(view, rq, answer, start.cursor, es);
    ApplyMore(ops, start, es, answer.envelopes, held.cursor);
    assert answer.envelopes + answer.conflicts == answer.envelopes;
    ApplyKeepsCursor(ops, start, es + answer.envelopes);
  }

  lemma {:induction false} ApplyKeepsCursor<V>(ops: Ops<V>, l: Local<V>, es: seq<Envelope>)
    ensures ApplyEnvelopes(ops, l, es).cursor == l.cursor
  {
    if es != [] { ApplyKeepsCursor(ops, l, es[..|es| - 1]); }
  }
}
