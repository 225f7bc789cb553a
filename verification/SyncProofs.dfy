/** No update is lost and no record is missed, whatever the interleaving. */
module SyncProofs {
  import opened RelayTables
  import opened RelayRound
  import opened RelaySpec
  import opened RelayView
  import opened Session
  import opened SyncSystem

  // ---- What a stored write does to the view ------------------------------------------------

  lemma {:induction false} AllAccepted(us: seq<Upload>, held: set<Id>)
    requires DistinctIds(us) && UploadIds(us) !! held
    ensures Accepted(us, held) == us
  {
    if us != [] {
      var n := |us| - 1;
      assert us == us[..n] + [us[n]];
      assert us[n].id in UploadIds(us);
      assert UploadIds(us[..n]) <= UploadIds(us);
      AllAccepted(us[..n], held);
    }
  }

  lemma {:induction false} StoreCellsAt(cells: map<Slot, Cell>, us: seq<Upload>, nextSeq: nat, s: Slot)
    requires forall i, j :: 0 <= i < j < |us| ==> us[i].slot != us[j].slot
    ensures var after := StoreCells(cells, us, nextSeq);
            if s in UploadSlots(us) then
              && s in after && nextSeq < after[s].seqno <= nextSeq + |us|
              && (exists u :: u in us && u.slot == s && after[s].id == u.id && after[s].ciphertext == u.ciphertext)
            else (s in after <==> s in cells) && (s in cells ==> after[s] == cells[s])
  {
    if us != [] {
      var n := |us| - 1;
      assert us == us[..n] + [us[n]];
      StoreCellsAt(cells, us[..n], nextSeq, s);
      if us[n].slot == s {
        assert us[n] in us;
      } else if s in UploadSlots(us[..n]) {
        var b := StoreCells(cells, us[..n], nextSeq);
        var u :| u in us[..n] && u.slot == s && b[s].id == u.id && b[s].ciphertext == u.ciphertext;
        assert u in us;
      }
    }
  }

  /** The view after a session's write: its records under their new ids, the rest as it was. */
  ghost predicate WroteView<V>(ops: Ops<V>, view: View, pending: map<Slot, V>, ids: map<Slot, Id>, after: View)
    requires pending.Keys <= ids.Keys
  {
    && after.nextSeq >= view.nextSeq
    && (forall s :: s in pending ==>
          (s in after.cells && view.nextSeq < after.cells[s].seqno <= after.nextSeq
           && after.cells[s].id == ids[s] && after.cells[s].ciphertext == ops.seal(pending[s])))
    && (forall s :: s !in pending ==>
          (s in after.cells <==> s in view.cells) && (s in view.cells ==> after.cells[s] == view.cells[s]))
  }

  lemma PutsDistinct<V>(ops: Ops<V>, l: Local<V>, pending: map<Slot, V>, ids: map<Slot, Id>, us: seq<Upload>,
                        written: map<Id, Stamp>)
    requires Puts(ops, l, pending, ids, us) && FreshIds(pending, ids, written)
    ensures DistinctIds(us) && UploadIds(us) !! written.Keys
  {
    forall i, j | 0 <= i < j < |us| ensures us[i].id != us[j].id {
      assert us[i] in us && us[j] in us;
    }
    forall id | id in UploadIds(us) ensures id !in written {
      var u :| u in us && u.id == id;
    }
  }

  lemma PutsStored<V>(ops: Ops<V>, l: Local<V>, pending: map<Slot, V>, ids: map<Slot, Id>, rq: Request, view: View,
                      written: map<Id, Stamp>)
    requires Puts(ops, l, pending, ids, rq.uploads) && FreshIds(pending, ids, written) && rq.deletions == []
    requires ViewKnown(view, written)
    ensures WroteView(ops, view, pending, ids, StoredView(view, rq))
  {
    var us := rq.uploads;
    PutsDistinct(ops, l, pending, ids, us, written);
    forall id | id in HeldIds(view.cells) ensures id in written {}
    AllAccepted(us, HeldIds(view.cells));
    assert Deleted(view.cells, []) == {};
    assert view.cells - {} == view.cells;
    var after := StoredView(view, rq);
    forall s ensures s in pending ==>
        (s in after.cells && view.nextSeq < after.cells[s].seqno <= after.nextSeq
         && after.cells[s].id == ids[s] && after.cells[s].ciphertext == ops.seal(pending[s]))
      ensures s !in pending ==>
        (s in after.cells <==> s in view.cells) && (s in view.cells ==> after.cells[s] == view.cells[s])
    {
      StoreCellsAt(view.cells, us, view.nextSeq, s);
    }
  }

  // ---- What receiving an answer does to a session -------------------------------------------

  lemma ApplySynced<V>(ops: Ops<V>, l: Local<V>, view: View, written: map<Id, Stamp>, es: seq<Envelope>, cursor: int)
    requires ViewKnown(view, written) && FromView(view.cells, es) && Synced(ops, l, written)
    ensures Synced(ops, ApplyEnvelopes(ops, l, es).(cursor := cursor), written)
  {
    var r := ApplyEnvelopes(ops, l, es);
    forall s ensures s in r.notes ==> s in r.synced
      ensures s in r.synced ==> (r.synced[s] in written && written[r.synced[s]].slot == s
                                 && Holds(ops, r.notes, s, written[r.synced[s]].ciphertext))
    {
      ApplySlot(ops, l, view.cells, es, s);
    }
  }

  lemma EmptySynced<V>(ops: Ops<V>, written: map<Id, Stamp>)
    ensures Synced(ops, Empty<V>(), written)
  {
  }

  /** An answer never resets a session: its cursor is within the relay's. */
  lemma NeverReset<V>(ops: Ops<V>, l: Local<V>, view: View, rq: Request, answer: Answer, after: View)
    requires CaughtUp(ops, l, view) && rq.cursor == l.cursor && ClientRound(view, rq, answer, after) && answer.Reply?
    ensures !answer.reset
  {
  }

  lemma FromAnswer(view: View, rq: Request, answer: Answer, after: View)
    requires ClientRound(view, rq, answer, after) && answer.Reply?
    ensures FromView(view.cells, answer.envelopes + answer.conflicts)
    ensures answer.envelopes + answer.conflicts != [] ==> after == view
  {
    var es := answer.envelopes + answer.conflicts;
    forall i | 0 <= i < |es| ensures IsCell(view.cells, es[i]) {
      if i < |answer.envelopes| {
        assert es[i] == answer.envelopes[i];
      } else {
        assert es[i] == answer.conflicts[i - |answer.envelopes|];
      }
    }
  }

  lemma ReceiveSynced<V>(ops: Ops<V>, l: Local<V>, view: View, written: map<Id, Stamp>, rq: Request, answer: Answer,
                         after: View)
    requires ViewKnown(view, written) && Synced(ops, l, written)
    requires ClientRound(view, rq, answer, after) && answer.Reply?
    ensures Synced(ops, Receive(ops, l, answer), written)
  {
    FromAnswer(view, rq, answer, after);
    EmptySynced(ops, written);
    ApplySynced(ops, if answer.reset then Empty() else l, view, written,
                answer.envelopes + answer.conflicts, answer.cursor);
  }

  lemma CarriedAppend(a: seq<Envelope>, b: seq<Envelope>, s: Slot)
    ensures Carried(a, s) ==> Carried(a + b, s)
  {
    if Carried(a, s) {
      var i :| 0 <= i < |a| && a[i].slot == s;
      assert (a + b)[i].slot == s;
    }
  }

  /** After an answer the session holds every record of the old view up to its new cursor. */
  lemma ReceiveCaughtUp<V>(ops: Ops<V>, l: Local<V>, view: View, rq: Request, answer: Answer, after: View, s: Slot)
    requires CaughtUp(ops, l, view) && rq.cursor == l.cursor && ClientRound(view, rq, answer, after) && answer.Reply?
    requires s in view.cells && view.cells[s].seqno <= answer.cursor
    ensures var r := Receive(ops, l, answer);
            (s in r.synced && r.synced[s] == view.cells[s].id) || ops.open(view.cells[s].ciphertext).Unreadable?
  {
    var es := answer.envelopes + answer.conflicts;
    NeverReset(ops, l, view, rq, answer, after);
    FromAnswer(view, rq, answer, after);
    ApplySlot(ops, l, view.cells, es, s);
    CarriedAppend(answer.envelopes, answer.conflicts, s);
  }

  /** A round moves no cursor past the relay's sequence number. */
  lemma CursorBound<V>(ops: Ops<V>, l: Local<V>, view: View, written: map<Id, Stamp>, rq: Request, answer: Answer,
                       after: View)
    requires CaughtUp(ops, l, view) && rq.cursor == l.cursor && ViewKnown(view, written)
    requires ClientRound(view, rq, answer, after) && answer.Reply? && after.nextSeq >= view.nextSeq
    ensures answer.cursor <= after.nextSeq
  {
    if answer.envelopes != [] {
      assert IsCell(view.cells, answer.envelopes[|answer.envelopes| - 1]);
    }
  }

  lemma PulledOk<V>(ops: Ops<V>, l: Local<V>, view: View, written: map<Id, Stamp>, rq: Request, answer: Answer)
    requires ViewKnown(view, written) && Synced(ops, l, written) && CaughtUp(ops, l, view) && rq.cursor == l.cursor
    requires ClientRound(view, rq, answer, view) && answer.Reply?
    ensures Synced(ops, Receive(ops, l, answer), written) && CaughtUp(ops, Receive(ops, l, answer), view)
  {
    ReceiveSynced(ops, l, view, written, rq, answer, view);
    CursorBound(ops, l, view, written, rq, answer, view);
    forall s | s in view.cells && view.cells[s].seqno <= answer.cursor
      ensures var r := Receive(ops, l, answer);
              (s in r.synced && r.synced[s] == view.cells[s].id) || ops.open(view.cells[s].ciphertext).Unreadable?
    {
      ReceiveCaughtUp(ops, l, view, rq, answer, view, s);
    }
  }

  // ---- A session whose write was accepted -----------------------------------------------------

  lemma StampsIn<V>(ops: Ops<V>, pending: map<Slot, V>, ids: map<Slot, Id>, written: map<Id, Stamp>)
    requires FreshIds(pending, ids, written)
    ensures var after := written + Stamps(ops, pending, ids);
            && (forall s :: s in pending ==> ids[s] in after && after[ids[s]] == Stamp(s, ops.seal(pending[s])))
            && Extends(written, after)
  {
    var stamps := Stamps(ops, pending, ids);
    forall s | s in pending ensures ids[s] in stamps && stamps[ids[s]] == Stamp(s, ops.seal(pending[s])) {}
    forall id | id in written ensures id !in stamps {}
  }

  lemma AdoptSynced<V>(ops: Ops<V>, l: Local<V>, pending: map<Slot, V>, ids: map<Slot, Id>, written: map<Id, Stamp>)
    requires forall v :: ops.open(ops.seal(v)) == Note(v)
    requires Synced(ops, l, written) && FreshIds(pending, ids, written)
    ensures Synced(ops, Adopt(l, pending, ids), written + Stamps(ops, pending, ids))
  {
    StampsIn(ops, pending, ids, written);
    var after := written + Stamps(ops, pending, ids);
    var adopted := Adopt(l, pending, ids);
    forall s | s in adopted.synced
      ensures adopted.synced[s] in after && after[adopted.synced[s]].slot == s
              && Holds(ops, adopted.notes, s, after[adopted.synced[s]].ciphertext)
    {
      if s !in pending {
        assert l.synced[s] in written;
      }
    }
  }

  lemma SentOk<V>(ops: Ops<V>, l: Local<V>, view: View, written: map<Id, Stamp>, pending: map<Slot, V>,
                  ids: map<Slot, Id>, rq: Request, answer: Answer, after: View)
    requires forall v :: ops.open(ops.seal(v)) == Note(v)
    requires ViewKnown(view, written) && Synced(ops, l, written) && CaughtUp(ops, l, view) && rq.cursor == l.cursor
    requires FreshIds(pending, ids, written) && WroteView(ops, view, pending, ids, after)
    requires ClientRound(view, rq, answer, after) && answer.Reply? && answer.envelopes == [] && answer.conflicts == []
    ensures Synced(ops, Adopt(Receive(ops, l, answer), pending, ids), written + Stamps(ops, pending, ids))
    ensures CaughtUp(ops, Adopt(Receive(ops, l, answer), pending, ids), after)
  {
    var r := Receive(ops, l, answer);
    ReceiveSynced(ops, l, view, written, rq, answer, after);
    AdoptSynced(ops, r, pending, ids, written);
    CursorBound(ops, l, view, written, rq, answer, after);
    var adopted := Adopt(r, pending, ids);
    forall s | s in after.cells && after.cells[s].seqno <= adopted.cursor
      ensures (s in adopted.synced && adopted.synced[s] == after.cells[s].id)
              || ops.open(after.cells[s].ciphertext).Unreadable?
    {
      if s !in pending {
        ReceiveCaughtUp(ops, l, view, rq, answer, after, s);
      }
    }
  }

  // ---- Retrying ---------------------------------------------------------------------------------

  lemma MergeAhead<V(!new)>(ops: Ops<V>, l: Local<V>, p: Phase<V>)
    requires Lawful(ops) && !p.Idle? && p.pending.Keys == p.edits.Keys && p.pending != map[]
    requires forall s :: s in p.pending ==> Includes(ops, p.pending[s], p.edits[s])
    ensures Ahead(ops, Client(l, Retry(ops, l, p)))
  {
    var merged := MergePending(ops, l, p.pending);
    assert merged.Keys == p.pending.Keys;
    forall s | s in merged
      ensures Includes(ops, merged[s], p.edits[s]) && (s in l.notes ==> Includes(ops, merged[s], l.notes[s]))
    {
      if s in l.notes {
        JoinIncludes(ops, l.notes[s], p.pending[s]);
        IncludesTrans(ops, p.edits[s], p.pending[s], merged[s]);
      }
    }
  }

  // ---- The other sessions -------------------------------------------------------------------------

  /** A step changes cells only under new sequence numbers, or deletes them. */
  ghost predicate ViewGrows(view: View, after: View) {
    && view.nextSeq <= after.nextSeq
    && (forall s :: s in after.cells ==>
          (s in view.cells && view.cells[s] == after.cells[s]) || after.cells[s].seqno > view.nextSeq)
  }

  ghost predicate Extends(written: map<Id, Stamp>, after: map<Id, Stamp>) {
    forall id :: id in written ==> id in after && after[id] == written[id]
  }

  lemma OthersOk<V>(ops: Ops<V>, c: Client<V>, view: View, written: map<Id, Stamp>, view': View,
                    written': map<Id, Stamp>)
    requires ClientOk(ops, c, view, written) && ViewGrows(view, view') && Extends(written, written')
    ensures ClientOk(ops, c, view', written')
  {
  }

  lemma WroteGrows<V>(ops: Ops<V>, view: View, pending: map<Slot, V>, ids: map<Slot, Id>, after: View,
                      written: map<Id, Stamp>)
    requires ViewKnown(view, written) && FreshIds(pending, ids, written) && WroteView(ops, view, pending, ids, after)
    ensures ViewGrows(view, after) && Extends(written, written + Stamps(ops, pending, ids))
    ensures ViewKnown(after, written + Stamps(ops, pending, ids))
  {
    StampsIn(ops, pending, ids, written);
  }

  /** The view after an answered round of a session: unchanged unless its write went in. */
  lemma RoundOnView<V>(ops: Ops<V>, sys: System<V>, c: nat, ids: map<Slot, Id>, rq: Request, answer: Answer,
                       after: View)
    requires ViewKnown(sys.view, sys.written) && CanSend(ops, sys, c, ids, rq)
        && ClientRound(sys.view, rq, answer, after)
    ensures answer.Reply? && answer.writesAccepted && sys.clients[c].phase.pending != map[] ==>
              && answer.envelopes == [] && answer.conflicts == [] && after == StoredView(sys.view, rq)
              && (forall u :: u in rq.uploads ==> !Clashes(sys.view.cells, u))
              && WroteView(ops, sys.view, sys.clients[c].phase.pending, ids, after)
    ensures !(answer.Reply? && answer.writesAccepted) ==> after == sys.view
  {
    PutsStored(ops, sys.clients[c].local, sys.clients[c].phase.pending, ids, rq, sys.view, sys.written);
  }

  // ---- One step of the whole system -----------------------------------------------------------------

  lemma PullStep<V(!new)>(ops: Ops<V>, c: Client<V>, view: View, written: map<Id, Stamp>, rq: Request, answer: Answer)
    requires Lawful(ops) && ViewKnown(view, written) && ClientOk(ops, c, view, written) && !c.phase.Sending?
    requires rq.cursor == c.local.cursor && ClientRound(view, rq, answer, view)
    ensures ClientOk(ops, AfterPull(ops, c, answer), view, written)
  {
    if answer.Reply? {
      PulledOk(ops, c.local, view, written, rq, answer);
      if c.phase.Fetching? && !answer.hasMore {
        MergeAhead(ops, Receive(ops, c.local, answer), c.phase);
      }
    }
  }

  lemma RefusedStep<V(!new)>(ops: Ops<V>, c: Client<V>, view: View, written: map<Id, Stamp>, ids: map<Slot, Id>,
                             rq: Request, answer: Answer)
    requires Lawful(ops) && ViewKnown(view, written) && ClientOk(ops, c, view, written)
    requires c.phase.Sending? && c.phase.pending.Keys <= ids.Keys
    requires rq.cursor == c.local.cursor && ClientRound(view, rq, answer, view)
    requires !(answer.Reply? && answer.writesAccepted)
    ensures ClientOk(ops, AfterSend(ops, c, ids, answer), view, written)
  {
    if answer.Reply? {
      PulledOk(ops, c.local, view, written, rq, answer);
      if !answer.hasMore {
        MergeAhead(ops, Receive(ops, c.local, answer), c.phase);
      }
    }
  }

  lemma AcceptedStep<V(!new)>(ops: Ops<V>, c: Client<V>, view: View, written: map<Id, Stamp>, ids: map<Slot, Id>,
                              rq: Request, answer: Answer, after: View)
    requires Lawful(ops) && ViewKnown(view, written) && ClientOk(ops, c, view, written) && c.phase.Sending?
    requires FreshIds(c.phase.pending, ids, written) && WroteView(ops, view, c.phase.pending, ids, after)
    requires rq.cursor == c.local.cursor && ClientRound(view, rq, answer, after)
    requires answer.Reply? && answer.writesAccepted && answer.envelopes == [] && answer.conflicts == []
    ensures ClientOk(ops, AfterSend(ops, c, ids, answer), after, written + Stamps(ops, c.phase.pending, ids))
  {
    SentOk(ops, c.local, view, written, c.phase.pending, ids, rq, answer, after);
  }

  lemma SendInv<V(!new)>(ops: Ops<V>, sys: System<V>, c: nat, ids: map<Slot, Id>, rq: Request, answer: Answer,
                         next: System<V>)
    requires Lawful(ops) && Inv(ops, sys) && Step(ops, sys, Send(c, ids, rq, answer), next)
    ensures Inv(ops, next)
  {
    var me := sys.clients[c];
    assert ClientOk(ops, me, sys.view, sys.written);
    RoundOnView(ops, sys, c, ids, rq, answer, next.view);
    if answer.Reply? && answer.writesAccepted {
      WroteGrows(ops, sys.view, me.phase.pending, ids, next.view, sys.written);
      AcceptedStep(ops, me, sys.view, sys.written, ids, rq, answer, next.view);
    } else {
      RefusedStep(ops, me, sys.view, sys.written, ids, rq, answer);
    }
    forall k | k in next.clients ensures ClientOk(ops, next.clients[k], next.view, next.written) {
      if k != c {
        OthersOk(ops, sys.clients[k], sys.view, sys.written, next.view, next.written);
      }
    }
  }

  lemma FailInv<V(!new)>(ops: Ops<V>, sys: System<V>, c: nat, ids: map<Slot, Id>, rq: Request, stored: bool,
                         next: System<V>)
    requires Lawful(ops) && Inv(ops, sys) && Step(ops, sys, Fail(c, ids, rq, stored), next)
    ensures Inv(ops, next)
  {
    var me := sys.clients[c];
    assert ClientOk(ops, me, sys.view, sys.written);
    if stored {
      var answer: Answer :| answer.Reply? && answer.writesAccepted && ClientRound(sys.view, rq, answer, next.view);
      RoundOnView(ops, sys, c, ids, rq, answer, next.view);
      WroteGrows(ops, sys.view, me.phase.pending, ids, next.view, sys.written);
    }
    OthersOk(ops, Client(me.local, Idle), sys.view, sys.written, next.view, next.written);
    forall k | k in next.clients ensures ClientOk(ops, next.clients[k], next.view, next.written) {
      if k != c {
        OthersOk(ops, sys.clients[k], sys.view, sys.written, next.view, next.written);
      }
    }
  }

  lemma OtherStepInv<V(!new)>(ops: Ops<V>, sys: System<V>, ev: Event<V>, next: System<V>)
    requires Lawful(ops) && Inv(ops, sys) && Step(ops, sys, ev, next) && (ev.Foreign? || ev.Forget?)
    ensures Inv(ops, next)
  {
    forall k | k in next.clients ensures ClientOk(ops, next.clients[k], next.view, next.written) {
      OthersOk(ops, sys.clients[k], sys.view, sys.written, next.view, next.written);
    }
  }

  lemma OwnStepInv<V(!new)>(ops: Ops<V>, sys: System<V>, ev: Event<V>, next: System<V>)
    requires Lawful(ops) && Inv(ops, sys) && Step(ops, sys, ev, next) && (ev.Begin? || ev.Pull?)
    ensures Inv(ops, next)
  {
    var me := sys.clients[ev.c];
    assert ClientOk(ops, me, sys.view, sys.written);
    if ev.Pull? {
      PullView(sys.view, ev.rq, ev.answer, next.view);
      PullStep(ops, me, sys.view, sys.written, ev.rq, ev.answer);
    } else {
      BeginAhead(ops, me.local, ev.edits);
    }
  }

  lemma PullView(view: View, rq: Request, answer: Answer, after: View)
    requires ClientRound(view, rq, answer, after) && rq.uploads == [] && rq.deletions == []
    ensures after == view
  {
    assert Deleted(view.cells, []) == {};
    assert view.cells - {} == view.cells;
  }

  lemma BeginAhead<V(!new)>(ops: Ops<V>, l: Local<V>, edits: map<Slot, V>)
    requires Lawful(ops) && Inflates(ops, l, edits) && edits != map[]
    ensures Ahead(ops, Client(l, Sending(edits, edits, 0)))
  {
    forall s | s in edits ensures Includes(ops, edits[s], edits[s]) {
      JoinIncludes(ops, edits[s], edits[s]);
    }
  }

  /** Every step of every session, the relay and other clients keeps the invariant. */
  lemma StepKeepsInv<V(!new)>(ops: Ops<V>, sys: System<V>, ev: Event<V>, next: System<V>)
    requires Lawful(ops) && Inv(ops, sys) && Step(ops, sys, ev, next)
    ensures Inv(ops, next)
  {
    match ev
    case Send(c, ids, rq, answer) => SendInv(ops, sys, c, ids, rq, answer, next);
    case Fail(c, ids, rq, stored) => FailInv(ops, sys, c, ids, rq, stored, next);
    case Begin(_, _) => OwnStepInv(ops, sys, ev, next);
    case Pull(_, _, _) => OwnStepInv(ops, sys, ev, next);
    case Foreign(_, _, _) => OtherStepInv(ops, sys, ev, next);
    case Forget(_) => OtherStepInv(ops, sys, ev, next);
  }

  // ---- No lost update ---------------------------------------------------------------------------------

  predicate HasNote<V>(ops: Ops<V>, cells: map<Slot, Cell>, s: Slot) {
    s in cells && ops.open(cells[s].ciphertext).Note?
  }

  function NoteAt<V>(ops: Ops<V>, cells: map<Slot, Cell>, s: Slot): V
    requires HasNote(ops, cells, s)
  {
    ops.open(cells[s].ciphertext).value
  }

  /** An accepted write includes both the note it replaced and the session's own edit. */
  lemma WriteIncludes<V(!new)>(ops: Ops<V>, sys: System<V>, c: nat, ids: map<Slot, Id>, rq: Request, answer: Answer,
                               after: View, s: Slot)
    requires Lawful(ops) && Inv(ops, sys) && CanSend(ops, sys, c, ids, rq)
    requires ClientRound(sys.view, rq, answer, after) && answer.Reply? && answer.writesAccepted
    requires s in sys.clients[c].phase.edits
    ensures HasNote(ops, after.cells, s)
    ensures Includes(ops, NoteAt(ops, after.cells, s), sys.clients[c].phase.edits[s])
    ensures HasNote(ops, sys.view.cells, s)
            ==> Includes(ops, NoteAt(ops, after.cells, s), NoteAt(ops, sys.view.cells, s))
  {
    var me := sys.clients[c];
    assert ClientOk(ops, me, sys.view, sys.written);
    RoundOnView(ops, sys, c, ids, rq, answer, after);
    assert s in UploadSlots(rq.uploads);
    var u :| u in rq.uploads && u.slot == s;
    assert !Clashes(sys.view.cells, u);
    if s in sys.view.cells {
      assert sys.view.cells[s].id != u.id;
      assert s in me.local.synced && me.local.synced[s] == sys.view.cells[s].id;
    }
  }

  lemma UnwrittenStays<V>(ops: Ops<V>, view: View, pending: map<Slot, V>, ids: map<Slot, Id>, after: View, s: Slot)
    requires pending.Keys <= ids.Keys && WroteView(ops, view, pending, ids, after) && s !in pending
    ensures (s in after.cells <==> s in view.cells) && (s in view.cells ==> after.cells[s] == view.cells[s])
  {
  }

  lemma WriteGrows<V(!new)>(ops: Ops<V>, sys: System<V>, c: nat, ids: map<Slot, Id>, rq: Request, answer: Answer,
                            after: View, s: Slot)
    requires Lawful(ops) && Inv(ops, sys) && CanSend(ops, sys, c, ids, rq)
    requires ClientRound(sys.view, rq, answer, after)
    requires HasNote(ops, sys.view.cells, s) && HasNote(ops, after.cells, s)
    ensures Includes(ops, NoteAt(ops, after.cells, s), NoteAt(ops, sys.view.cells, s))
  {
    var me := sys.clients[c];
    assert ClientOk(ops, me, sys.view, sys.written);
    RoundOnView(ops, sys, c, ids, rq, answer, after);
    JoinIncludes(ops, NoteAt(ops, sys.view.cells, s), NoteAt(ops, sys.view.cells, s));
    if answer.Reply? && answer.writesAccepted {
      if s in me.phase.edits {
        WriteIncludes(ops, sys, c, ids, rq, answer, after, s);
      } else {
        UnwrittenStays(ops, sys.view, me.phase.pending, ids, after, s);
      }
    }
  }

  /** A step leaves a note that stays in its slot with everything it had. */
  lemma StepGrows<V(!new)>(ops: Ops<V>, sys: System<V>, ev: Event<V>, next: System<V>, s: Slot)
    requires Lawful(ops) && Inv(ops, sys) && Step(ops, sys, ev, next)
    requires HasNote(ops, sys.view.cells, s) && HasNote(ops, next.view.cells, s)
    ensures Includes(ops, NoteAt(ops, next.view.cells, s), NoteAt(ops, sys.view.cells, s))
  {
    JoinIncludes(ops, NoteAt(ops, sys.view.cells, s), NoteAt(ops, sys.view.cells, s));
    match ev
    case Send(c, ids, rq, answer) => WriteGrows(ops, sys, c, ids, rq, answer, next.view, s);
    case Fail(c, ids, rq, stored) =>
      if stored {
        var answer: Answer :| answer.Reply? && answer.writesAccepted && ClientRound(sys.view, rq, answer, next.view);
        WriteGrows(ops, sys, c, ids, rq, answer, next.view, s);
      }
    case Pull(_, rq, answer) => PullView(sys.view, rq, answer, next.view);
    case Begin(_, _) =>
    case Foreign(_, _, _) =>
    case Forget(_) =>
  }

  // ---- Whole runs ---------------------------------------------------------------------------------------

  /** A run: states and the events between them. */
  ghost predicate IsRun<V>(ops: Ops<V>, states: seq<System<V>>, events: seq<Event<V>>) {
    && |states| == |events| + 1
    && Inv(ops, states[0])
    && (forall i :: 0 <= i < |events| ==> Step(ops, states[i], events[i], states[i + 1]))
  }

  lemma {:induction false} RunInv<V(!new)>(ops: Ops<V>, states: seq<System<V>>, events: seq<Event<V>>, n: nat)
    requires Lawful(ops) && IsRun(ops, states, events) && n < |states|
    ensures Inv(ops, states[n])
  {
    if n > 0 {
      RunInv(ops, states, events, n - 1);
      StepKeepsInv(ops, states[n - 1], events[n - 1], states[n]);
    }
  }

  lemma RunStepGrows<V(!new)>(ops: Ops<V>, states: seq<System<V>>, events: seq<Event<V>>, n: nat, s: Slot)
    requires Lawful(ops) && IsRun(ops, states, events) && n + 1 < |states|
    requires HasNote(ops, states[n].view.cells, s) && HasNote(ops, states[n + 1].view.cells, s)
    ensures Includes(ops, NoteAt(ops, states[n + 1].view.cells, s), NoteAt(ops, states[n].view.cells, s))
  {
    RunInv(ops, states, events, n);
    StepGrows(ops, states[n], events[n], states[n + 1], s);
  }

  /** Over any run, while a slot keeps holding a note, the note only grows. */
  lemma {:induction false} NoLostUpdate<V(!new)>(ops: Ops<V>, states: seq<System<V>>, events: seq<Event<V>>,
                                                 i: nat, j: nat, s: Slot)
    requires Lawful(ops) && IsRun(ops, states, events) && i <= j < |states|
    requires forall k :: i <= k <= j ==> HasNote(ops, states[k].view.cells, s)
    ensures Includes(ops, NoteAt(ops, states[j].view.cells, s), NoteAt(ops, states[i].view.cells, s))
    decreases j - i
  {
    if i == j {
      JoinIncludes(ops, NoteAt(ops, states[i].view.cells, s), NoteAt(ops, states[i].view.cells, s));
    } else {
      NoLostUpdate(ops, states, events, i, j - 1, s);
      RunStepGrows(ops, states, events, j - 1, s);
      IncludesTrans(ops, NoteAt(ops, states[i].view.cells, s), NoteAt(ops, states[j - 1].view.cells, s),
                    NoteAt(ops, states[j].view.cells, s));
    }
  }

  /** Over any run, no session is ever reset, and each holds every current record up to its
      cursor that it can read: the very note the relay has, or none for a tombstone. */
  lemma NothingMissed<V(!new)>(ops: Ops<V>, states: seq<System<V>>, events: seq<Event<V>>, n: nat, c: nat, s: Slot)
    requires Lawful(ops) && IsRun(ops, states, events) && n < |states| && c in states[n].clients
    ensures var l := states[n].clients[c].local;
            var cells := states[n].view.cells;
            && l.cursor <= states[n].view.nextSeq
            && (s in cells && cells[s].seqno <= l.cursor && !ops.open(cells[s].ciphertext).Unreadable?
                ==> Holds(ops, l.notes, s, cells[s].ciphertext))
  {
    RunInv(ops, states, events, n);
    assert ClientOk(ops, states[n].clients[c], states[n].view, states[n].written);
  }
}
