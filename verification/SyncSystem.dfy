/**
 Any number of sessions and one relay, interleaved at every await: sessions pull, write and
 retry, calls fail with or without having been stored, and other clients write and delete.
 */
module SyncSystem {
  import opened RelayTables
  import opened RelayRound
  import opened RelaySpec
  import opened RelayView
  import opened Session

  const MAX_ATTEMPTS := 4

  /** Where a session is in its write: about to send, or downloading before it tries again. */
  datatype Phase<V> =
    | Idle
    | Sending(pending: map<Slot, V>, edits: map<Slot, V>, attempt: nat)
    | Fetching(pending: map<Slot, V>, edits: map<Slot, V>, attempt: nat)

  datatype Client<V> = Client(local: Local<V>, phase: Phase<V>)

  /** `written` remembers every upload the relay ever stored: which record, and what. */
  datatype Stamp = Stamp(slot: Slot, ciphertext: string)
  datatype System<V> = System(view: View, written: map<Id, Stamp>, clients: map<nat, Client<V>>)

  datatype Event<V> =
    | Begin(c: nat, edits: map<Slot, V>)
    | Pull(c: nat, rq: Request, answer: Answer)
    | Send(c: nat, ids: map<Slot, Id>, rq: Request, answer: Answer)
    | Fail(c: nat, ids: map<Slot, Id>, rq: Request, stored: bool)
    | Foreign(slot: Slot, id: Id, ciphertext: string)
    | Forget(slots: set<Slot>)

  /** After a refused write: merge what came back and try again, up to four times. */
  function Retry<V>(ops: Ops<V>, l: Local<V>, p: Phase<V>): Phase<V>
    requires !p.Idle?
  {
    if p.attempt + 1 < MAX_ATTEMPTS then Sending(MergePending(ops, l, p.pending), p.edits, p.attempt + 1) else Idle
  }

  function AfterPull<V>(ops: Ops<V>, c: Client<V>, answer: Answer): Client<V> {
    if !answer.Reply? then Client(c.local, Idle)
    else
      var l := Receive(ops, c.local, answer);
      match c.phase
      case Idle => Client(l, Idle)
      case Sending(_, _, _) => Client(l, c.phase)
      case Fetching(_, _, _) => Client(l, if answer.hasMore then c.phase else Retry(ops, l, c.phase))
  }

  function AfterSend<V>(ops: Ops<V>, c: Client<V>, ids: map<Slot, Id>, answer: Answer): Client<V>
    requires c.phase.Sending? && c.phase.pending.Keys <= ids.Keys
  {
    if !answer.Reply? then Client(c.local, Idle)
    else
      var l := Receive(ops, c.local, answer);
      if answer.writesAccepted then Client(Adopt(l, c.phase.pending, ids), Idle)
      else if answer.hasMore then Client(l, Fetching(c.phase.pending, c.phase.edits, c.phase.attempt))
      else Client(l, Retry(ops, l, c.phase))
  }

  /** The stamps of a stored round. */
  function Stamps<V>(ops: Ops<V>, pending: map<Slot, V>, ids: map<Slot, Id>): map<Id, Stamp>
    requires pending.Keys <= ids.Keys
    requires forall s, r :: s in pending && r in pending && ids[s] == ids[r] ==> s == r
  {
    map s | s in pending :: ids[s] := Stamp(s, ops.seal(pending[s]))
  }

  ghost predicate FreshIds<V>(pending: map<Slot, V>, ids: map<Slot, Id>, written: map<Id, Stamp>) {
    && pending.Keys <= ids.Keys
    && (forall s, r :: s in pending && r in pending && ids[s] == ids[r] ==> s == r)
    && (forall s :: s in pending ==> ids[s] !in written)
  }

  /** A foreign write is made like a session's: it includes the note it replaces. */
  ghost predicate Considerate<V>(ops: Ops<V>, cells: map<Slot, Cell>, s: Slot, ciphertext: string) {
    s in cells && ops.open(cells[s].ciphertext).Note? && ops.open(ciphertext).Note?
    ==> Includes(ops, ops.open(ciphertext).value, ops.open(cells[s].ciphertext).value)
  }

  /** A session's edit moves each note it changes up from the copy the session holds. */
  ghost predicate Inflates<V>(ops: Ops<V>, l: Local<V>, edits: map<Slot, V>) {
    forall s :: s in edits && s in l.notes ==> Includes(ops, edits[s], l.notes[s])
  }

  ghost predicate CanSend<V>(ops: Ops<V>, sys: System<V>, c: nat, ids: map<Slot, Id>, rq: Request) {
    && c in sys.clients && sys.clients[c].phase.Sending?
    && FreshIds(sys.clients[c].phase.pending, ids, sys.written)
    && Puts(ops, sys.clients[c].local, sys.clients[c].phase.pending, ids, rq.uploads)
    && rq.cursor == sys.clients[c].local.cursor && rq.deletions == []
  }

  ghost predicate Step<V>(ops: Ops<V>, sys: System<V>, ev: Event<V>, next: System<V>) {
    match ev
    case Begin(c, edits) =>
      && c in sys.clients && sys.clients[c].phase.Idle? && edits != map[] && Inflates(ops, sys.clients[c].local, edits)
      && next == sys.(clients := sys.clients[c := Client(sys.clients[c].local, Sending(edits, edits, 0))])
    case Pull(c, rq, answer) =>
      && c in sys.clients && !sys.clients[c].phase.Sending?
      && rq.cursor == sys.clients[c].local.cursor && rq.uploads == [] && rq.deletions == []
      && ClientRound(sys.view, rq, answer, next.view)
      && next.written == sys.written
      && next.clients == sys.clients[c := AfterPull(ops, sys.clients[c], answer)]
    case Send(c, ids, rq, answer) =>
      && CanSend(ops, sys, c, ids, rq) && ClientRound(sys.view, rq, answer, next.view)
      && next.written == (if answer.Reply? && answer.writesAccepted
                          then sys.written + Stamps(ops, sys.clients[c].phase.pending, ids) else sys.written)
      && next.clients == sys.clients[c := AfterSend(ops, sys.clients[c], ids, answer)]
    case Fail(c, ids, rq, stored) =>
      && CanSend(ops, sys, c, ids, rq)
      && (if stored then
            && (exists answer: Answer ::
                  answer.Reply? && answer.writesAccepted && ClientRound(sys.view, rq, answer, next.view))
            && next.written == sys.written + Stamps(ops, sys.clients[c].phase.pending, ids)
          else next.view == sys.view && next.written == sys.written)
      && next.clients == sys.clients[c := Client(sys.clients[c].local, Idle)]
    case Foreign(s, id, ciphertext) =>
      && id !in sys.written && Considerate(ops, sys.view.cells, s, ciphertext)
      && next == System(View(sys.view.nextSeq + 1, sys.view.cells[s := Cell(sys.view.nextSeq + 1, id, ciphertext)]),
                        sys.written[id := Stamp(s, ciphertext)], sys.clients)
    case Forget(slots) => next == sys.(view := sys.view.(cells := sys.view.cells - slots))
  }

  // ---- The invariant --------------------------------------------------------------------

  ghost predicate ViewKnown(view: View, written: map<Id, Stamp>) {
    forall s :: s in view.cells ==>
      && view.cells[s].seqno <= view.nextSeq && view.cells[s].id in written
      && written[view.cells[s].id] == Stamp(s, view.cells[s].ciphertext)
  }

  /** What a session believes it synced is what the relay once stored under that id. */
  ghost predicate Synced<V>(ops: Ops<V>, l: Local<V>, written: map<Id, Stamp>) {
    && l.notes.Keys <= l.synced.Keys
    && (forall s :: s in l.synced ==>
          (l.synced[s] in written && written[l.synced[s]].slot == s
            && Holds(ops, l.notes, s, written[l.synced[s]].ciphertext)))
  }

  ghost predicate Holds<V>(ops: Ops<V>, notes: map<Slot, V>, s: Slot, ciphertext: string) {
    match ops.open(ciphertext)
    case Note(v) => s in notes && notes[s] == v
    case Tombstone => s !in notes
    case Unreadable => false
  }

  /** Cursor completeness: every current record up to the cursor is the one the session has
      received or written itself, unless it cannot read it. */
  ghost predicate CaughtUp<V>(ops: Ops<V>, l: Local<V>, view: View) {
    && l.cursor <= view.nextSeq
    && (forall s :: s in view.cells && view.cells[s].seqno <= l.cursor ==>
          (s in l.synced && l.synced[s] == view.cells[s].id) || ops.open(view.cells[s].ciphertext).Unreadable?)
  }

  /** What is pending includes the edits, and before sending also the copies held. */
  ghost predicate Ahead<V>(ops: Ops<V>, c: Client<V>) {
    match c.phase
    case Idle => true
    case Sending(pending, edits, _) =>
      && pending.Keys == edits.Keys && pending != map[]
      && (forall s :: s in pending ==> Includes(ops, pending[s], edits[s]))
      && (forall s :: s in pending && s in c.local.notes ==> Includes(ops, pending[s], c.local.notes[s]))
    case Fetching(pending, edits, _) =>
      && pending.Keys == edits.Keys && pending != map[]
      && (forall s :: s in pending ==> Includes(ops, pending[s], edits[s]))
  }

  ghost predicate ClientOk<V>(ops: Ops<V>, c: Client<V>, view: View, written: map<Id, Stamp>) {
    Synced(ops, c.local, written) && CaughtUp(ops, c.local, view) && Ahead(ops, c)
  }

  ghost predicate Inv<V>(ops: Ops<V>, sys: System<V>) {
    && ViewKnown(sys.view, sys.written)
    && (forall c :: c in sys.clients ==> ClientOk(ops, sys.clients[c], sys.view, sys.written))
  }
}
