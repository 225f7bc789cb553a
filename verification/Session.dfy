/**
 The MCP session's side of the relay: what it holds, how it applies what it receives, and
 the write that merges and tries again when another writer got there first.
 Notes are values of any join semilattice; an edit only ever moves a note up in its order.
 */
module Session {
  import opened Wrappers
  import opened RelayTables
  import opened RelayRound
  import opened RelaySpec
  import opened RelayView

  datatype Payload<V> = Note(value: V) | Tombstone | Unreadable

  /** Sealing and opening a record, and merging two versions of one. */
  datatype Ops<!V> = Ops(open: string -> Payload<V>, seal: V -> string, join: (V, V) -> V)

  ghost predicate Lawful<V(!new)>(ops: Ops<V>) {
    && (forall v :: ops.open(ops.seal(v)) == Note(v))
    && (forall a :: ops.join(a, a) == a)
    && (forall a, b :: ops.join(a, b) == ops.join(b, a))
    && (forall a, b, c :: ops.join(ops.join(a, b), c) == ops.join(a, ops.join(b, c)))
  }

  /** `b` includes everything `a` has. */
  predicate Includes<V(==)>(ops: Ops<V>, b: V, a: V) { ops.join(a, b) == b }

  lemma IncludesTrans<V(!new)>(ops: Ops<V>, a: V, b: V, c: V)
    requires Lawful(ops) && Includes(ops, b, a) && Includes(ops, c, b)
    ensures Includes(ops, c, a)
  {
    assert ops.join(ops.join(a, b), c) == ops.join(a, ops.join(b, c));
  }

  lemma JoinIncludes<V(!new)>(ops: Ops<V>, a: V, b: V)
    requires Lawful(ops)
    ensures Includes(ops, ops.join(a, b), a) && Includes(ops, ops.join(a, b), b) && Includes(ops, a, a)
  {
    assert ops.join(ops.join(a, a), b) == ops.join(a, ops.join(a, b));
    assert ops.join(b, ops.join(a, b)) == ops.join(ops.join(a, b), b) == ops.join(a, ops.join(b, b));
  }

  // ---- What a session holds ---------------------------------------------------------

  datatype Local<V> = Local(notes: map<Slot, V>, synced: map<Slot, Id>, cursor: int)

  function Empty<V>(): Local<V> { Local(map[], map[], 0) }

  function ApplyOne<V>(ops: Ops<V>, l: Local<V>, e: Envelope): Local<V> {
    match ops.open(e.ciphertext)
    case Note(v) => l.(notes := l.notes[e.slot := v], synced := l.synced[e.slot := e.id])
    case Tombstone => l.(notes := l.notes - {e.slot}, synced := l.synced[e.slot := e.id])
    case Unreadable => l
  }

  function ApplyEnvelopes<V>(ops: Ops<V>, l: Local<V>, es: seq<Envelope>): Local<V> {
    if es == [] then l else ApplyOne(ops, ApplyEnvelopes(ops, l, es[..|es| - 1]), es[|es| - 1])
  }

  /** What a session holds after an answer: a reset clears it, then the envelopes apply. */
  function Receive<V>(ops: Ops<V>, l: Local<V>, answer: Answer): Local<V>
    requires answer.Reply?
  {
    var base := if answer.reset then Empty() else l;
    ApplyEnvelopes(ops, base, answer.envelopes + answer.conflicts).(cursor := answer.cursor)
  }

  /** The records to try again with: each merged with the copy the session now holds. */
  function MergePending<V>(ops: Ops<V>, l: Local<V>, pending: map<Slot, V>): map<Slot, V> {
    map s | s in pending :: if s in l.notes then ops.join(l.notes[s], pending[s]) else pending[s]
  }

  /** What a session holds once its own records are in. */
  function Adopt<V>(l: Local<V>, pending: map<Slot, V>, ids: map<Slot, Id>): Local<V>
    requires pending.Keys <= ids.Keys
  {
    l.(notes := l.notes + pending, synced := l.synced + (map s | s in pending :: ids[s]))
  }

  /** The upload of each pending record: a new id, the version it was made from, no history
      continued. */
  ghost predicate Puts<V>(ops: Ops<V>, l: Local<V>, pending: map<Slot, V>, ids: map<Slot, Id>, us: seq<Upload>) {
    && pending.Keys <= ids.Keys && UploadSlots(us) == pending.Keys
    && (forall i, j :: 0 <= i < j < |us| ==> us[i].slot != us[j].slot)
    && (forall u :: u in us ==> u.slot in pending && u.slot in ids && u.id == ids[u.slot]
                                && u.ciphertext == ops.seal(pending[u.slot])
                                && u.expectedId == (if u.slot in l.synced then Some(l.synced[u.slot]) else None))
  }

  // ---- Applying envelopes -------------------------------------------------------------

  /** The envelopes are cells of the view. */
  ghost predicate FromView(cells: map<Slot, Cell>, es: seq<Envelope>) {
    forall i :: 0 <= i < |es| ==> IsCell(cells, es[i])
  }

  /** What applying cells of one view does to each slot. */
  lemma {:induction false} ApplySlot<V>(ops: Ops<V>, l: Local<V>, cells: map<Slot, Cell>, es: seq<Envelope>, s: Slot)
    requires FromView(cells, es)
    ensures var r := ApplyEnvelopes(ops, l, es);
            if s in cells && Carried(es, s) && !ops.open(cells[s].ciphertext).Unreadable? then
              && s in r.synced && r.synced[s] == cells[s].id
              && (match ops.open(cells[s].ciphertext)
                  case Note(v) => s in r.notes && r.notes[s] == v
                  case _ => s !in r.notes)
            else
              && (s in r.synced <==> s in l.synced) && (s in l.synced ==> r.synced[s] == l.synced[s])
              && (s in r.notes <==> s in l.notes) && (s in l.notes ==> r.notes[s] == l.notes[s])
  {
    if es != [] {
      var n := |es| - 1;
      var e := es[n];
      assert es == es[..n] + [e];
      ApplySlot(ops, l, cells, es[..n], s);
      assert IsCell(cells, e);
      assert Carried(es, s) <==> Carried(es[..n], s) || e.slot == s by {
        if Carried(es[..n], s) {
          var i :| 0 <= i < n && es[..n][i].slot == s;
          assert es[i].slot == s;
        }
        if Carried(es, s) && e.slot != s {
          var i :| 0 <= i < |es| && es[i].slot == s;
          assert es[..n][i].slot == s;
        }
      }
    }
  }
}
