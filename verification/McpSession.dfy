/** The session as it runs: the records it holds and the loop that downloads them. */
module McpSession {
  import opened Wrappers
  import opened RelayTables
  import opened RelayRound
  import opened RelaySpec
  import opened RelayView
  import opened RelayViewProofs
  import opened Coordinator
  import opened Session
  import opened SyncSystem
  import opened SyncProofs
  import opened DownloadProofs

  const PAGE_LIMIT := 100

  function PutOf<V>(ops: Ops<V>, l: Local<V>, s: Slot, value: V, id: Id): Upload {
    Upload(id, s, ops.seal(value), if s in l.synced then Some(l.synced[s]) else None, false)
  }

  /** The uploads of some of the pending records, each once. */
  ghost predicate PutsOf<V>(ops: Ops<V>, l: Local<V>, pending: map<Slot, V>, ids: map<Slot, Id>, done: set<Slot>,
                            us: seq<Upload>) {
    && done <= pending.Keys <= ids.Keys && UploadSlots(us) == done
    && (forall i, j :: 0 <= i < j < |us| ==> us[i].slot != us[j].slot)
    && (forall u :: u in us ==> u.slot in pending && u == PutOf(ops, l, u.slot, pending[u.slot], ids[u.slot]))
  }

  lemma PutsOneMore<V>(ops: Ops<V>, l: Local<V>, pending: map<Slot, V>, ids: map<Slot, Id>, done: set<Slot>,
                       us: seq<Upload>, s: Slot)
    requires PutsOf(ops, l, pending, ids, done, us) && s in pending && s !in done
    ensures PutsOf(ops, l, pending, ids, done + {s}, us + [PutOf(ops, l, s, pending[s], ids[s])])
  {
    var u := PutOf(ops, l, s, pending[s], ids[s]);
    forall v | v in us ensures v.slot in done { assert v.slot in UploadSlots(us); }
    assert UploadSlots(us + [u]) == UploadSlots(us) + {s};
  }

  lemma PutsOfAll<V>(ops: Ops<V>, l: Local<V>, pending: map<Slot, V>, ids: map<Slot, Id>, us: seq<Upload>)
    requires PutsOf(ops, l, pending, ids, pending.Keys, us)
    ensures Puts(ops, l, pending, ids, us)
  {
  }

  /** The relay took the write in, and its answer never came. */
  ghost predicate StoredUnanswered(view: View, rq: Request, after: View) {
    exists answer: Answer :: answer.Reply? && answer.writesAccepted && ClientRound(view, rq, answer, after)
  }

  lemma LostAnswer(d: Disk, rq: Request, keys: map<Id, Key>, clock: int, after: Disk)
    requires Sound(d) && FreshKeys(d, rq.uploads, keys) && RoundKeeps(d, rq, GoalOf(d, rq, keys, clock), after)
    ensures ViewOf(after) == ViewOf(d) || StoredUnanswered(ViewOf(d), rq, ViewOf(after))
  {
    var report := AccountReport(d.t, rq);
    FailureOnView(d, rq, keys, clock, after, report);
    var answer := Accepting(ViewOf(d), rq, report);
    assert answer.Reply? && answer.writesAccepted;
  }

  /** A pull changes nothing, answered or not. */
  lemma PullUnanswered(d: Disk, rq: Request, clock: int, window: nat, answer: Answer, after: Disk)
    requires Sound(d) && rq.uploads == [] && rq.deletions == [] && window >= 1 && FreshKeys(d, rq.uploads, map[])
    requires RoundKeeps(d, rq, GoalOf(d, rq, map[], clock), after)
    requires answer != Failed ==> Answered(d, rq, map[], clock, window, answer, after)
    requires !answer.Reply?
    ensures ViewOf(after) == ViewOf(d)
  {
    if answer != Failed {
      AnswerOnView(d, rq, map[], clock, window, answer, after);
    } else {
      LostAnswer(d, rq, map[], clock, after);
      if ViewOf(after) != ViewOf(d) {
        var lost: Answer :| lost.Reply? && lost.writesAccepted && ClientRound(ViewOf(d), rq, lost, ViewOf(after));
        PullView(ViewOf(d), rq, lost, ViewOf(after));
      }
    }
  }

  class McpSession<V> {
    const ops: Ops<V>
    var notes: map<Slot, V>
    var synced: map<Slot, Id>
    var cursor: int
    var phase: Phase<V>

    constructor (ops: Ops<V>)
      ensures this.ops == ops && Now() == Client(Empty(), Idle)
    {
      this.ops, notes, synced, cursor, phase := ops, map[], map[], 0, Idle;
    }

    function Held(): Local<V>
      reads this
    {
      Local(notes, synced, cursor)
    }

    function Now(): Client<V>
      reads this
    {
      Client(Held(), phase)
    }

    method Apply(envelopes: seq<Envelope>)
      modifies this`notes, this`synced
      ensures Held() == ApplyEnvelopes(ops, old(Held()), envelopes)
    {
      var i := 0;
      while i < |envelopes|
        invariant 0 <= i <= |envelopes| && Held() == ApplyEnvelopes(ops, old(Held()), envelopes[..i])
      {
        var e := envelopes[i];
        assert envelopes[..i + 1][..i] == envelopes[..i];
        match ops.open(e.ciphertext) {
          case Note(value) =>
            notes := notes[e.slot := value];
            synced := synced[e.slot := e.id];
          case Tombstone =>
            notes := notes - {e.slot};
            synced := synced[e.slot := e.id];
          case Unreadable =>
        }
        i := i + 1;
      }
      assert envelopes[..i] == envelopes;
    }

    /** One answer taken in, as every round trip ends. */
    method TakeIn(answer: Answer)
      requires answer.Reply?
      modifies this`notes, this`synced, this`cursor
      ensures Held() == Receive(ops, old(Held()), answer)
    {
      if answer.reset {
        notes, synced, cursor := map[], map[], 0;
      }
      Apply(answer.envelopes + answer.conflicts);
      cursor := answer.cursor;
    }

    /** One pull, while no other writer is at work. */
    method Pull(relay: AccountCoordinator, maxBytes: nat, clock: int) returns (answer: Answer)
      requires relay.window >= 1 && Sound(relay.disk)
      modifies this`notes, this`synced, this`cursor, relay
      ensures Sound(relay.disk)
      ensures !answer.Reply? ==> Held() == old(Held())
      ensures ViewOf(relay.disk) == ViewOf(old(relay.disk))
      ensures answer.Reply? ==>
        && ClientRound(ViewOf(old(relay.disk)), Request(old(cursor), [], [], PAGE_LIMIT, maxBytes), answer,
                       ViewOf(old(relay.disk)))
        && Held() == Receive(ops, old(Held()), answer)
    {
      ghost var d := relay.disk;
      var rq := Request(cursor, [], [], PAGE_LIMIT, maxBytes);
      answer := relay.Sync(rq, map[], clock);
      if answer.Reply? {
        AnswerOnView(d, rq, map[], clock, relay.window, answer, relay.disk);
        PullView(ViewOf(d), rq, answer, ViewOf(relay.disk));
        TakeIn(answer);
      } else {
        PullUnanswered(d, rq, clock, relay.window, answer, relay.disk);
      }
    }

    /** The next page of a download. */
    method PullMore(relay: AccountCoordinator, maxBytes: nat, clock: int, ghost view: View, ghost start: Local<V>,
                    ghost es: seq<Envelope>)
      returns (ok: bool, hasMore: bool, ghost page: seq<Envelope>)
      requires relay.window >= 1 && Sound(relay.disk) && view == ViewOf(relay.disk)
      requires Downloading(ops, view, start, es, true, Held())
      modifies this, relay
      ensures Sound(relay.disk)
      ensures ok ==> view == ViewOf(relay.disk) && Downloading(ops, view, start, es + page, hasMore, Held())
      ensures ok ==> if hasMore then Remaining(view.cells, cursor) < Remaining(view.cells, old(cursor))
                     else Remaining(view.cells, cursor) <= Remaining(view.cells, old(cursor))
    {
      ghost var held := Held();
      SeqsBounded(relay.disk);
      var answer := Pull(relay, maxBytes, clock);
      ok, hasMore, page := answer.Reply?, false, [];
      if ok {
        DownloadGoesOn(ops, view, start, es, held, Request(held.cursor, [], [], PAGE_LIMIT, maxBytes), answer);
        hasMore, page := answer.hasMore, answer.envelopes;
      }
    }

    /** Downloads page after page. With no other writer it ends, and unless a call fails it
        has delivered every record above the starting cursor exactly once, in order. */
    method DownloadChanges(relay: AccountCoordinator, maxBytes: nat, clock: int)
      returns (ok: bool, ghost delivered: seq<Envelope>)
      requires relay.window >= 1 && Sound(relay.disk) && cursor <= relay.disk.t.account.value.nextSeq
      modifies this, relay
      ensures Sound(relay.disk)
      ensures ok ==> ViewOf(relay.disk) == ViewOf(old(relay.disk))
      ensures ok ==> Downloading(ops, ViewOf(old(relay.disk)), old(Held()), delivered, false, Held())
    {
      DownloadStarts(ops, ViewOf(relay.disk), Held());
      ok, delivered := DownloadPages(relay, maxBytes, clock, ViewOf(relay.disk), Held());
    }

    method DownloadPages(relay: AccountCoordinator, maxBytes: nat, clock: int, ghost view: View, ghost start: Local<V>)
      returns (ok: bool, ghost delivered: seq<Envelope>)
      requires relay.window >= 1 && Sound(relay.disk) && view == ViewOf(relay.disk)
      requires Downloading(ops, view, start, [], true, Held())
      modifies this, relay
      ensures Sound(relay.disk)
      ensures ok ==> view == ViewOf(relay.disk) && Downloading(ops, view, start, delivered, false, Held())
    {
      delivered := [];
      var hasMore := true;
      ok := true;
      while hasMore
        invariant Sound(relay.disk) && view == ViewOf(relay.disk)
        invariant Downloading(ops, view, start, delivered, hasMore, Held())
        decreases Remaining(view.cells, cursor), hasMore
      {
        ghost var page;
        ok, hasMore, page := PullMore(relay, maxBytes, clock, view, start, delivered);
        if !ok { return; }
        delivered := delivered + page;
      }
      ok := true;
    }

    // ---- Writing: the stretches between awaits, while others may write in between --------

    method BeginCommit(edits: map<Slot, V>)
      requires phase.Idle?
      modifies this`phase
      ensures Now() == Client(old(Held()), Sending(edits, edits, 0))
    {
      phase := Sending(edits, edits, 0);
    }

    /** The upload of every pending record, made from the version the session last synced. */
    method BuildUploads(pending: map<Slot, V>, ids: map<Slot, Id>) returns (us: seq<Upload>)
      requires pending.Keys <= ids.Keys
      ensures Puts(ops, Held(), pending, ids, us)
    {
      us := [];
      var rest := pending.Keys;
      while rest != {}
        invariant rest <= pending.Keys && PutsOf(ops, Held(), pending, ids, pending.Keys - rest, us)
        decreases |rest|
      {
        var s :| s in rest;
        assert pending.Keys - (rest - {s}) == pending.Keys - rest + {s};
        PutsOneMore(ops, Held(), pending, ids, pending.Keys - rest, us, s);
        us := us + [PutOf(ops, Held(), s, pending[s], ids[s])];
        rest := rest - {s};
      }
      PutsOfAll(ops, Held(), pending, ids, us);
    }

    /** One attempt to write: a round with the relay, taken in; then done, merged to be tried
        again, or downloading first. A round that throws ends the write. */
    method Attempt(relay: AccountCoordinator, ids: map<Slot, Id>, us: seq<Upload>, keys: map<Id, Key>, maxBytes: nat,
                   clock: int)
      returns (answer: Answer)
      requires phase.Sending? && Puts(ops, Held(), phase.pending, ids, us)
      requires relay.window >= 1 && Sound(relay.disk) && FreshKeys(relay.disk, us, keys)
      modifies this, relay
      ensures Sound(relay.disk)
      ensures Now() == AfterSend(ops, old(Now()), ids, answer)
      ensures answer != Failed ==>
        ClientRound(old(ViewOf(relay.disk)), Request(old(cursor), us, [], PAGE_LIMIT, maxBytes), answer,
          ViewOf(relay.disk))
      ensures answer == Failed ==>
        || ViewOf(relay.disk) == old(ViewOf(relay.disk))
        || StoredUnanswered(old(ViewOf(relay.disk)), Request(old(cursor), us, [], PAGE_LIMIT, maxBytes),
          ViewOf(relay.disk))
    {
      ghost var d := relay.disk;
      var rq := Request(cursor, us, [], PAGE_LIMIT, maxBytes);
      answer := relay.Sync(rq, keys, clock);
      if answer != Failed {
        AnswerOnView(d, rq, keys, clock, relay.window, answer, relay.disk);
      } else {
        LostAnswer(d, rq, keys, clock, relay.disk);
      }
      Settle(ids, answer);
    }

    /** What an answer makes of a write under way. */
    method Settle(ids: map<Slot, Id>, answer: Answer)
      requires phase.Sending? && phase.pending.Keys <= ids.Keys
      modifies this
      ensures Now() == AfterSend(ops, old(Now()), ids, answer)
    {
      if !answer.Reply? {
        phase := Idle;
        return;
      }
      TakeIn(answer);
      if answer.writesAccepted {
        synced := synced + (map s | s in phase.pending :: ids[s]);
        notes := notes + phase.pending;
        phase := Idle;
      } else if answer.hasMore {
        phase := Fetching(phase.pending, phase.edits, phase.attempt);
      } else {
        TryAgain();
      }
    }

    /** Merges what is pending with the copies now held, up to four times; then gives up. */
    method TryAgain()
      requires !phase.Idle?
      modifies this`phase
      ensures phase == Retry(ops, Held(), old(phase))
    {
      if phase.attempt + 1 < MAX_ATTEMPTS {
        var merged := map s | s in phase.pending :: if s in notes then ops.join(notes[s], phase.pending[s])
            else phase.pending[s];
        phase := Sending(merged, phase.edits, phase.attempt + 1);
      } else {
        phase := Idle;
      }
    }

    /** The next page a refused write waits for. */
    method Fetch(relay: AccountCoordinator, maxBytes: nat, clock: int) returns (answer: Answer)
      requires phase.Fetching? && relay.window >= 1 && Sound(relay.disk)
      modifies this, relay
      ensures Sound(relay.disk) && Now() == AfterPull(ops, old(Now()), answer)
      ensures ViewOf(relay.disk) == old(ViewOf(relay.disk))
      ensures answer.Reply? ==>
        ClientRound(old(ViewOf(relay.disk)), Request(old(cursor), [], [], PAGE_LIMIT, maxBytes), answer,
          ViewOf(relay.disk))
    {
      answer := Pull(relay, maxBytes, clock);
      if !answer.Reply? {
        phase := Idle;
      } else if !answer.hasMore {
        TryAgain();
      }
    }
  }

  /** The system after an attempt that was answered. */
  ghost predicate Answers<V>(ops: Ops<V>, sys: System<V>, c: nat, ids: map<Slot, Id>, answer: Answer, view: View,
                             next: System<V>)
    requires c in sys.clients && sys.clients[c].phase.Sending?
        && FreshIds(sys.clients[c].phase.pending, ids, sys.written)
  {
    && next.view == view && next.clients == sys.clients[c := AfterSend(ops, sys.clients[c], ids, answer)]
    && next.written == if answer.Reply? && answer.writesAccepted
      then sys.written + Stamps(ops, sys.clients[c].phase.pending, ids)
                       else sys.written
  }

  /** Every attempt is a step of the system of all sessions, whether it is answered or fails,
      so what is proved of the system's runs holds of this code. */
  lemma AttemptIsStep<V>(ops: Ops<V>, sys: System<V>, c: nat, ids: map<Slot, Id>, rq: Request, answer: Answer,
                         view: View,
                         next: System<V>)
    returns (e: SyncSystem.Event<V>, after: System<V>)
    requires CanSend(ops, sys, c, ids, rq) && Answers(ops, sys, c, ids, answer, view, next)
    requires answer != Failed ==> ClientRound(sys.view, rq, answer, view)
    requires answer == Failed ==> view == sys.view || StoredUnanswered(sys.view, rq, view)
    ensures Step(ops, sys, e, after) && after.view == view && after.clients == next.clients
    ensures answer != Failed ==> after == next
  {
    if answer != Failed {
      e, after := SyncSystem.Event.Send(c, ids, rq, answer), next;
    } else if view == sys.view {
      e, after := SyncSystem.Event.Fail(c, ids, rq, false), next;
    } else {
      e := SyncSystem.Event.Fail(c, ids, rq, true);
      after := next.(written := sys.written + Stamps(ops, sys.clients[c].phase.pending, ids));
    }
  }

  /** Beginning to write is a step, when the edit moves each note up from the copy held. */
  lemma BeginIsStep<V>(ops: Ops<V>, sys: System<V>, c: nat, edits: map<Slot, V>, begun: Client<V>)
    returns (e: SyncSystem.Event<V>, next: System<V>)
    requires c in sys.clients && sys.clients[c].phase.Idle? && edits != map[]
        && Inflates(ops, sys.clients[c].local, edits)
    requires begun == Client(sys.clients[c].local, Sending(edits, edits, 0))
    ensures Step(ops, sys, e, next) && next.view == sys.view && next.clients == sys.clients[c := begun]
  {
    e, next := SyncSystem.Event.Begin(c, edits), sys.(clients := sys.clients[c := begun]);
  }

  /** So is every pull, answered or not, of a download and of a refused write. */
  lemma FetchIsStep<V>(ops: Ops<V>, sys: System<V>, c: nat, rq: Request, answer: Answer)
    returns (e: SyncSystem.Event<V>, next: System<V>)
    requires c in sys.clients && !sys.clients[c].phase.Sending?
    requires rq.cursor == sys.clients[c].local.cursor && rq.uploads == [] && rq.deletions == []
    requires answer.Reply? ==> ClientRound(sys.view, rq, answer, sys.view)
    ensures Step(ops, sys, e, next) && next.view == sys.view
    ensures next.clients == sys.clients[c := AfterPull(ops, sys.clients[c], answer)]
  {
    e := SyncSystem.Event.Pull(c, rq, answer);
    next := sys.(clients := sys.clients[c := AfterPull(ops, sys.clients[c], answer)]);
  }
}
