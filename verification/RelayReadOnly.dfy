/** Read-only rounds run without the write lock: what the last-seen update of a due one may undo. */
module RelayReadOnly {
  import opened Wrappers
  import opened RelayTables
  import opened RelayRound
  import opened RelaySpec
  import opened RoundProofs
  import opened RelayTheorems
  import opened RelayEffects
  import opened RelayRuns
  import opened LeftoverRun
  import opened RelayViewProofs

  /** A read-only round's last-seen update as it reaches the tables: it writes back every
      counter the round read, and it does not hold the write lock. */
  function StaleTouch(d: Disk, read: Account, now: int): Disk
    requires d.t.account.Some?
  {
    var a := read.(lastSeenAt := now, quota := d.t.account.value.quota);
    Disk(d.t.(account := Some(a)), d.bucket)
  }

  /** With no other write in between it is the update of the round as it runs alone. */
  lemma StaleTouchAlone(d: Disk, now: int)
    requires d.t.account.Some?
    ensures StaleTouch(d, d.t.account.value, now)
            == Disk(WithAccount(Start(d.t, d.t.account.value), d.t.account.value, now, false, true), d.bucket)
  {
  }

  /** It keeps the storage sound and the sequence counter from falling if and only if the
      counts it read are still the account's and no sequence number was handed out since. */
  lemma StaleTouchSound(d: Disk, read: Account, now: int)
    requires Sound(d)
    ensures var after := StaleTouch(d, read, now);
      Sound(after) && after.t.account.value.nextSeq >= d.t.account.value.nextSeq <==>
        && read.envelopeCount == d.t.account.value.envelopeCount
        && read.ciphertextBytes == d.t.account.value.ciphertextBytes
        && read.nextSeq >= d.t.account.value.nextSeq
    ensures Sound(StaleTouch(d, read, now)) <==>
              && read.envelopeCount == d.t.account.value.envelopeCount
              && read.ciphertextBytes == d.t.account.value.ciphertextBytes
              && (forall s :: s in d.t.live ==> d.t.live[s].seqno <= read.nextSeq)
  {
    var after := StaleTouch(d, read, now);
    VersionsSame(d.t, after.t);
    assert Claims(after.t) == Claims(d.t) && RowKeys(after.t) == RowKeys(d.t)
        && PendingKeys(after.t) == PendingKeys(d.t);
  }

  /** It touches nothing but the last-seen time if and only if no round has written since. */
  lemma StaleTouchHarmless(d: Disk, read: Account, now: int)
    requires d.t.account.Some?
    ensures StaleTouch(d, read, now) == d.(t := d.t.(account := Some(d.t.account.value.(lastSeenAt := now)))) <==>
      (read.nextSeq, read.envelopeCount, read.ciphertextBytes, read.updatedAt)
      == (d.t.account.value.nextSeq, d.t.account.value.envelopeCount, d.t.account.value.ciphertextBytes,
        d.t.account.value.updatedAt)
  {
    if StaleTouch(d, read, now) == d.(t := d.t.(account := Some(d.t.account.value.(lastSeenAt := now)))) {
      assert StaleTouch(d, read, now).t.account.value == d.t.account.value.(lastSeenAt := now);
    }
  }

  /** A reader due to be noted that saw the new account, while another device's first record
      was stored to the end: the counts no longer match the record. */
  lemma StaleTouchLoses(clock: int, later: int)
    requires TouchDue(NewDisk().t.account.value, clock) && later >= clock
    ensures IsFinal(NewDisk(), FIRST_WRITE, FIRST_DRAWN, FirstDraft(), later, 1, StoredAt(later))
    ensures Sound(StoredAt(later))
    ensures !Sound(StaleTouch(StoredAt(later), NewDisk().t.account.value, Now(NewDisk().t.account.value, clock)))
  {
    FirstRound(later);
    FirstSound(later);
    StaleTouchSound(StoredAt(later), NewDisk().t.account.value, Now(NewDisk().t.account.value, clock));
  }

  lemma FirstSound(later: int)
    requires later >= 1
    ensures Sound(StoredAt(later))
  {
    FirstRound(later);
    FirstMayRun();
    EndsSound(NewDisk(), FIRST_WRITE, FIRST_DRAWN, FirstDraft(), later, 1, StoredAt(later));
  }

  lemma FirstMayRun()
    ensures Sound(NewDisk()) && FreshKeys(NewDisk(), FIRST_WRITE.uploads, FIRST_DRAWN)
  {
    NewAccount(0, None);
  }

  lemma EndsSound(d: Disk, rq: Request, keys: map<Id, Key>, e: Draft, clock: int, window: nat, r: Disk)
    requires Sound(d) && FreshKeys(d, rq.uploads, keys) && DraftOf(d, rq, keys, e) && window >= 1
    requires IsFinal(d, rq, keys, e, clock, window, r)
    ensures Sound(r)
  {
    FinishRound(d, rq, keys, e, clock, window, r);
  }

  // ---- A sequence number handed out twice ---------------------------------------------------

  /** An account whose fifth record was stored and deleted again, and what a reader saw before. */
  function EmptiedDisk(later: int): Disk {
    Disk(Tables(Some(Account(5, 0, 0, later, later, None)), map[], map[], 1, map[], map[], Usage(0, 0)), map[])
  }

  const EARLIER := Account(4, 0, 0, 0, 0, None)

  /** What that reader's update leaves. */
  function RewoundDisk(clock: int, later: int): Disk {
    StaleTouch(EmptiedDisk(later), EARLIER, Now(EARLIER, clock))
  }

  lemma EmptiedSound(later: int)
    ensures Sound(EmptiedDisk(later))
  {
    assert Sizes(EmptiedDisk(later).t.live) == map[];
  }

  /** The counts it read are right, and still the update takes the sequence counter back. */
  lemma StaleTouchRewinds(clock: int, later: int)
    requires TouchDue(EARLIER, clock) && later >= clock
    ensures Sound(EmptiedDisk(later)) && Sound(RewoundDisk(clock, later))
    ensures RewoundDisk(clock, later).t.account.value.nextSeq < EmptiedDisk(later).t.account.value.nextSeq
  {
    EmptiedSound(later);
    StaleTouchSound(EmptiedDisk(later), EARLIER, Now(EARLIER, clock));
  }

  /** A client that had seen everything is then told to start over. */
  lemma RewoundResets(clock: int, later: int, rq: Request, keys: map<Id, Key>, after: int, window: nat,
                      answer: Answer, r: Disk)
    requires rq.cursor == EmptiedDisk(later).t.account.value.nextSeq && UploadIds(rq.uploads) <= keys.Keys
    requires Answered(RewoundDisk(clock, later), rq, keys, after, window, answer, r)
    ensures answer.Reply? && answer.reset
  {
  }

  lemma OneStored(d: Disk, rq: Request, keys: map<Id, Key>, e: Draft, clock: int, window: nat, r: Disk, u: Upload)
    requires Sound(d) && FreshKeys(d, rq.uploads, keys) && DraftOf(d, rq, keys, e) && window >= 1
    requires IsFinal(d, rq, keys, e, clock, window, r) && AcceptedOf(d, rq) == [u]
    ensures u.slot in r.t.live && r.t.live[u.slot].id == u.id
  {
    assert LastTo([u], u.slot) == 0;
    RoundEffect(d, rq, keys, e, clock, window, r, u.slot);
  }

  lemma NoneAboveNext(d: Disk, rq: Request, keys: map<Id, Key>, e: Draft, clock: int, window: nat, r: Disk, u: Upload,
                      limit: nat)
    requires Sound(d) && FreshKeys(d, rq.uploads, keys) && DraftOf(d, rq, keys, e) && window >= 1
    requires IsFinal(d, rq, keys, e, clock, window, r) && AcceptedOf(d, rq) == [u]
    ensures Candidates(r.t.live, d.t.account.value.nextSeq + 1, limit) == []
  {
    var next := d.t.account.value.nextSeq + 1;
    assert r.t.account.Some? && r.t.account.value.nextSeq == next by {
      CommitOnView(d, rq, keys, e, clock, window, r);
      CommitSeqno(d, rq, keys, e, clock);
    }
    assert LiveConsistent(r.t.live, next) by { FinishRound(d, rq, keys, e, clock, window, r); }
    NothingAbove(r, next, limit);
  }

  /** Or, once another device has stored one record, that record is never sent to it. */
  lemma RewoundHides(clock: int, later: int, rq: Request, keys: map<Id, Key>, e: Draft, after: int, window: nat,
                     r: Disk, u: Upload, limit: nat)
    requires TouchDue(EARLIER, clock) && later >= clock
    requires FreshKeys(RewoundDisk(clock, later), rq.uploads, keys) && window >= 1
    requires DraftOf(RewoundDisk(clock, later), rq, keys, e)
    requires IsFinal(RewoundDisk(clock, later), rq, keys, e, after, window, r)
    requires AcceptedOf(RewoundDisk(clock, later), rq) == [u]
    ensures u.slot in r.t.live && Candidates(r.t.live, EmptiedDisk(later).t.account.value.nextSeq, limit) == []
  {
    var d := RewoundDisk(clock, later);
    StaleTouchRewinds(clock, later);
    OneStored(d, rq, keys, e, after, window, r, u);
    NoneAboveNext(d, rq, keys, e, after, window, r, u, limit);
  }
}
