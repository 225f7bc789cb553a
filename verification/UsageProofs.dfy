/** When the kept history usage stays the true one, and what eviction then achieves. */
module UsageProofs {
  import opened Collections
  import opened RelayTables
  import opened RelayRound
  import opened RelayRoundProofs
  import opened RelayCommitProofs
  import opened RelayCleanup
  import opened RelayCleanupProofs
  import opened RelaySpec
  import opened PlanProofs
  import opened RoundProofs

  // ---- Counting older versions ----------------------------------------------------

  lemma VersionBytesUnion(t: Tables, a: set<nat>, b: set<nat>)
    requires a !! b
    ensures VersionBytes(t, a + b) == VersionBytes(t, a) + VersionBytes(t, b)
  {
    var sizes := VersionSizes(t.history);
    var both := Only(sizes, a + b);
    SumSplit(both, a);
    assert both - a == Only(sizes, b);
    assert Only(both, a) == Only(sizes, a);
  }

  lemma VersionBytesSame(t: Tables, after: Tables, ids: set<nat>)
    requires forall h :: h in ids ==>
      h in t.history && h in after.history && t.history[h].bytes == after.history[h].bytes
    ensures VersionBytes(t, ids) == VersionBytes(after, ids)
  {
    assert Only(VersionSizes(t.history), ids) == Only(VersionSizes(after.history), ids);
  }

  function OlderOut(t: Tables, slots: set<Slot>): set<nat> { OlderAll(t) - OlderIn(t, slots) }

  function Plus(u: Usage, v: Usage): Usage { Usage(u.versions + v.versions, u.bytes + v.bytes) }

  function Minus(u: Usage, v: Usage): Usage { Usage(u.versions - v.versions, u.bytes - v.bytes) }

  /** By how much the kept usage is more than the true one. */
  ghost function Drift(t: Tables): Usage { Minus(t.usage, TrueUsage(t)) }

  lemma NoDrift(t: Tables)
    ensures Drift(t) == Usage(0, 0) <==> t.usage == TrueUsage(t)
  {
  }

  lemma CountUnion<T>(a: set<T>, b: set<T>, whole: set<T>)
    requires a !! b && whole == a + b
    ensures |whole| == |a| + |b|
  {
    assert a * b == {};
  }

  /** The usage of some versions. */
  ghost function UsageOf(t: Tables, ids: set<nat>): Usage { Usage(|ids|, VersionBytes(t, ids)) }

  lemma UsageUnion(t: Tables, a: set<nat>, b: set<nat>, whole: set<nat>)
    requires a !! b && whole == a + b
    ensures UsageOf(t, whole) == Plus(UsageOf(t, a), UsageOf(t, b))
  {
    CountUnion(a, b, whole);
    VersionBytesUnion(t, a, b);
  }

  lemma UsageSplit(t: Tables, slots: set<Slot>)
    ensures TrueUsage(t) == Plus(UsageIn(t, slots), UsageOf(t, OlderOut(t, slots)))
  {
    assert OlderAll(t) == OlderIn(t, slots) + OlderOut(t, slots);
    UsageUnion(t, OlderIn(t, slots), OlderOut(t, slots), OlderAll(t));
  }

  lemma OlderNested(t: Tables, part: set<Slot>, slots: set<Slot>)
    requires part <= slots
    ensures OlderIn(t, part) !! OlderIn(t, slots - part)
    ensures OlderIn(t, slots) == OlderIn(t, part) + OlderIn(t, slots - part)
  {
  }

  lemma UsageNested(t: Tables, part: set<Slot>, slots: set<Slot>)
    requires part <= slots
    ensures UsageIn(t, slots) == Plus(UsageIn(t, part), UsageIn(t, slots - part))
  {
    OlderNested(t, part, slots);
    UsageUnion(t, OlderIn(t, part), OlderIn(t, slots - part), OlderIn(t, slots));
  }

  lemma NoOlder(t: Tables, slots: set<Slot>)
    ensures UsageIn(t, slots) == Usage(0, 0) <==> OlderIn(t, slots) == {}
  {
    NoBytes(t);
  }

  // ---- What a round leaves alone ----------------------------------------------------

  /** Outside `slots` the live rows and the history are the same. */
  ghost predicate SameOutside(t: Tables, after: Tables, slots: set<Slot>) {
    && (forall s :: s !in slots ==>
          (s in t.live <==> s in after.live) && (s in t.live ==> t.live[s] == after.live[s]))
    && (forall h :: h in t.history && t.history[h].slot !in slots ==>
          h in after.history && after.history[h] == t.history[h])
    && (forall h :: h in after.history && after.history[h].slot !in slots ==>
          h in t.history && after.history[h] == t.history[h])
  }

  lemma SameTrans(a: Tables, b: Tables, c: Tables, slots: set<Slot>)
    requires SameOutside(a, b, slots) && SameOutside(b, c, slots)
    ensures SameOutside(a, c, slots)
  {
  }

  lemma SameOlder(t: Tables, after: Tables, slots: set<Slot>)
    requires SameOutside(t, after, slots)
    ensures OlderOut(t, slots) == OlderOut(after, slots)
    ensures UsageOf(t, OlderOut(t, slots)) == UsageOf(after, OlderOut(after, slots))
  {
    forall h | h in OlderOut(t, slots) ensures h in OlderOut(after, slots) {
      assert t.history[h].slot !in slots;
    }
    forall h | h in OlderOut(after, slots) ensures h in OlderOut(t, slots) {
      assert after.history[h].slot !in slots;
    }
    VersionBytesSame(t, after, OlderOut(t, slots));
  }

  lemma StoreSame(t: Tables, u: Upload, key: Key, seqno: nat, slots: set<Slot>)
    requires u.slot in slots && HistoryOrdered(t)
    ensures SameOutside(t, StoreTables(t, u, key, seqno), slots)
  {
  }

  lemma {:induction false} StoreAllSame(d: Draft, us: seq<Upload>, keys: map<Id, Key>, maxBytes: int, slots: set<Slot>)
    requires DraftSound(d) && CanStoreAll(d, us, keys) && UploadSlots(us) <= slots
    requires StoreAll(d, us, keys, maxBytes).Some?
    ensures SameOutside(d.t, StoreAll(d, us, keys, maxBytes).value.t, slots)
  {
    if us != [] {
      var n := |us| - 1;
      UploadIdsAppend(us);
      StoreAllIds(d, us[..n], keys, maxBytes);
      var b := StoreAll(d, us[..n], keys, maxBytes).value;
      NextCanStore(d, us, keys, b);
      StoreAllSound(d, us[..n], keys, maxBytes);
      assert UploadSlots(us[..n]) <= UploadSlots(us);
      StoreAllSame(d, us[..n], keys, maxBytes, slots);
      assert us[n].slot in UploadSlots(us);
      StoreSame(b.t, us[n], keys[us[n].id], b.seqno + 1, slots);
      SameTrans(d.t, b.t, StoreAll(d, us, keys, maxBytes).value.t, slots);
    }
  }

  lemma DropSame(d: Disk, gone: set<nat>, slots: set<Slot>)
    requires forall h :: h in gone && h in d.t.history ==> d.t.history[h].slot in slots
    ensures SameOutside(d.t, DropHistory(d, gone).t, slots)
  {
  }

  // ---- Continued versions -------------------------------------------------------------

  /** An id names versions of one record only, in the history and among the live rows. */
  ghost predicate AtHome(live: map<Slot, Row>, history: map<nat, Version>) {
    && (forall g, h :: g in history && h in history && history[g].id == history[h].id ==>
      history[g].slot == history[h].slot)
    && (forall s, h :: s in live && h in history && history[h].id == live[s].id ==> history[h].slot == s)
  }

  /** The id of an upload is new to the history, or known there for the same record. */
  ghost predicate OwnId(history: map<nat, Version>, u: Upload) {
    forall h :: h in history && history[h].id == u.id ==> history[h].slot == u.slot
  }

  ghost predicate OwnIds(history: map<nat, Version>, us: seq<Upload>) {
    forall u :: u in us ==> OwnId(history, u)
  }

  /** What this round uploads or replaces is kept in the history under the same slot. */
  ghost predicate IdsAtHome(d: Disk, us: seq<Upload>) { AtHome(d.t.live, d.t.history) && OwnIds(d.t.history, us) }

  ghost predicate FromUploads(id: Id, live: map<Slot, Row>, us: seq<Upload>) {
    exists u :: u in us && (u.id == id || (u.slot in live && live[u.slot].id == id))
  }

  lemma {:induction false} ContinuedFrom(d: Draft, us: seq<Upload>, keys: map<Id, Key>, maxBytes: int)
    requires UploadIds(us) <= keys.Keys && StoreAll(d, us, keys, maxBytes).Some? && d.continued == {}
    ensures forall id :: id in StoreAll(d, us, keys, maxBytes).value.continued ==> FromUploads(id, d.t.live, us)
    ensures forall s :: s in StoreAll(d, us, keys, maxBytes).value.t.live ==>
              var row := StoreAll(d, us, keys, maxBytes).value.t.live[s];
              (s in d.t.live && d.t.live[s] == row) || FromUploads(row.id, d.t.live, us)
  {
    if us != [] {
      var n := |us| - 1;
      var u := us[n];
      assert us == us[..n] + [u];
      ContinuedFrom(d, us[..n], keys, maxBytes);
      var b := StoreAll(d, us[..n], keys, maxBytes).value;
      forall id | FromUploads(id, d.t.live, us[..n]) ensures FromUploads(id, d.t.live, us) {
        var w :| w in us[..n] && (w.id == id || (w.slot in d.t.live && d.t.live[w.slot].id == id));
        assert w in us;
      }
      assert u in us;
    }
  }

  // ---- The round as a whole -------------------------------------------------------------

  function TouchedOf(d: Disk, rq: Request): set<Slot> { Touched(AcceptedOf(d, rq), rq.deletions) }

  lemma DraftSame(d: Disk, rq: Request, keys: map<Id, Key>, e: Draft)
    requires Sound(d) && FreshKeys(d, rq.uploads, keys) && DraftOf(d, rq, keys, e)
    requires UploadIds(AcceptedOf(d, rq)) <= keys.Keys && Sound(WrittenDisk(d, rq, keys))
    ensures SameOutside(d.t, e.t, TouchedOf(d, rq))
  {
    var us := AcceptedOf(d, rq);
    var start := Start(BaseOf(d, rq, keys), d.t.account.value);
    var deleted := DeleteAll(start, rq.deletions);
    CanPlan(d, rq, keys);
    assert DraftSound(start);
    DeleteAllSound(start, rq.deletions);
    DeleteAllTotals(start, rq.deletions);
    DeleteAllEffect(start, rq.deletions);
    assert SameOutside(d.t, deleted.t, TouchedOf(d, rq)) by { DeletedSame(d, rq, keys); }
    StoreAllSame(deleted, us, keys, MaxBytes(d.t.account.value, rq), TouchedOf(d, rq));
    SameTrans(d.t, deleted.t, e.t, TouchedOf(d, rq));
  }

  lemma DraftContinued(d: Disk, rq: Request, keys: map<Id, Key>, e: Draft)
    requires d.t.account.Some? && FreshKeys(d, rq.uploads, keys) && DraftOf(d, rq, keys, e)
    requires UploadIds(AcceptedOf(d, rq)) <= keys.Keys
    ensures forall id :: id in e.continued ==> FromUploads(id, d.t.live, AcceptedOf(d, rq))
  {
    var us := AcceptedOf(d, rq);
    var start := Start(BaseOf(d, rq, keys), d.t.account.value);
    var deleted := DeleteAll(start, rq.deletions);
    DeleteAllTotals(start, rq.deletions);
    DeleteAllEffect(start, rq.deletions);
    ContinuedFrom(deleted, us, keys, MaxBytes(d.t.account.value, rq));
    forall id | id in e.continued ensures FromUploads(id, d.t.live, us) {
      var u :| u in us && (u.id == id || (u.slot in deleted.t.live && deleted.t.live[u.slot].id == id));
    }
  }

  lemma DeletedSame(d: Disk, rq: Request, keys: map<Id, Key>)
    requires d.t.account.Some? && UploadIds(AcceptedOf(d, rq)) <= keys.Keys
    ensures SameOutside(d.t, DeleteAll(Start(BaseOf(d, rq, keys), d.t.account.value), rq.deletions).t, TouchedOf(d, rq))
  {
    var start := Start(BaseOf(d, rq, keys), d.t.account.value);
    DeleteAllEffect(start, rq.deletions);
    assert Removed(start.t, rq.deletions) <= DeletionSlots(rq.deletions);
  }

  lemma CommitSame(d: Disk, rq: Request, keys: map<Id, Key>, e: Draft, clock: int)
    requires Sound(d) && FreshKeys(d, rq.uploads, keys) && DraftOf(d, rq, keys, e)
    requires UploadIds(AcceptedOf(d, rq)) <= keys.Keys && Sound(WrittenDisk(d, rq, keys))
    ensures SameOutside(d.t, CommitDisk(d, rq, keys, e, clock).t, TouchedOf(d, rq))
  {
    DraftSame(d, rq, keys, e);
  }

  lemma PurgeSame(c: Disk, slots: set<Slot>, touched: set<Slot>)
    requires slots <= touched
    ensures SameOutside(c.t, Purge(c, slots).t, touched)
  {
    DropSame(c, DeletedVersions(c.t, slots), touched);
  }

  lemma ContinuedTouched(d: Disk, rq: Request, h: nat)
    requires IdsAtHome(d, AcceptedOf(d, rq)) && h in d.t.history
    requires FromUploads(d.t.history[h].id, d.t.live, AcceptedOf(d, rq))
    ensures d.t.history[h].slot in TouchedOf(d, rq)
  {
    var id := d.t.history[h].id;
    var u :| u in AcceptedOf(d, rq) && (u.id == id || (u.slot in d.t.live && d.t.live[u.slot].id == id));
    assert u.slot in UploadSlots(AcceptedOf(d, rq));
  }

  lemma PruneSame(d: Disk, rq: Request, p: Disk, continued: set<Id>, window: nat)
    requires SameOutside(d.t, p.t, TouchedOf(d, rq)) && IdsAtHome(d, AcceptedOf(d, rq))
    requires forall id :: id in continued ==> FromUploads(id, d.t.live, AcceptedOf(d, rq))
    ensures SameOutside(p.t, Prune(p, TouchedOf(d, rq), continued, window).t, TouchedOf(d, rq))
  {
    var gone := Expired(p.t, TouchedOf(d, rq), continued, window);
    forall h | h in gone && h in p.t.history ensures p.t.history[h].slot in TouchedOf(d, rq) {
      if h in d.t.history && d.t.history[h] == p.t.history[h] && p.t.history[h].id in continued {
        ContinuedTouched(d, rq, h);
      }
    }
    DropSame(p, gone, TouchedOf(d, rq));
  }

  lemma ClearedSame(d: Disk, rq: Request, keys: map<Id, Key>, e: Draft, clock: int, window: nat)
    requires Sound(d) && FreshKeys(d, rq.uploads, keys) && DraftOf(d, rq, keys, e)
    requires UploadIds(AcceptedOf(d, rq)) <= keys.Keys && Sound(WrittenDisk(d, rq, keys))
    requires IdsAtHome(d, AcceptedOf(d, rq))
    ensures SameOutside(d.t, ClearedDisk(d, rq, keys, e, clock, window).t, TouchedOf(d, rq))
  {
    var c := CommitDisk(d, rq, keys, e, clock);
    var removed := Removed(d.t, rq.deletions);
    assert removed <= TouchedOf(d, rq);
    CommitSame(d, rq, keys, e, clock);
    DraftContinued(d, rq, keys, e);
    PurgeSame(c, removed, TouchedOf(d, rq));
    SameTrans(d.t, c.t, Purge(c, removed).t, TouchedOf(d, rq));
    PruneSame(d, rq, Purge(c, removed), e.continued, window);
    SameTrans(d.t, Purge(c, removed).t, ClearedDisk(d, rq, keys, e, clock, window).t, TouchedOf(d, rq));
  }

  /** The records a round names but does not touch: every upload to them was already held. */
  function Untouched(d: Disk, rq: Request): set<Slot> { Touched(rq.uploads, rq.deletions) - TouchedOf(d, rq) }

  /** Counted from one usage, the true ones differ by what happened to the versions of the
      records touched. */
  lemma UsageMoves(kept: Usage, before: Tables, after: Tables, slots: set<Slot>)
    requires SameOutside(before, after, slots)
    ensures Minus(kept, TrueUsage(after))
         == Minus(Plus(Minus(kept, TrueUsage(before)), UsageIn(before, slots)), UsageIn(after, slots))
  {
    SameOlder(before, after, slots);
    UsageSplit(before, slots);
    UsageSplit(after, slots);
    UnsavedUsage(kept, TrueUsage(before), TrueUsage(after), UsageIn(before, slots), UsageIn(after, slots),
                 UsageOf(before, OlderOut(before, slots)));
  }

  /** Until a round saves the usage, the kept one misses just that. */
  lemma DriftUnsaved(before: Tables, after: Tables, slots: set<Slot>)
    requires SameOutside(before, after, slots) && after.usage == before.usage
    ensures Drift(after) == Minus(Plus(Drift(before), UsageIn(before, slots)), UsageIn(after, slots))
  {
    UsageMoves(before.usage, before, after, slots);
  }

  /** What a round makes of the usage moves as the true one, but for what it read of untouched records. */
  lemma UsageAfterDrift(d: Disk, rq: Request, q: Tables)
    requires SameOutside(d.t, q, TouchedOf(d, rq))
    ensures Minus(UsageAfter(d.t, rq, AcceptedOf(d, rq), q), TrueUsage(q))
         == Minus(Drift(d.t), UsageIn(d.t, Untouched(d, rq)))
  {
    TouchedIsNamed(d, rq);
    SettledUsage(d.t, q, TouchedOf(d, rq), Touched(rq.uploads, rq.deletions));
  }

  lemma TouchedIsNamed(d: Disk, rq: Request)
    ensures TouchedOf(d, rq) <= Touched(rq.uploads, rq.deletions)
  {
    AcceptedAreNew(rq.uploads, LiveIds(d.t.live));
  }

  lemma SettledUsage(t: Tables, after: Tables, touched: set<Slot>, named: set<Slot>)
    requires SameOutside(t, after, touched) && touched <= named
    ensures Minus(Minus(Plus(t.usage, UsageIn(after, touched)), UsageIn(t, named)), TrueUsage(after))
         == Minus(Drift(t), UsageIn(t, named - touched))
  {
    UsageMoves(t.usage, t, after, touched);
    UsageNested(t, touched, named);
    SavedUsage(t.usage, TrueUsage(t), UsageIn(t, named), UsageIn(t, touched), UsageIn(t, named - touched),
               UsageIn(after, touched), TrueUsage(after));
  }

  lemma UnsavedUsage(kept: Usage, whole: Usage, whole': Usage, part: Usage, part': Usage, rest: Usage)
    requires whole == Plus(part, rest) && whole' == Plus(part', rest)
    ensures Minus(kept, whole') == Minus(Plus(Minus(kept, whole), part), part')
  {
  }

  lemma SavedUsage(kept: Usage, whole: Usage, named: Usage, touched: Usage, rest: Usage, touched': Usage, whole': Usage)
    requires named == Plus(touched, rest) && Minus(kept, whole') == Minus(Plus(Minus(kept, whole), touched), touched')
    ensures Minus(Minus(Plus(kept, touched'), named), whole') == Minus(Minus(kept, whole), rest)
  {
  }

  // ---- Eviction ---------------------------------------------------------------------------

  lemma EvictedOlder(q: Disk, usage: Usage, room: int)
    ensures Evicted(q.t, usage, room) <= OlderAll(q.t)
    ensures OlderAll(Evict(q, usage, room).t) == OlderAll(q.t) - Evicted(q.t, usage, room)
  {
    EvictedAreOlder(q.t, usage, room);
  }

  lemma EvictUsage(q: Disk, usage: Usage, room: int)
    ensures Drift(Evict(q, usage, room).t) == Minus(usage, TrueUsage(q.t))
  {
    var gone := Evicted(q.t, usage, room);
    EvictedOlder(q, usage, room);
    DropUsage(q.t, usage, gone, Evict(q, usage, room).t);
  }

  lemma DropUsage(t: Tables, usage: Usage, gone: set<nat>, after: Tables)
    requires gone <= OlderAll(t) && OlderAll(after) == OlderAll(t) - gone
    requires after.history == t.history - gone && after.usage == Minus(usage, UsageOf(t, gone))
    ensures Drift(after) == Minus(usage, TrueUsage(t))
  {
    EvictionExact(t, after, gone);
    EvictedUsage(usage, TrueUsage(t), UsageOf(t, gone), TrueUsage(after));
  }

  lemma EvictedUsage(usage: Usage, whole: Usage, gone: Usage, left: Usage)
    requires whole == Plus(gone, left)
    ensures Minus(Minus(usage, gone), left) == Minus(usage, whole)
  {
  }

  lemma EvictionExact(t: Tables, after: Tables, gone: set<nat>)
    requires gone <= OlderAll(t) && OlderAll(after) == OlderAll(t) - gone
    requires forall h :: h in OlderAll(after) ==>
        h in t.history && h in after.history && t.history[h].bytes == after.history[h].bytes
    ensures TrueUsage(t) == Plus(UsageOf(t, gone), TrueUsage(after))
  {
    var left := OlderAll(after);
    assert OlderAll(t) == gone + left;
    UsageUnion(t, gone, left, OlderAll(t));
    VersionBytesSame(t, after, left);
  }

  ghost function LeftOf(t: Tables, usage: Usage, gone: set<nat>): Usage {
    Usage(usage.versions - |gone|, usage.bytes - VersionBytes(t, gone))
  }

  lemma LeftStep(t: Tables, usage: Usage, h: nat, more: set<nat>)
    requires h in t.history && h !in more
    ensures LeftOf(t, usage, more + {h})
            == LeftOf(t, Usage(usage.versions - 1, usage.bytes - t.history[h].bytes), more)
  {
    VersionBytesAdd(t, more, h);
  }

  lemma FirstAndRest(ids: seq<nat>, n: nat)
    requires n < |ids| && forall j, k :: 0 <= j < k < |ids| ==> ids[j] < ids[k]
    ensures SetOf(ids[..n + 1]) == SetOf(ids[1..][..n]) + {ids[0]} && ids[0] !in SetOf(ids[1..][..n])
  {
    assert ids[..n + 1] == [ids[0]] + ids[1..][..n];
  }

  /** Evicting the first `n` is as far as it goes: the rest fits, or nothing is left. */
  ghost predicate StopsAt(ids: seq<nat>, t: Tables, usage: Usage, room: int, n: nat) {
    n <= |ids| && (n < |ids| ==> UsageBytes(LeftOf(t, usage, SetOf(ids[..n]))) <= room)
  }

  lemma StopsLater(ids: seq<nat>, t: Tables, usage: Usage, room: int, n: nat)
    requires ids != [] && ids[0] in t.history && forall j, k :: 0 <= j < k < |ids| ==> ids[j] < ids[k]
    requires StopsAt(ids[1..], t, Usage(usage.versions - 1, usage.bytes - t.history[ids[0]].bytes), room, n)
    ensures StopsAt(ids, t, usage, room, n + 1)
  {
    if n + 1 < |ids| {
      FirstAndRest(ids, n);
      LeftStep(t, usage, ids[0], SetOf(ids[1..][..n]));
    }
  }

  lemma StopsNow(ids: seq<nat>, t: Tables, usage: Usage, room: int)
    requires ids == [] || UsageBytes(usage) <= room
    ensures StopsAt(ids, t, usage, room, 0)
  {
    NoBytes(t);
    assert SetOf(ids[..0]) == {};
  }

  lemma {:induction false} EvictStops(ids: seq<nat>, t: Tables, usage: Usage, room: int)
    requires forall h :: h in ids ==> h in t.history
    requires forall j, k :: 0 <= j < k < |ids| ==> ids[j] < ids[k]
    ensures StopsAt(ids, t, usage, room, EvictCount(ids, t.history, usage, room))
  {
    if ids == [] || UsageBytes(usage) <= room {
      StopsNow(ids, t, usage, room);
    } else {
      var rest := Usage(usage.versions - 1, usage.bytes - t.history[ids[0]].bytes);
      EvictStops(ids[1..], t, rest, room);
      var n := EvictCount(ids[1..], t.history, rest, room);
      assert EvictCount(ids, t.history, usage, room) == n + 1;
      StopsLater(ids, t, usage, room, n);
    }
  }

  lemma EvictedLeaves(t: Tables, usage: Usage, room: int)
    requires UsageBytes(usage) > room && usage.versions > 0
    ensures UsageBytes(LeftOf(t, usage, Evicted(t, usage, room))) <= room || Evicted(t, usage, room) == OlderAll(t)
  {
    var ids := Ascending(OlderAll(t));
    AscendingSpec(OlderAll(t));
    AscendingSet(OlderAll(t));
    EvictStops(ids, t, usage, room);
    assert ids[..|ids|] == ids;
  }

  /** With exact usage, eviction ends with everything in the quota or nothing left to evict. */
  lemma EvictFits(q: Disk, usage: Usage, room: int)
    requires usage == TrueUsage(q.t)
    ensures var r := Evict(q, usage, room);
            UsageBytes(r.t.usage) <= room || OlderAll(r.t) == {}
  {
    EvictedOlder(q, usage, room);
    if UsageBytes(usage) > room && usage.versions > 0 {
      EvictedLeaves(q.t, usage, room);
    } else {
      NoBytes(q.t);
      assert Evicted(q.t, usage, room) == {};
    }
  }
}
