/** The running variables of a round's planning loops, tied to the draft they stand for. */
module PlanProofs {
  import opened Wrappers
  import opened Collections
  import opened RelayTables
  import opened RelayRound
  import opened RelayRoundProofs
  import opened RelayCleanup
  import opened StatementProofs

  /** What planning a round comes to: its batch and the counters it would leave. */
  datatype Plan = Plan(batch: seq<Statement>, count: int, bytes: int, seqno: nat, continued: set<Id>,
                       deleted: set<Slot>)

  ghost predicate PlanOf(base: Tables, p: Plan, e: Draft) {
    && ApplyAll(base, p.batch) == Some(e.t) && p.count == e.count && p.bytes == e.bytes
    && p.seqno == e.seqno && p.continued == e.continued && p.deleted == e.deleted
  }

  /** `current` holds the live rows of the round's slots as the statements leave them. */
  ghost predicate Agrees(current: map<Slot, Row>, live: map<Slot, Row>, slots: set<Slot>) {
    forall s :: s in slots ==> (s in current <==> s in live) && (s in live ==> current[s] == live[s])
  }

  ghost predicate Tracks(base: Tables, committed: seq<Statement>, current: map<Slot, Row>, slots: set<Slot>,
                         count: int, bytes: int, d: Draft) {
    && ApplyAll(base, committed) == Some(d.t)
    && Agrees(current, d.t.live, slots)
    && count == d.count && bytes == d.bytes
  }

  lemma TracksStart(base: Tables, a: Account, current: map<Slot, Row>, slots: set<Slot>)
    requires Agrees(current, base.live, slots)
    ensures Tracks(base, [], current, slots, a.envelopeCount, a.ciphertextBytes, Start(base, a))
  {
  }

  lemma TracksDelete(base: Tables, committed: seq<Statement>, current: map<Slot, Row>, slots: set<Slot>,
                     count: int, bytes: int, d: Draft, x: Deletion)
    requires Tracks(base, committed, current, slots, count, bytes, d) && x.slot in slots
    ensures x.slot in current && current[x.slot].id == x.id <==> Matches(d.t, x)
    ensures Matches(d.t, x) ==>
              Tracks(base, committed + DeleteStatements(x.slot, current[x.slot]), current - {x.slot}, slots,
                     count - 1, bytes - current[x.slot].bytes, DeleteOne(d, x))
  {
    if Matches(d.t, x) {
      DeleteApplies(base, committed, x.slot);
    }
  }

  lemma TracksStore(base: Tables, committed: seq<Statement>, current: map<Slot, Row>, slots: set<Slot>,
                    count: int, bytes: int, d: Draft, u: Upload, key: Key)
    requires Tracks(base, committed, current, slots, count, bytes, d) && u.slot in slots
    requires u.id !in LiveIds(d.t.live)
    ensures var prior := if u.slot in current then Some(current[u.slot]) else None;
            var row := Row(d.seqno + 1, u.id, key, |u.ciphertext|);
            Tracks(base, committed + StoreStatements(prior, u, row), current[u.slot := row], slots,
                   ProjectedCount(d, u), ProjectedBytes(d, u), StoreOne(d, u, key))
  {
    StoreApplies(base, committed, u, key, d.seqno + 1);
  }

  /** The draft after the first `i` uploads, if each of them fits the quota. */
  ghost predicate StoredFirst(d: Draft, us: seq<Upload>, keys: map<Id, Key>, maxBytes: int, i: nat, e: Draft)
    requires i <= |us| && UploadIds(us) <= keys.Keys
  {
    UploadIds(us[..i]) <= keys.Keys && StoreAll(d, us[..i], keys, maxBytes) == Some(e)
  }

  lemma UploadIdsPrefix(us: seq<Upload>, i: nat)
    requires i <= |us|
    ensures UploadIds(us[..i]) <= UploadIds(us)
  {
  }

  lemma StoredNext(d: Draft, us: seq<Upload>, keys: map<Id, Key>, maxBytes: int, i: nat, e: Draft)
    requires i < |us| && CanStoreAll(d, us, keys) && StoredFirst(d, us, keys, maxBytes, i, e)
    ensures us[i].id in keys && us[i].id !in LiveIds(e.t.live)
    ensures !OverQuota(e, us[i], maxBytes) ==>
              StoredFirst(d, us, keys, maxBytes, i + 1, StoreOne(e, us[i], keys[us[i].id]))
    ensures OverQuota(e, us[i], maxBytes) ==> StoreAll(d, us, keys, maxBytes).None?
  {
    UploadIdsPrefix(us, i);
    UploadIdsPrefix(us, i + 1);
    assert us[..i + 1][..i] == us[..i];
    assert us[i].id in UploadIds(us);
    StoreAllIds(d, us[..i], keys, maxBytes);
    assert us[i].id !in UploadIds(us[..i]);
    if OverQuota(e, us[i], maxBytes) {
      StaysRefused(d, us, keys, maxBytes, i + 1);
    }
  }

  lemma {:induction false} StaysRefused(d: Draft, us: seq<Upload>, keys: map<Id, Key>, maxBytes: int, i: nat)
    requires i <= |us| && UploadIds(us) <= keys.Keys && UploadIds(us[..i]) <= keys.Keys
    requires StoreAll(d, us[..i], keys, maxBytes).None?
    ensures StoreAll(d, us, keys, maxBytes).None?
    decreases |us|
  {
    if i < |us| {
      var n := |us| - 1;
      UploadIdsPrefix(us, n);
      assert us[..n][..i] == us[..i];
      StaysRefused(d, us[..n], keys, maxBytes, i);
    } else {
      assert us[..i] == us;
    }
  }

  /** The planning loop after `i` uploads. */
  ghost predicate Planning(d: Draft, us: seq<Upload>, keys: map<Id, Key>, maxBytes: int, i: nat, base: Tables,
                           current: map<Slot, Row>, slots: set<Slot>, p: Plan, e: Draft)
    requires i <= |us| && UploadIds(us) <= keys.Keys
  {
    && StoredFirst(d, us, keys, maxBytes, i, e)
    && Tracks(base, p.batch, current, slots, p.count, p.bytes, e)
    && p.seqno == e.seqno && p.continued == e.continued && p.deleted == e.deleted
  }

  lemma PlanningChecks(d: Draft, us: seq<Upload>, keys: map<Id, Key>, maxBytes: int, i: nat, base: Tables,
                       current: map<Slot, Row>, slots: set<Slot>, p: Plan, e: Draft)
    requires i < |us| && CanStoreAll(d, us, keys) && us[i].slot in slots
    requires Planning(d, us, keys, maxBytes, i, base, current, slots, p, e)
    ensures var u := us[i];
            && u.id in keys && p.count == e.count && p.bytes == e.bytes
            && (u.slot in current <==> u.slot in e.t.live)
            && (u.slot in current ==> current[u.slot] == e.t.live[u.slot])
    ensures OverQuota(e, us[i], maxBytes) ==> StoreAll(d, us, keys, maxBytes).None?
  {
    StoredNext(d, us, keys, maxBytes, i, e);
  }

  lemma PlanningNext(d: Draft, us: seq<Upload>, keys: map<Id, Key>, maxBytes: int, i: nat, base: Tables,
                     current: map<Slot, Row>, slots: set<Slot>, p: Plan, e: Draft,
                     current': map<Slot, Row>, p': Plan) returns (e': Draft)
    requires i < |us| && CanStoreAll(d, us, keys) && us[i].slot in slots && us[i].id in keys
    requires Planning(d, us, keys, maxBytes, i, base, current, slots, p, e) && !OverQuota(e, us[i], maxBytes)
    requires var u := us[i];
             var prior := if u.slot in current then Some(current[u.slot]) else None;
             var row := Row(p.seqno + 1, u.id, keys[u.id], |u.ciphertext|);
             && current' == current[u.slot := row]
             && p' == Plan(p.batch + StoreStatements(prior, u, row), ProjectedCount(e, u), ProjectedBytes(e, u),
                           p.seqno + 1,
                           if prior.Some? && u.continues then p.continued + {prior.value.id} else p.continued,
                           p.deleted)
    ensures Planning(d, us, keys, maxBytes, i + 1, base, current', slots, p', e')
  {
    e' := StoreOne(e, us[i], keys[us[i].id]);
    StoredNext(d, us, keys, maxBytes, i, e);
    TracksStore(base, p.batch, current, slots, p.count, p.bytes, e, us[i], keys[us[i].id]);
  }

  lemma StoredLast(d: Draft, us: seq<Upload>, keys: map<Id, Key>, maxBytes: int, e: Draft)
    requires UploadIds(us) <= keys.Keys && StoredFirst(d, us, keys, maxBytes, |us|, e)
    ensures StoreAll(d, us, keys, maxBytes) == Some(e)
  {
    assert us[..|us|] == us;
  }

  lemma PlanningDone(d: Draft, us: seq<Upload>, keys: map<Id, Key>, maxBytes: int, base: Tables,
                     current: map<Slot, Row>, slots: set<Slot>, p: Plan, e: Draft)
    requires UploadIds(us) <= keys.Keys
    requires Planning(d, us, keys, maxBytes, |us|, base, current, slots, p, e)
    ensures StoreAll(d, us, keys, maxBytes) == Some(e) && PlanOf(base, p, e)
  {
    StoredLast(d, us, keys, maxBytes, e);
  }

  lemma StoredNone(d: Draft, us: seq<Upload>, keys: map<Id, Key>, maxBytes: int)
    requires UploadIds(us) <= keys.Keys
    ensures StoredFirst(d, us, keys, maxBytes, 0, d)
  {
    assert us[..0] == [];
  }

  lemma DeletedNext(d: Draft, ds: seq<Deletion>, i: nat)
    requires i < |ds|
    ensures DeleteAll(d, ds[..i + 1]) == DeleteOne(DeleteAll(d, ds[..i]), ds[i])
  {
    assert ds[..i + 1][..i] == ds[..i];
  }

  // ---- Eviction ---------------------------------------------------------------

  /** After evicting the `i` oldest versions, `left` is what remains of `usage`. */
  ghost predicate Evicting(t: Tables, ids: seq<nat>, usage: Usage, room: int, i: nat, left: Usage)
    requires forall h :: h in ids ==> h in t.history
  {
    && i <= |ids|
    && EvictCount(ids, t.history, usage, room) == i + EvictCount(ids[i..], t.history, left, room)
    && left == Usage(usage.versions - |SetOf(ids[..i])|, usage.bytes - VersionBytes(t, SetOf(ids[..i])))
  }

  lemma VersionBytesAdd(t: Tables, ids: set<nat>, h: nat)
    requires h in t.history && h !in ids
    ensures VersionBytes(t, ids + {h}) == VersionBytes(t, ids) + t.history[h].bytes
  {
    var sizes := VersionSizes(t.history);
    assert Only(sizes, ids + {h}) == Only(sizes, ids)[h := t.history[h].bytes];
    SumUpdate(Only(sizes, ids), h, t.history[h].bytes);
  }

  lemma EvictingStart(t: Tables, ids: seq<nat>, usage: Usage, room: int)
    requires forall h :: h in ids ==> h in t.history
    ensures Evicting(t, ids, usage, room, 0, usage)
  {
    assert ids[0..] == ids;
    assert SetOf(ids[..0]) == {};
    assert Only(VersionSizes(t.history), {}) == map[];
  }

  lemma EvictingNext(t: Tables, ids: seq<nat>, usage: Usage, room: int, i: nat, left: Usage)
    requires forall h :: h in ids ==> h in t.history
    requires forall j, k :: 0 <= j < k < |ids| ==> ids[j] < ids[k]
    requires i < |ids| && Evicting(t, ids, usage, room, i, left) && UsageBytes(left) > room
    ensures Evicting(t, ids, usage, room, i + 1,
                     Usage(left.versions - 1, left.bytes - t.history[ids[i]].bytes))
  {
    var h := ids[i];
    assert ids[i..][1..] == ids[i + 1..];
    OneMoreOf(ids, i);
    VersionBytesAdd(t, SetOf(ids[..i]), h);
  }

  lemma OneMoreOf(ids: seq<nat>, i: nat)
    requires i < |ids| && forall j, k :: 0 <= j < k < |ids| ==> ids[j] < ids[k]
    ensures SetOf(ids[..i + 1]) == SetOf(ids[..i]) + {ids[i]} && ids[i] !in SetOf(ids[..i])
  {
    assert ids[..i + 1] == ids[..i] + [ids[i]];
  }

  lemma EvictingDone(t: Tables, ids: seq<nat>, usage: Usage, room: int, i: nat, left: Usage)
    requires ids == Ascending(OlderAll(t)) && UsageBytes(usage) > room && usage.versions > 0
    requires forall h :: h in ids ==> h in t.history
    requires Evicting(t, ids, usage, room, i, left) && (i == |ids| || UsageBytes(left) <= room)
    ensures SetOf(ids[..i]) == Evicted(t, usage, room) && left == Spare(t, usage, room)
  {
  }

  lemma NoBytes(t: Tables)
    ensures VersionBytes(t, {}) == 0
  {
    assert Only(VersionSizes(t.history), {}) == map[];
  }

  lemma PlanningStart(d: Draft, us: seq<Upload>, keys: map<Id, Key>, maxBytes: int, base: Tables,
                      current: map<Slot, Row>, slots: set<Slot>, p: Plan)
    requires UploadIds(us) <= keys.Keys && Tracks(base, p.batch, current, slots, p.count, p.bytes, d)
    requires p.seqno == d.seqno && p.continued == d.continued && p.deleted == d.deleted
    ensures Planning(d, us, keys, maxBytes, 0, base, current, slots, p, d)
  {
    StoredNone(d, us, keys, maxBytes);
  }
}
