/** Clearing away keeps the storage sound, never takes a live version's object and leaves no
    object unnamed, after every single storage call. */
module RelayCleanupProofs {
  import opened Collections
  import opened RelayTables
  import opened RelayCleanup

  /** No live record's newest version is among the rows to go. */
  ghost predicate SparesLive(t: Tables, gone: set<nat>) {
    forall s, h :: s in t.live && NewestVersion(t, s, h) ==> h !in gone
  }

  /** Deleting objects that no live row names. */
  lemma DropObjects(d: Disk, part: set<Key>)
    requires Sound(d) && part !! LiveKeys(d.t.live)
    ensures Sound(Disk(d.t, d.bucket - part))
  {
    forall s | s in d.t.live ensures d.t.live[s].key !in part {
      assert d.t.live[s].key in LiveKeys(d.t.live);
    }
  }

  lemma DropRowsKeys(t: Tables, gone: set<nat>)
    ensures var after := t.(history := t.history - gone);
            && Claims(after) <= Claims(t) && RowKeys(after) <= RowKeys(t)
            && (forall k :: k in RowKeys(t) && k !in RowKeys(after) ==> k in Loose(t, gone))
  {
    var after := t.(history := t.history - gone);
    assert HistoryKeys(after.history) <= HistoryKeys(t.history);
    assert HistoryClaims(after.history) <= HistoryClaims(t.history);
    forall h | h in t.history && h !in gone ensures t.history[h].key in HistoryKeys(after.history) {
      assert after.history[h] == t.history[h];
    }
  }

  lemma DropRowsVersions(t: Tables, gone: set<nat>)
    requires LiveVersionsKept(t) && SparesLive(t, gone)
    ensures LiveVersionsKept(t.(history := t.history - gone))
  {
    var after := t.(history := t.history - gone);
    forall s | s in after.live ensures LiveVersionKept(after, s) {
      assert LiveVersionKept(t, s);
      if HasVersionOf(after.history, after.live[s].id) {
        var g :| g in after.history && after.history[g].id == after.live[s].id;
        assert g in t.history && t.history[g].id == t.live[s].id;
        var h :| NewestVersion(t, s, h);
        assert NewestVersion(after, s, h);
      }
    }
  }

  /** The rows go once the objects only they name are gone. */
  lemma DropRowsSound(d: Disk, gone: set<nat>)
    requires Sound(d) && SparesLive(d.t, gone)
    ensures Sound(Disk(d.t.(history := d.t.history - gone), d.bucket))
    ensures AllNamed(d) && d.bucket.Keys !! Loose(d.t, gone)
            ==> AllNamed(Disk(d.t.(history := d.t.history - gone), d.bucket))
  {
    DropRowsKeys(d.t, gone);
    DropRowsVersions(d.t, gone);
  }

  lemma LooseApart(t: Tables, gone: set<nat>)
    ensures Loose(t, gone) !! LiveKeys(t.live)
  {
  }

  lemma DropHistorySound(d: Disk, gone: set<nat>)
    requires Sound(d) && SparesLive(d.t, gone)
    ensures Sound(DropHistory(d, gone))
    ensures AllNamed(d) ==> AllNamed(DropHistory(d, gone))
  {
    LooseApart(d.t, gone);
    DropObjects(d, Loose(d.t, gone));
    DropRowsSound(Disk(d.t, d.bucket - Loose(d.t, gone)), gone);
  }

  lemma DropNothing(d: Disk)
    ensures DropHistory(d, {}) == d
  {
    assert d.t.history - {} == d.t.history;
    assert d.bucket - Loose(d.t, {}) == d.bucket;
  }

  /** Dropping in two chunks is dropping at once: an object goes with the last of its rows. */
  lemma DropInChunks(d: Disk, first: set<nat>, second: set<nat>)
    ensures DropHistory(DropHistory(d, first), second) == DropHistory(d, first + second)
  {
    var mid := DropHistory(d, first);
    assert d.t.history - first - second == d.t.history - (first + second);
    var all := d.t.history - (first + second);
    assert HistoryKeys(all) <= HistoryKeys(d.t.history - first);
    assert Loose(d.t, first) + Loose(mid.t, second) == Loose(d.t, first + second) by {
      forall h | h in d.t.history && h !in first ensures d.t.history[h].key in HistoryKeys(d.t.history - first) {
        assert (d.t.history - first)[h] == d.t.history[h];
      }
      forall h | h in d.t.history && h !in first && h !in second ensures d.t.history[h].key in HistoryKeys(all) {
        assert all[h] == d.t.history[h];
      }
      forall h | h in second && h in d.t.history && h !in first
        ensures mid.t.history[h].key == d.t.history[h].key {}
    }
  }

  // ---- Which rows a round may drop --------------------------------------------

  /** A live record's newest version carries the live id. */
  lemma NewestIsLive(t: Tables, s: Slot, h: nat)
    requires KeysAgree(t) && s in t.live && NewestVersion(t, s, h)
    ensures t.history[h].id == t.live[s].id
  {
    assert (t.live[s].key, s, t.live[s].id) in RowClaims(t.live);
    assert (t.history[h].key, t.history[h].slot, t.history[h].id) in HistoryClaims(t.history);
  }

  lemma OlderSpares(t: Tables, gone: set<nat>)
    requires KeysAgree(t) && gone <= OlderAll(t)
    ensures SparesLive(t, gone)
  {
    forall s, h | s in t.live && NewestVersion(t, s, h) ensures h !in gone {
      NewestIsLive(t, s, h);
    }
  }

  lemma DeletedSpares(t: Tables, slots: set<Slot>)
    ensures SparesLive(t, DeletedVersions(t, slots))
  {
  }

  /** Pruning never takes a live version: it is first in its window, whatever the window. */
  lemma ExpiredSpares(t: Tables, slots: set<Slot>, continued: set<Id>, window: nat)
    requires KeysAgree(t) && window >= 1 && continued !! LiveIds(t.live)
    ensures SparesLive(t, Expired(t, slots, continued, window))
  {
    forall s, h | s in t.live && NewestVersion(t, s, h) ensures h !in Expired(t, slots, continued, window) {
      NewestIsLive(t, s, h);
      assert t.live[s].id in LiveIds(t.live);
      assert NewerKept(t.history, h, continued) == {};
    }
  }

  lemma DropStagedSound(d: Disk, slots: set<Slot>)
    requires Sound(d)
    ensures Sound(DropStagedRows(d, slots))
    ensures AllNamed(d) ==> AllNamed(DropStagedRows(d, slots))
  {
    var part := StagedLoose(d.t, slots);
    DropObjects(d, part);
    DropStagedSoundRows(Disk(d.t, d.bucket - part), slots);
  }

  lemma DropStagedSoundRows(d: Disk, slots: set<Slot>)
    requires Sound(d)
    ensures Sound(Disk(d.t.(staged := d.t.staged - StagedIn(d.t, slots)), d.bucket))
    ensures AllNamed(d) && d.bucket.Keys !! StagedLoose(d.t, slots)
            ==> AllNamed(Disk(d.t.(staged := d.t.staged - StagedIn(d.t, slots)), d.bucket))
  {
    var after := d.t.(staged := d.t.staged - StagedIn(d.t, slots));
    assert LiveKeys(after.staged) <= LiveKeys(d.t.staged);
    assert RowClaims(after.staged) <= RowClaims(d.t.staged);
    VersionsSame(d.t, after);
    forall s | s in d.t.staged && d.t.staged[s].key !in StagedLoose(d.t, slots)
      ensures d.t.staged[s].key in RowKeys(after)
    {
      if s !in slots { assert after.staged[s] == d.t.staged[s]; }
    }
  }

  lemma PurgeSound(d: Disk, slots: set<Slot>)
    requires Sound(d)
    ensures Sound(Purge(d, slots))
    ensures AllNamed(d) ==> AllNamed(Purge(d, slots))
  {
    DeletedSpares(d.t, slots);
    DropHistorySound(d, DeletedVersions(d.t, slots));
    DropStagedSound(DropHistory(d, DeletedVersions(d.t, slots)), slots);
  }

  lemma PruneSound(d: Disk, slots: set<Slot>, continued: set<Id>, window: nat)
    requires Sound(d) && window >= 1 && continued !! LiveIds(d.t.live)
    ensures Sound(Prune(d, slots, continued, window))
    ensures AllNamed(d) ==> AllNamed(Prune(d, slots, continued, window))
  {
    ExpiredSpares(d.t, slots, continued, window);
    DropHistorySound(d, Expired(d.t, slots, continued, window));
  }

  lemma EvictedAreOlder(t: Tables, usage: Usage, room: int)
    ensures Evicted(t, usage, room) <= OlderAll(t)
  {
    AscendingSpec(OlderAll(t));
    var ids := Ascending(OlderAll(t));
    forall h | h in Evicted(t, usage, room) ensures h in OlderAll(t) {
      assert h in ids;
    }
  }

  lemma EvictSound(d: Disk, usage: Usage, room: int)
    requires Sound(d)
    ensures Sound(DropHistory(d, Evicted(d.t, usage, room)))
    ensures AllNamed(d) ==> AllNamed(DropHistory(d, Evicted(d.t, usage, room)))
  {
    EvictedAreOlder(d.t, usage, room);
    OlderSpares(d.t, Evicted(d.t, usage, room));
    DropHistorySound(d, Evicted(d.t, usage, room));
  }

  // ---- Clean-up cut short ----------------------------------------------------

  /** Live records keep their objects' contents. */
  ghost predicate SameContents(before: Disk, after: Disk) {
    forall s :: s in after.t.live && s in before.t.live && after.t.live[s].key == before.t.live[s].key
                && before.t.live[s].key in before.bucket && before.t.live[s].key in after.bucket
                ==> after.bucket[after.t.live[s].key] == before.bucket[before.t.live[s].key]
  }

  /** What any part of the clean-up leaves as it was: a sound disk, no object newly
      unnamed, and the live records, their contents and the account row untouched. */
  ghost predicate Keeps(before: Disk, after: Disk) {
    && Sound(after) && (AllNamed(before) ==> AllNamed(after)) && SameContents(before, after)
    && after.t.live == before.t.live && after.t.account == before.t.account
  }

  lemma KeepsTrans(a: Disk, b: Disk, c: Disk)
    requires Keeps(a, b) && Keeps(b, c)
    ensures Keeps(a, c)
  {
    assert ObjectsPresent(b);
  }

  lemma KeepsItself(d: Disk)
    requires Sound(d)
    ensures Keeps(d, d)
  {
  }

  lemma ObjectsCutShort(d: Disk, done: set<Key>)
    requires Sound(d) && done !! LiveKeys(d.t.live)
    ensures Keeps(d, Disk(d.t, d.bucket - done))
  {
    DropObjects(d, done);
  }

  lemma LooseCutShort(d: Disk, gone: set<nat>, done: set<Key>)
    requires Sound(d) && done <= Loose(d.t, gone)
    ensures Keeps(d, Disk(d.t, d.bucket - done))
  {
    LooseApart(d.t, gone);
    ObjectsCutShort(d, done);
  }

  lemma DropHistoryKeeps(d: Disk, gone: set<nat>)
    requires Sound(d) && SparesLive(d.t, gone)
    ensures Keeps(d, DropHistory(d, gone))
  {
    DropHistorySound(d, gone);
  }

  lemma SparesAfter(d: Disk, chunk: set<nat>, gone: set<nat>)
    requires Sound(d) && SparesLive(d.t, gone) && chunk <= gone
    ensures SparesLive(DropHistory(d, chunk).t, gone)
  {
    var after := DropHistory(d, chunk).t;
    forall s, h | s in after.live && NewestVersion(after, s, h) ensures h !in gone {
      assert (d.t.live[s].key, s, d.t.live[s].id) in RowClaims(d.t.live);
      assert (d.t.history[h].key, d.t.history[h].slot, d.t.history[h].id) in HistoryClaims(d.t.history);
      assert LiveVersionKept(d.t, s);
      var g :| NewestVersion(d.t, s, g);
      assert g in after.history;
    }
  }

  lemma StagedCutShort(d: Disk, slots: set<Slot>, done: set<Key>)
    requires Sound(d) && done <= StagedLoose(d.t, slots)
    ensures Keeps(d, Disk(d.t, d.bucket - done))
  {
    ObjectsCutShort(d, done);
  }

  lemma DropStagedKeeps(d: Disk, slots: set<Slot>)
    requires Sound(d)
    ensures Keeps(d, DropStagedRows(d, slots))
  {
    DropStagedSound(d, slots);
  }

  /** The rows before `i` are gone, chunk after chunk. */
  ghost predicate ChunksDone(d0: Disk, rows: seq<nat>, i: nat, d: Disk)
    requires i <= |rows|
  {
    d == DropHistory(d0, SetOf(rows[..i])) && Keeps(d0, d) && SparesLive(d.t, SetOf(rows))
  }

  lemma NoChunksYet(d: Disk, rows: seq<nat>)
    requires Sound(d) && SparesLive(d.t, SetOf(rows))
    ensures ChunksDone(d, rows, 0, d)
  {
    assert SetOf(rows[..0]) == {};
    DropNothing(d);
  }

  lemma ChunkSpares(d0: Disk, d: Disk, rows: seq<nat>, i: nat, next: nat)
    requires i <= next <= |rows| && ChunksDone(d0, rows, i, d)
    ensures Sound(d) && Keeps(d0, d) && SparesLive(d.t, SetOf(rows[i..next]))
  {
    SetOfSplit(rows, i, next);
  }

  lemma ChunkDone(d0: Disk, d: Disk, rows: seq<nat>, i: nat, next: nat)
    requires i <= next <= |rows| && ChunksDone(d0, rows, i, d)
    requires Keeps(d0, DropHistory(d, SetOf(rows[i..next])))
    ensures ChunksDone(d0, rows, next, DropHistory(d, SetOf(rows[i..next])))
  {
    SetOfSplit(rows, i, next);
    SparesAfter(d, SetOf(rows[i..next]), SetOf(rows));
    DropInChunks(d0, SetOf(rows[..i]), SetOf(rows[i..next]));
  }

  lemma AllChunksDone(d0: Disk, rows: seq<nat>, d: Disk)
    requires ChunksDone(d0, rows, |rows|, d)
    ensures Keeps(d0, d) && d == DropHistory(d0, SetOf(rows))
  {
    assert rows[..|rows|] == rows;
  }
}
