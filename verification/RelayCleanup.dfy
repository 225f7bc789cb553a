/**
 What a round clears away after its commit: the versions of deleted records, versions
 beyond the history window, versions that uploads continued, and the oldest versions of an
 account over its quota. Objects go before the rows that name them.
 */
module RelayCleanup {
  import opened Collections
  import opened RelayTables
  import opened RelayRound

  /** Keys that only the history rows `gone` name. */
  function Loose(t: Tables, gone: set<nat>): set<Key> {
    (set h | h in gone && h in t.history :: t.history[h].key)
      - LiveKeys(t.live) - LiveKeys(t.staged) - HistoryKeys(t.history - gone)
  }

  function DropHistory(d: Disk, gone: set<nat>): Disk {
    Disk(d.t.(history := d.t.history - gone), d.bucket - Loose(d.t, gone))
  }

  // ---- Records deleted for good ---------------------------------------------

  /** History rows of staged records in `slots` that have not been written again. */
  function DeletedVersions(t: Tables, slots: set<Slot>): set<nat> {
    set h | h in t.history && t.history[h].slot in slots && t.history[h].slot in t.staged
            && t.history[h].slot !in t.live
  }

  function StagedIn(t: Tables, slots: set<Slot>): set<Slot> { set s | s in slots && s in t.staged }

  /** Objects of staged copies that no live record or version names. */
  function StagedLoose(t: Tables, slots: set<Slot>): set<Key> {
    set s | s in StagedIn(t, slots) && t.staged[s].key !in LiveKeys(t.live)
            && t.staged[s].key !in HistoryKeys(t.history) :: t.staged[s].key
  }

  function DropStagedRows(d: Disk, slots: set<Slot>): Disk {
    Disk(d.t.(staged := d.t.staged - StagedIn(d.t, slots)), d.bucket - StagedLoose(d.t, slots))
  }

  function Purge(d: Disk, slots: set<Slot>): Disk {
    DropStagedRows(DropHistory(d, DeletedVersions(d.t, slots)), slots)
  }

  // ---- The history window ----------------------------------------------------

  /** Newer versions of the same record, not counting the continued ones. */
  function NewerKept(history: map<nat, Version>, h: nat, continued: set<Id>): set<nat>
    requires h in history
  {
    set g | g in history && g > h && history[g].slot == history[h].slot && history[g].id !in continued
  }

  /** Versions past the window of `window` per touched record, and the continued ones. */
  function Expired(t: Tables, slots: set<Slot>, continued: set<Id>, window: nat): set<nat> {
    if slots == {} then {}
    else
      (set h | h in t.history && t.history[h].slot in slots && t.history[h].id !in continued
               && |NewerKept(t.history, h, continued)| + 1 > window)
      + (set h | h in t.history && t.history[h].id in continued)
  }

  function Prune(d: Disk, slots: set<Slot>, continued: set<Id>, window: nat): Disk {
    DropHistory(d, Expired(d.t, slots, continued, window))
  }

  // ---- Older versions and the quota -------------------------------------------

  /** An older version: its record is live under another id. Only these count as history. */
  predicate Older(t: Tables, h: nat) {
    h in t.history && t.history[h].slot in t.live && t.live[t.history[h].slot].id != t.history[h].id
  }

  function OlderIn(t: Tables, slots: set<Slot>): set<nat> {
    set h | h in t.history && t.history[h].slot in slots && Older(t, h)
  }

  function OlderAll(t: Tables): set<nat> { set h | h in t.history && Older(t, h) }

  function VersionSizes(history: map<nat, Version>): map<nat, nat> { map h | h in history :: history[h].bytes }

  ghost function VersionBytes(t: Tables, ids: set<nat>): nat { Sum(Only(VersionSizes(t.history), ids)) }

  ghost function UsageIn(t: Tables, slots: set<Slot>): Usage {
    Usage(|OlderIn(t, slots)|, VersionBytes(t, OlderIn(t, slots)))
  }

  ghost function TrueUsage(t: Tables): Usage {
    Usage(|OlderAll(t)|, VersionBytes(t, OlderAll(t)))
  }

  function UsageBytes(u: Usage): int { u.bytes + u.versions * STORAGE_OVERHEAD_BYTES }

  /** How many of the oldest versions go before live records and history fit `room`. */
  function EvictCount(ids: seq<nat>, history: map<nat, Version>, usage: Usage, room: int): nat
    requires forall h :: h in ids ==> h in history
  {
    if ids == [] || UsageBytes(usage) <= room then 0
    else 1 + EvictCount(ids[1..], history, Usage(usage.versions - 1, usage.bytes - history[ids[0]].bytes), room)
  }

  lemma {:induction false} EvictCountBound(ids: seq<nat>, history: map<nat, Version>, usage: Usage, room: int)
    requires forall h :: h in ids ==> h in history
    ensures EvictCount(ids, history, usage, room) <= |ids|
  {
    if ids != [] && UsageBytes(usage) > room {
      EvictCountBound(ids[1..], history, Usage(usage.versions - 1, usage.bytes - history[ids[0]].bytes), room);
    }
  }

  /** The versions evicted: the oldest ones, as many as it takes. */
  ghost function Evicted(t: Tables, usage: Usage, room: int): set<nat> {
    AscendingSpec(OlderAll(t));
    var ids := Ascending(OlderAll(t));
    if UsageBytes(usage) > room && usage.versions > 0 then
      EvictCountBound(ids, t.history, usage, room);
      SetOf(ids[..EvictCount(ids, t.history, usage, room)])
    else {}
  }

  /** The usage eviction leaves. */
  ghost function Spare(t: Tables, usage: Usage, room: int): Usage {
    var gone := Evicted(t, usage, room);
    Usage(usage.versions - |gone|, usage.bytes - VersionBytes(t, gone))
  }
}
