/** Which reminders a workspace has shown or dismissed: histories join entry by entry and
    keep each note's latest receipts. */
module ReminderHistory {
  import opened Wrappers
  import opened Sorting

  const RECEIPTS_PER_NOTE := 4

  datatype Entry = Entry(id: nat, noteId: nat, firedAt: int, dismissedAt: Option<int>)

  type History = map<nat, Entry>

  function Earliest(left: Option<int>, right: Option<int>): Option<int> {
    if left.None? then right
    else if right.None? then left
    else Some(if left.value <= right.value then left.value else right.value)
  }

  function MergeEntries(left: Entry, right: Entry): Entry {
    Entry(left.id, left.noteId, if left.firedAt <= right.firedAt then left.firedAt else right.firedAt,
          Earliest(left.dismissedAt, right.dismissedAt))
  }

  predicate Dead(tombstones: map<nat, int>, noteId: nat) {
    noteId in tombstones && tombstones[noteId] > 0
  }

  function Join(a: History, b: History): History {
    map i | i in a.Keys + b.Keys ::
      if i in a && i in b then MergeEntries(a[i], b[i]) else if i in a then a[i] else b[i]
  }

  function Living(a: History, tombstones: map<nat, int>): History {
    map i | i in a && !Dead(tombstones, a[i].noteId) :: a[i]
  }

  /** The order in which a note's receipts are kept: latest first, then by id. */
  predicate Before(x: Entry, y: Entry) {
    x.firedAt > y.firedAt || (x.firedAt == y.firedAt && x.id < y.id)
  }

  function Ahead(a: History, e: Entry): set<nat> {
    set i | i in a && a[i].noteId == e.noteId && Before(a[i], e)
  }

  function Latest(a: History): History {
    map i | i in a && |Ahead(a, a[i])| < RECEIPTS_PER_NOTE :: a[i]
  }

  /** What a merge leaves of two histories. */
  function Merge(local: History, remote: History, tombstones: map<nat, int>): History {
    Latest(Join(Living(local, tombstones), Living(remote, tombstones)))
  }

  // ---------------------------------------------------------------- lists of entries

  function Entered(a: History, e: Entry): History {
    a[e.id := if e.id in a then MergeEntries(a[e.id], e) else e]
  }

  /** The history that a list of entries spells. */
  function Spelled(entries: seq<Entry>): History {
    if entries == [] then map[]
    else Entered(Spelled(entries[..|entries| - 1]), entries[|entries| - 1])
  }

  function Alive(entries: seq<Entry>, tombstones: map<nat, int>): seq<Entry> {
    if entries == [] then []
    else
      var e := entries[|entries| - 1];
      Alive(entries[..|entries| - 1], tombstones) + if Dead(tombstones, e.noteId) then [] else [e]
  }

  /** A list that spells its history plainly: each entry once, ids ascending. */
  ghost predicate Lists(entries: seq<Entry>, a: History) {
    && (forall i, j :: 0 <= i < j < |entries| ==> entries[i].id < entries[j].id)
    && (forall e :: e in entries ==> e.id in a && a[e.id] == e)
    && (forall i :: i in a ==> a[i] in entries)
  }

  method MergeReminderHistory(local: seq<Entry>, remote: seq<Entry>, tombstones: map<nat, int>)
    returns (merged: seq<Entry>)
    ensures Lists(merged, Latest(Spelled(Alive(local + remote, tombstones))))
  {
    var byId := EnterAll(local + remote, tombstones);
    SpelledKeyed(Alive(local + remote, tombstones));
    var byNote := GroupByNote(byId);
    var kept := KeepLatest(byId, byNote);
    merged := Sort(kept, (x: Entry, y: Entry) => x.id < y.id);
  }

  /** Every entry is filed under its own id. */
  ghost predicate Keyed(a: History) {
    forall i :: i in a ==> a[i].id == i
  }

  lemma {:induction false} SpelledKeyed(entries: seq<Entry>)
    ensures Keyed(Spelled(entries))
  {
    if entries != [] { SpelledKeyed(entries[..|entries| - 1]); }
  }

  method EnterAll(entries: seq<Entry>, tombstones: map<nat, int>) returns (byId: History)
    ensures byId == Spelled(Alive(entries, tombstones))
  {
    byId := map[];
    for n := 0 to |entries|
      invariant byId == Spelled(Alive(entries[..n], tombstones))
    {
      var e := entries[n];
      AliveNext(entries[..n], e, tombstones);
      assert entries[..n + 1] == entries[..n] + [e];
      if !Dead(tombstones, e.noteId) {
        byId := byId[e.id := if e.id in byId then MergeEntries(byId[e.id], e) else e];
      }
    }
    assert entries[..|entries|] == entries;
  }

  /** One entry more: entered if its note lives, passed over if not. */
  lemma AliveNext(entries: seq<Entry>, e: Entry, tombstones: map<nat, int>)
    ensures Spelled(Alive(entries + [e], tombstones)) ==
      if Dead(tombstones, e.noteId) then Spelled(Alive(entries, tombstones))
          else Entered(Spelled(Alive(entries, tombstones)), e)
  {
    var alive := Alive(entries, tombstones);
    assert (entries + [e])[..|entries|] == entries;
    if Dead(tombstones, e.noteId) {
      assert Alive(entries + [e], tombstones) == alive;
    } else {
      assert Alive(entries + [e], tombstones) == alive + [e];
      assert (alive + [e])[..|alive|] == alive;
    }
  }

  /** One list per note: the note's entries with ids in `seen`, each once. */
  ghost predicate Groups(byNote: map<nat, seq<Entry>>, byId: History, seen: set<nat>) {
    && (forall n :: n in byNote ==> byNote[n] != [] && Distinct(byNote[n]))
    && (forall n, e :: n in byNote && e in byNote[n] ==>
      e.id in seen && e.id in byId && byId[e.id] == e && e.noteId == n)
    && (forall i :: i in seen && i in byId ==> byId[i].noteId in byNote && byId[i] in byNote[byId[i].noteId])
  }

  method GroupByNote(byId: History) returns (byNote: map<nat, seq<Entry>>)
    requires Keyed(byId)
    ensures Groups(byNote, byId, byId.Keys)
  {
    byNote := map[];
    var rest := byId.Keys;
    while rest != {}
      invariant rest <= byId.Keys && Groups(byNote, byId, byId.Keys - rest)
      decreases |rest|
    {
      var i :| i in rest;
      var e := byId[i];
      var listed := if e.noteId in byNote then byNote[e.noteId] else [];
      byNote := byNote[e.noteId := listed + [e]];
      rest := rest - {i};
    }
  }

  /** The place of an entry in its note's ordered list is how many are ahead of it. */
  lemma PlaceIsAhead(byId: History, listed: seq<Entry>, k: nat)
    requires k < |listed| && Keyed(byId) && Distinct(listed) && Ordered(listed, Before)
    requires forall e :: e in listed <==> e.id in byId && byId[e.id] == e && e.noteId == listed[k].noteId
    ensures |Ahead(byId, listed[k])| == k
  {
    var ids := set e | e in listed[..k] :: e.id;
    forall i ensures i in ids <==> i in Ahead(byId, listed[k]) {
      if i in Ahead(byId, listed[k]) {
        var j :| 0 <= j < |listed| && listed[j] == byId[i];
        assert j < k;
        assert byId[i] in listed[..k];
      }
    }
    assert ids == Ahead(byId, listed[k]);
    CountIds(listed[..k]);
  }

  lemma {:induction false} CountIds(listed: seq<Entry>)
    requires forall i, j :: 0 <= i < j < |listed| ==> listed[i].id != listed[j].id
    ensures |set e | e in listed :: e.id| == |listed|
  {
    if listed != [] {
      var init, last := listed[..|listed| - 1], listed[|listed| - 1];
      CountIds(init);
      assert (set e | e in listed :: e.id) == (set e | e in init :: e.id) + {last.id};
      assert last.id !in (set e | e in init :: e.id);
    }
  }

  method KeepLatest(byId: History, byNote: map<nat, seq<Entry>>) returns (kept: seq<Entry>)
    requires Keyed(byId) && Groups(byNote, byId, byId.Keys)
    ensures Distinct(kept)
    ensures forall e :: e in kept <==> e.id in Latest(byId) && Latest(byId)[e.id] == e
  {
    kept := [];
    var rest := byNote.Keys;
    while rest != {}
      invariant rest <= byNote.Keys && Distinct(kept)
      invariant forall e :: e in kept <==> e.id in Latest(byId) && byId[e.id] == e && e.noteId !in rest
      decreases |rest|
    {
      var n :| n in rest;
      var top := TopOfNote(byId, byNote[n]);
      kept := kept + top;
      rest := rest - {n};
    }
  }

  method TopOfNote(byId: History, entries: seq<Entry>) returns (top: seq<Entry>)
    requires Keyed(byId) && Distinct(entries) && entries != []
    requires forall e :: e in entries <==> e.id in byId && byId[e.id] == e && e.noteId == entries[0].noteId
    ensures Distinct(top)
    ensures forall e :: e in top <==> e.id in Latest(byId) && byId[e.id] == e && e.noteId == entries[0].noteId
  {
    var sorted := Sort(entries, Before);
    top := if |sorted| <= RECEIPTS_PER_NOTE then sorted else sorted[..RECEIPTS_PER_NOTE];
    forall k | 0 <= k < |sorted| ensures |Ahead(byId, sorted[k])| == k {
      assert sorted[k] in entries;
      PlaceIsAhead(byId, sorted, k);
    }
  }

  function OfNote(a: History, noteId: nat): History {
    map i | i in a && a[i].noteId == noteId :: a[i]
  }

  function Picked(entries: seq<Entry>, noteId: nat): seq<Entry> {
    if entries == [] then []
    else
      var e := entries[|entries| - 1];
      Picked(entries[..|entries| - 1], noteId) + if e.noteId == noteId then [e] else []
  }

  /** One note's receipts, as its relay row carries them. */
  method NoteReceiptEntries(entries: seq<Entry>, noteId: nat) returns (receipts: seq<Entry>)
    ensures Lists(receipts, Latest(Spelled(Picked(entries, noteId))))
  {
    var picked := [];
    for n := 0 to |entries|
      invariant picked == Picked(entries[..n], noteId)
    {
      assert entries[..n + 1][..n] == entries[..n];
      if entries[n].noteId == noteId { picked := picked + [entries[n]]; }
    }
    assert entries[..|entries|] == entries;
    receipts := MergeReminderHistory(picked, [], map[]);
    AllAlive(picked);
    assert picked + [] == picked;
  }

  lemma {:induction false} AllAlive(entries: seq<Entry>)
    ensures Alive(entries, map[]) == entries
  {
    if entries != [] {
      AllAlive(entries[..|entries| - 1]);
    }
  }
}
