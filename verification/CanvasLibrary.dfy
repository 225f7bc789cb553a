/** The shape library: the newest version of an item wins, and a delete wins over every
    version it saw. */
module CanvasLibrary {
  import opened Tombstones

  /** `content` stands for an item's stable text, compared as text. */
  datatype Entry = Entry(id: nat, updatedAt: int, content: nat)

  type Library = map<nat, Entry>

  predicate IsAlive(e: Entry, tombstones: Deletions) {
    e.updatedAt > DeletedAt(tombstones, e.id)
  }

  function Newer(left: Entry, right: Entry): Entry {
    if left.updatedAt != right.updatedAt then (if left.updatedAt > right.updatedAt then left else right)
    else if left.content >= right.content then left
    else right
  }

  /** `x` is no later version than `y`. */
  predicate AtMost(x: Entry, y: Entry) {
    x.updatedAt < y.updatedAt || (x.updatedAt == y.updatedAt && x.content <= y.content)
  }

  /** The library keeps, of every id, the greatest version among `entries` that its
      tombstone leaves alive, and nothing else. */
  ghost predicate KeepsGreatest(lib: Library, entries: set<Entry>, tombstones: Deletions) {
    && (forall id :: id in lib ==> lib[id] in entries && lib[id].id == id && IsAlive(lib[id], tombstones))
    && (forall e :: e in entries && IsAlive(e, tombstones) ==> e.id in lib && AtMost(e, lib[e.id]))
  }

  /** The merged entries, in the order in which their ids were first met. */
  method MergeCanvasLibrary(local: seq<Entry>, remote: seq<Entry>, tombstones: Deletions)
    returns (merged: seq<Entry>, ghost lib: Library)
    ensures KeepsGreatest(lib, (set e | e in local + remote), tombstones)
    ensures forall e :: e in merged <==> e.id in lib && lib[e.id] == e
    ensures forall i, j :: 0 <= i < j < |merged| ==> merged[i].id != merged[j].id
  {
    var all := local + remote;
    var byId: Library, order := map[], [];
    for n := 0 to |all|
      invariant forall e :: e in all[..n] ==> e.id in byId && AtMost(e, byId[e.id])
      invariant forall id :: id in byId <==> id in order
      invariant forall id :: id in byId ==> byId[id] in all[..n] && byId[id].id == id
      invariant forall i, j :: 0 <= i < j < |order| ==> order[i] != order[j]
    {
      var e := all[n];
      assert all[..n + 1] == all[..n] + [e];
      if e.id in byId {
        byId := byId[e.id := Newer(byId[e.id], e)];
      } else {
        byId, order := byId[e.id := e], order + [e.id];
      }
    }
    assert all[..|all|] == all;
    merged := [];
    for n := 0 to |order|
      invariant forall e :: e in merged <==> e.id in order[..n] && byId[e.id] == e && IsAlive(e, tombstones)
      invariant forall i, j :: 0 <= i < j < |merged| ==> merged[i].id != merged[j].id
    {
      assert order[..n + 1] == order[..n] + [order[n]];
      if IsAlive(byId[order[n]], tombstones) { merged := merged + [byId[order[n]]]; }
    }
    assert order[..|order|] == order;
    lib := map id | id in byId && IsAlive(byId[id], tombstones) :: byId[id];
  }

  lemma GreatestIsUnique(lib: Library, other: Library, entries: set<Entry>, tombstones: Deletions)
    requires KeepsGreatest(lib, entries, tombstones) && KeepsGreatest(other, entries, tombstones)
    ensures lib == other
  {
    forall id | id in lib ensures id in other && lib[id] == other[id] {
      assert lib[id] in entries && AtMost(lib[id], other[id]);
      assert other[id] in entries && AtMost(other[id], lib[id]);
    }
    forall id | id in other ensures id in lib {
      assert other[id] in entries;
    }
  }

  ghost predicate Outgrows(later: Deletions, earlier: Deletions) {
    forall id: nat :: DeletedAt(earlier, id) <= DeletedAt(later, id)
  }

  /** How a device came by its library: some entries it was handed, or a merge of two. */
  datatype Learned = Handed(entries: set<Entry>) | Merged(left: Learned, right: Learned, tombstones: Deletions)

  function Entries(l: Learned): set<Entry> {
    match l
    case Handed(entries) => entries
    case Merged(left, right, _) => Entries(left) + Entries(right)
  }

  /** `lib` is what merging in this way leaves, each merge under its own tombstones. */
  ghost predicate Yields(l: Learned, lib: set<Entry>) {
    match l
    case Handed(entries) => lib == entries
    case Merged(left, right, tombstones) =>
      exists a, b, m: Library :: Yields(left, a) && Yields(right, b) && KeepsGreatest(m, a + b, tombstones)
        && lib == m.Values
  }

  /** Tombstone times only grow on the way to the last merge. */
  ghost predicate Grows(l: Learned, last: Deletions) {
    match l
    case Handed(_) => true
    case Merged(left, right, tombstones) =>
      Outgrows(last, tombstones) && Grows(left, tombstones) && Grows(right, tombstones)
  }

  /** Whatever was dropped on the way is dead or outdone under the last tombstones. */
  ghost predicate Covers(part: set<Entry>, whole: set<Entry>, last: Deletions) {
    && part <= whole
    && (forall e {:trigger OutdoneIn(part, e)} :: e in whole && IsAlive(e, last) ==> OutdoneIn(part, e))
  }

  ghost predicate OutdoneIn(part: set<Entry>, e: Entry) {
    exists f: Entry :: f in part && f.id == e.id && AtMost(e, f)
  }

  lemma CoverBoth(a: set<Entry>, s: set<Entry>, b: set<Entry>, t: set<Entry>, last: Deletions)
    requires Covers(a, s, last) && Covers(b, t, last)
    ensures Covers(a + b, s + t, last)
  {
    forall e | e in s + t && IsAlive(e, last) ensures OutdoneIn(a + b, e) {
      var part := if e in s then a else b;
      assert OutdoneIn(part, e);
    }
  }

  lemma GreatestOfCover(part: set<Entry>, whole: set<Entry>, last: Deletions, lib: Library)
    requires Covers(part, whole, last) && KeepsGreatest(lib, part, last)
    ensures KeepsGreatest(lib, whole, last)
  {
    forall e | e in whole && IsAlive(e, last) ensures e.id in lib && AtMost(e, lib[e.id]) {
      assert OutdoneIn(part, e);
      var f: Entry :| f in part && f.id == e.id && AtMost(e, f);
      assert IsAlive(f, last);
    }
  }

  /** A library covers the entries it was taken from, also under later tombstones. */
  lemma LibraryCovers(lib: Library, entries: set<Entry>, early: Deletions, last: Deletions)
    requires KeepsGreatest(lib, entries, early) && Outgrows(last, early)
    ensures Covers(lib.Values, entries, last)
  {
    forall e | e in entries && IsAlive(e, last) ensures OutdoneIn(lib.Values, e) {
      assert DeletedAt(early, e.id) <= DeletedAt(last, e.id);
      assert lib[e.id] in lib.Values;
    }
  }

  lemma {:induction false} YieldsCover(l: Learned, lib: set<Entry>, last: Deletions)
    requires Yields(l, lib) && Grows(l, last)
    ensures Covers(lib, Entries(l), last)
  {
    if l.Merged? {
      var a, b, m: Library :| Yields(l.left, a) && Yields(l.right, b) && KeepsGreatest(m, a + b, l.tombstones)
          && lib == m.Values;
      YieldsCover(l.left, a, l.tombstones);
      YieldsCover(l.right, b, l.tombstones);
      CoverBoth(a, Entries(l.left), b, Entries(l.right), l.tombstones);
      GreatestOfCover(a + b, Entries(l), l.tombstones, m);
      LibraryCovers(m, Entries(l), l.tombstones, last);
    }
  }

  /** A library merged in any order and grouping, under tombstones that only grow, keeps the
      greatest living version of each id among all it ever learned. */
  lemma KeepsGreatestOfAll(left: Learned, right: Learned, last: Deletions, a: set<Entry>, b: set<Entry>, lib: Library)
    requires Yields(left, a) && Yields(right, b) && Grows(left, last) && Grows(right, last)
    requires KeepsGreatest(lib, a + b, last)
    ensures KeepsGreatest(lib, Entries(left) + Entries(right), last)
  {
    YieldsCover(left, a, last);
    YieldsCover(right, b, last);
    CoverBoth(a, Entries(left), b, Entries(right), last);
    GreatestOfCover(a + b, Entries(left) + Entries(right), last, lib);
  }

  /** So two devices that learned the same entries hold the same library. */
  lemma SameWhateverTheOrder(left: Learned, right: Learned, last: Deletions, a: set<Entry>, b: set<Entry>,
                             lib: Library,
                             left': Learned, right': Learned, a': set<Entry>, b': set<Entry>, lib': Library)
    requires Yields(left, a) && Yields(right, b) && Grows(left, last) && Grows(right, last)
    requires Yields(left', a') && Yields(right', b') && Grows(left', last) && Grows(right', last)
    requires KeepsGreatest(lib, a + b, last) && KeepsGreatest(lib', a' + b', last)
    requires Entries(left) + Entries(right) == Entries(left') + Entries(right')
    ensures lib == lib'
  {
    KeepsGreatestOfAll(left, right, last, a, b, lib);
    KeepsGreatestOfAll(left', right', last, a', b', lib');
    GreatestIsUnique(lib, lib', Entries(left) + Entries(right), last);
  }
}
