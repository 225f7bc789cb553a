/** Any devices that learn the same receipts settle on the same history. */
module ReminderHistoryProofs {
  import opened Wrappers
  import opened ReminderHistory

  // ---------------------------------------------------------------- lists and histories

  lemma {:induction false} AliveOnce(entries: seq<Entry>, tombstones: map<nat, int>)
    requires forall i, j :: 0 <= i < j < |entries| ==> entries[i].id < entries[j].id
    ensures forall e :: e in Alive(entries, tombstones) <==> e in entries && !Dead(tombstones, e.noteId)
    ensures forall i, j :: 0 <= i < j < |Alive(entries, tombstones)| ==>
      Alive(entries, tombstones)[i].id < Alive(entries, tombstones)[j].id
  {
    if entries != [] {
      var init := entries[..|entries| - 1];
      AliveOnce(init, tombstones);
      assert entries == init + [entries[|entries| - 1]];
      assert forall e :: e in init ==> e.id < entries[|entries| - 1].id;
    }
  }

  lemma {:induction false} SpelledOf(entries: seq<Entry>)
    requires forall i, j :: 0 <= i < j < |entries| ==> entries[i].id < entries[j].id
    ensures forall e :: e in entries ==> e.id in Spelled(entries) && Spelled(entries)[e.id] == e
    ensures forall i :: i in Spelled(entries) ==> Spelled(entries)[i] in entries && Spelled(entries)[i].id == i
  {
    if entries != [] {
      var init := entries[..|entries| - 1];
      SpelledOf(init);
      assert entries == init + [entries[|entries| - 1]];
    }
  }

  lemma SpelledLists(entries: seq<Entry>, a: History)
    requires Lists(entries, a) && Keyed(a)
    ensures Spelled(entries) == a
  {
    SpelledOf(entries);
    forall i | i in a ensures i in Spelled(entries) {
      assert a[i] in entries;
    }
  }

  lemma AliveLists(entries: seq<Entry>, a: History, tombstones: map<nat, int>)
    requires Lists(entries, a)
    ensures Lists(Alive(entries, tombstones), Living(a, tombstones))
  {
    AliveOnce(entries, tombstones);
  }

  lemma EnteredJoins(a: History, b: History, e: Entry)
    requires Keyed(a) && Keyed(b)
    ensures Entered(Join(a, b), e) == Join(a, Entered(b, e))
  {
  }

  lemma {:induction false} SpelledJoin(left: seq<Entry>, right: seq<Entry>)
    ensures Spelled(left + right) == Join(Spelled(left), Spelled(right))
  {
    if right == [] {
      assert left + right == left;
    } else {
      var init, e := right[..|right| - 1], right[|right| - 1];
      SpelledKeyed(left);
      SpelledKeyed(init);
      EnteredJoins(Spelled(left), Spelled(init), e);
      assert (left + right)[..|left + right| - 1] == left + init;
      SpelledJoin(left, init);
    }
  }

  lemma {:induction false} AliveSplits(left: seq<Entry>, right: seq<Entry>, tombstones: map<nat, int>)
    ensures Alive(left + right, tombstones) == Alive(left, tombstones) + Alive(right, tombstones)
  {
    if right == [] {
      assert left + right == left;
    } else {
      var init := right[..|right| - 1];
      AliveSplits(left, init, tombstones);
      assert (left + right)[..|left + right| - 1] == left + init;
    }
  }

  lemma AliveSpelled(entries: seq<Entry>, a: History, tombstones: map<nat, int>)
    requires Lists(entries, a) && Keyed(a)
    ensures Spelled(Alive(entries, tombstones)) == Living(a, tombstones)
  {
    AliveLists(entries, a, tombstones);
    SpelledLists(Alive(entries, tombstones), Living(a, tombstones));
  }

  /** What the list merge returns is the merge of the histories it was handed. */
  lemma ListMergeIsMerge(left: seq<Entry>, a: History, right: seq<Entry>, b: History, tombstones: map<nat, int>)
    requires Lists(left, a) && Keyed(a) && Lists(right, b) && Keyed(b)
    ensures Latest(Spelled(Alive(left + right, tombstones))) == Merge(a, b, tombstones)
  {
    assert Spelled(Alive(left + right, tombstones)) == Join(Living(a, tombstones), Living(b, tombstones)) by {
      AliveSplits(left, right, tombstones);
      SpelledJoin(Alive(left, tombstones), Alive(right, tombstones));
      AliveSpelled(left, a, tombstones);
      AliveSpelled(right, b, tombstones);
    }
  }

  // ---------------------------------------------------------------- what every device knows of a wake

  datatype Wake = Wake(noteId: nat, firedAt: int)

  /** The note and the time of every entry are those its wake id stands for. */
  ghost predicate Agrees(a: History, wake: nat -> Wake) {
    forall i :: i in a ==> a[i].id == i && a[i].noteId == wake(i).noteId && a[i].firedAt == wake(i).firedAt
  }

  lemma MergeAgrees(a: History, b: History, tombstones: map<nat, int>, wake: nat -> Wake)
    requires Agrees(a, wake) && Agrees(b, wake)
    ensures Agrees(Merge(a, b, tombstones), wake) && Agrees(Join(a, b), wake)
  {
  }

  lemma JoinCommutes(a: History, b: History, wake: nat -> Wake)
    requires Agrees(a, wake) && Agrees(b, wake)
    ensures Join(a, b) == Join(b, a)
  {
  }

  lemma LivingJoin(a: History, b: History, tombstones: map<nat, int>, wake: nat -> Wake)
    requires Agrees(a, wake) && Agrees(b, wake)
    ensures Living(Join(a, b), tombstones) == Join(Living(a, tombstones), Living(b, tombstones))
  {
  }

  // ---------------------------------------------------------------- truncation loses nothing that counts

  lemma {:induction false} SubsetSize<T>(s: set<T>, t: set<T>)
    requires s <= t
    ensures |s| <= |t|
  {
    assert t == s + (t - s);
    assert |s + (t - s)| == |s| + |t - s|;
  }

  /** Behind enough entries there are enough kept ones. */
  lemma {:induction false} EnoughKeptAhead(a: History, e: Entry)
    requires Keyed(a) && |Ahead(a, e)| >= RECEIPTS_PER_NOTE
    ensures |Ahead(Latest(a), e)| >= RECEIPTS_PER_NOTE
    decreases |Ahead(a, e)|
  {
    if q :| q in Ahead(a, e) && q !in Latest(a) {
      var ahead := Ahead(a, a[q]);
      assert q !in ahead && ahead + {q} <= Ahead(a, e);
      SubsetSize(ahead + {q}, Ahead(a, e));
      EnoughKeptAhead(a, a[q]);
      assert Ahead(Latest(a), a[q]) <= Ahead(Latest(a), e);
      SubsetSize(Ahead(Latest(a), a[q]), Ahead(Latest(a), e));
    } else {
      assert Ahead(a, e) == Ahead(Latest(a), e);
    }
  }

  lemma AheadInJoin(a: History, b: History, e: Entry, wake: nat -> Wake)
    requires Agrees(a, wake) && Agrees(b, wake)
    ensures Ahead(Join(a, b), e) == Ahead(a, e) + Ahead(b, e)
  {
  }

  /** An entry kept of a join was kept of the part it came from. */
  lemma KeptInPart(a: History, b: History, i: nat, wake: nat -> Wake)
    requires Agrees(a, wake) && Agrees(b, wake) && i in Latest(Join(a, b)) && i in a
    ensures i in Latest(a)
  {
    var e := Join(a, b)[i];
    AheadInJoin(a, b, e, wake);
    SubsetSize(Ahead(a, e), Ahead(Join(a, b), e));
    assert Ahead(a, a[i]) == Ahead(a, e);
  }

  /** Where few kept entries are ahead, none was dropped ahead. */
  lemma NoneDroppedAhead(a: History, e: Entry)
    requires Keyed(a) && |Ahead(Latest(a), e)| < RECEIPTS_PER_NOTE
    ensures Ahead(a, e) == Ahead(Latest(a), e)
  {
    forall q | q in Ahead(a, e) ensures q in Ahead(Latest(a), e) {
      if q !in Latest(a) {
        EnoughKeptAhead(a, a[q]);
        SubsetSize(Ahead(Latest(a), a[q]), Ahead(Latest(a), e));
      }
    }
  }

  /** An entry that truncation drops stays dropped, whoever brings it back. */
  lemma StaysDropped(a: History, b: History, i: nat, wake: nat -> Wake)
    requires Agrees(a, wake) && Agrees(b, wake) && i in a && i in Latest(Join(Latest(a), b))
    ensures i in Latest(a)
  {
    var e := Join(Latest(a), b)[i];
    AheadInJoin(Latest(a), b, e, wake);
    SubsetSize(Ahead(Latest(a), e), Ahead(Join(Latest(a), b), e));
    NoneDroppedAhead(a, e);
    assert Ahead(a, a[i]) == Ahead(a, e) by {
      assert a[i].noteId == e.noteId && a[i].firedAt == e.firedAt && a[i].id == e.id;
    }
  }

  /** An entry kept of a join with a truncated part is kept of the whole join. */
  lemma KeptInWhole(a: History, b: History, i: nat, wake: nat -> Wake)
    requires Agrees(a, wake) && Agrees(b, wake) && i in Latest(Join(Latest(a), b))
    ensures i in Latest(Join(a, b)) && Join(a, b)[i] == Join(Latest(a), b)[i]
  {
    var e := Join(Latest(a), b)[i];
    AheadInJoin(Latest(a), b, e, wake);
    AheadInJoin(a, b, e, wake);
    SubsetSize(Ahead(Latest(a), e), Ahead(Join(Latest(a), b), e));
    NoneDroppedAhead(a, e);
    if i in a { StaysDropped(a, b, i, wake); }
    assert Join(a, b)[i] == e;
  }

  /** Truncating one side of a join first changes nothing of what is kept. */
  lemma TruncateFirst(a: History, b: History, wake: nat -> Wake)
    requires Agrees(a, wake) && Agrees(b, wake)
    ensures Latest(Join(Latest(a), b)) == Latest(Join(a, b))
  {
    var early, whole := Latest(Join(Latest(a), b)), Latest(Join(a, b));
    forall i | i in early ensures i in whole && early[i] == whole[i] {
      KeptInWhole(a, b, i, wake);
    }
    forall i | i in whole ensures i in early {
      if i in a { KeptInPart(a, b, i, wake); }
      var e := Join(a, b)[i];
      AheadInJoin(Latest(a), b, e, wake);
      AheadInJoin(a, b, e, wake);
      SubsetSize(Ahead(Join(Latest(a), b), e), Ahead(Join(a, b), e));
      assert Ahead(Join(Latest(a), b), Join(Latest(a), b)[i]) == Ahead(Join(Latest(a), b), e);
    }
  }

  /** A deleted note takes all its receipts, so dropping it commutes with truncation. */
  lemma LivingLatest(a: History, tombstones: map<nat, int>)
    ensures Living(Latest(a), tombstones) == Latest(Living(a, tombstones))
  {
    forall i | i in Living(a, tombstones) ensures Ahead(Living(a, tombstones), a[i]) == Ahead(a, a[i]) {
    }
  }

  /** No note deleted for good comes back. */
  ghost predicate Outlasts(later: map<nat, int>, earlier: map<nat, int>) {
    forall n :: Dead(earlier, n) ==> Dead(later, n)
  }

  // ---------------------------------------------------------------- every way of merging

  /** How a device came by its history: saved once, or merged of two others. */
  datatype Learned = Saved(history: History) | Merged(left: Learned, right: Learned, tombstones: map<nat, int>)

  function Value(l: Learned): History {
    match l
    case Saved(h) => h
    case Merged(left, right, tombstones) => Merge(Value(left), Value(right), tombstones)
  }

  /** Everything ever learned, nothing dropped. */
  function All(l: Learned): History {
    match l
    case Saved(h) => h
    case Merged(left, right, _) => Join(All(left), All(right))
  }

  function Leaves(l: Learned): set<History> {
    match l
    case Saved(h) => {h}
    case Merged(left, right, _) => Leaves(left) + Leaves(right)
  }

  /** Tombstones only grow on the way to the last merge. */
  ghost predicate Grows(l: Learned, last: map<nat, int>) {
    match l
    case Saved(_) => true
    case Merged(left, right, tombstones) =>
      Outlasts(last, tombstones) && Grows(left, tombstones) && Grows(right, tombstones)
  }

  ghost predicate AllAgree(l: Learned, wake: nat -> Wake) {
    forall h :: h in Leaves(l) ==> Agrees(h, wake)
  }

  lemma {:induction false} LearnedAgrees(l: Learned, wake: nat -> Wake)
    requires AllAgree(l, wake)
    ensures Agrees(Value(l), wake) && Agrees(All(l), wake)
  {
    match l
    case Saved(h) => assert h in Leaves(l);
    case Merged(left, right, tombstones) =>
      LearnedAgrees(left, wake);
      LearnedAgrees(right, wake);
      MergeAgrees(Value(left), Value(right), tombstones, wake);
      MergeAgrees(All(left), All(right), tombstones, wake);
  }

  /** Under later tombstones a learned history keeps what all it ever learned would. */
  lemma {:induction false} KeepsOfAll(l: Learned, last: map<nat, int>, wake: nat -> Wake)
    requires AllAgree(l, wake) && Grows(l, last)
    ensures Latest(Living(Value(l), last)) == Latest(Living(All(l), last))
    decreases l, 1
  {
    if l.Merged? {
      ValueKeepsAll(l, wake);
      var whole := Living(All(l), l.tombstones);
      LivingLatest(whole, last);
      LivingTwice(All(l), l.tombstones, last);
      LatestTwice(Living(All(l), last));
    }
  }

  lemma {:induction false} ValueKeepsAll(l: Learned, wake: nat -> Wake)
    requires AllAgree(l, wake) && l.Merged? && Grows(l, l.tombstones)
    ensures Value(l) == Latest(Living(All(l), l.tombstones))
    decreases l, 0
  {
    assert AllAgree(l.left, wake) && AllAgree(l.right, wake);
    KeepsOfAll(l.left, l.tombstones, wake);
    KeepsOfAll(l.right, l.tombstones, wake);
    MergeOfAll(l.left, l.right, l.tombstones, wake);
  }

  lemma LivingTwice(a: History, early: map<nat, int>, last: map<nat, int>)
    requires Outlasts(last, early)
    ensures Living(Living(a, early), last) == Living(a, last)
  {
  }

  lemma LatestTwice(a: History)
    ensures Latest(Latest(a)) == Latest(a)
  {
    forall i | i in Latest(a) ensures |Ahead(Latest(a), a[i])| < RECEIPTS_PER_NOTE {
      SubsetSize(Ahead(Latest(a), a[i]), Ahead(a, a[i]));
    }
  }

  lemma TruncateBoth(a: History, b: History, wake: nat -> Wake)
    requires Agrees(a, wake) && Agrees(b, wake)
    ensures Latest(Join(Latest(a), Latest(b))) == Latest(Join(a, b))
  {
    TruncateFirst(a, Latest(b), wake);
    JoinCommutes(a, Latest(b), wake);
    TruncateFirst(b, a, wake);
    JoinCommutes(b, a, wake);
  }

  lemma MergeOfAll(left: Learned, right: Learned, tombstones: map<nat, int>, wake: nat -> Wake)
    requires AllAgree(left, wake) && AllAgree(right, wake)
    requires Latest(Living(Value(left), tombstones)) == Latest(Living(All(left), tombstones))
    requires Latest(Living(Value(right), tombstones)) == Latest(Living(All(right), tombstones))
    ensures Merge(Value(left), Value(right), tombstones) == Latest(Living(Join(All(left), All(right)), tombstones))
  {
    LearnedAgrees(left, wake);
    LearnedAgrees(right, wake);
    TruncateBoth(Living(Value(left), tombstones), Living(Value(right), tombstones), wake);
    TruncateBoth(Living(All(left), tombstones), Living(All(right), tombstones), wake);
    LivingJoin(All(left), All(right), tombstones, wake);
  }

  /** The earliest dismissal of a wake among the histories learned, or none. */
  ghost predicate IsEarliest(leaves: set<History>, i: nat, at: Option<int>) {
    && (forall h: History :: h in leaves && i in h && h[i].dismissedAt.Some? ==>
      at.Some? && at.value <= h[i].dismissedAt.value)
    && (at.Some? ==> exists h: History :: h in leaves && i in h && h[i].dismissedAt == at)
  }

  lemma EarliestOfTwo(s: set<History>, t: set<History>, i: nat, left: Option<int>, right: Option<int>)
    requires IsEarliest(s, i, left) && IsEarliest(t, i, right)
    ensures IsEarliest(s + t, i, Earliest(left, right))
  {
  }

  lemma NoneOfAbsent(s: set<History>, i: nat)
    requires forall h :: h in s ==> i !in h
    ensures IsEarliest(s, i, None)
  {
  }

  lemma {:induction false} AllHasEarliest(l: Learned, i: nat)
    ensures i in All(l) <==> exists h :: h in Leaves(l) && i in h
    ensures i in All(l) ==> IsEarliest(Leaves(l), i, All(l)[i].dismissedAt)
  {
    match l
    case Saved(h) =>
      assert h in Leaves(l);
    case Merged(left, right, _) =>
      AllHasEarliest(left, i);
      AllHasEarliest(right, i);
      if i !in All(left) { NoneOfAbsent(Leaves(left), i); }
      if i !in All(right) { NoneOfAbsent(Leaves(right), i); }
      var x := if i in All(left) then All(left)[i].dismissedAt else None;
      var y := if i in All(right) then All(right)[i].dismissedAt else None;
      EarliestOfTwo(Leaves(left), Leaves(right), i, x, y);
  }

  lemma OneEarliest(leaves: set<History>, i: nat, x: Option<int>, y: Option<int>)
    requires IsEarliest(leaves, i, x) && IsEarliest(leaves, i, y)
    ensures x == y
  {
  }

  lemma SameEntry(l: Learned, m: Learned, wake: nat -> Wake, i: nat)
    requires AllAgree(l, wake) && AllAgree(m, wake) && Leaves(l) == Leaves(m)
    ensures i in All(l) <==> i in All(m)
    ensures i in All(l) ==> All(l)[i] == All(m)[i]
  {
    LearnedAgrees(l, wake);
    LearnedAgrees(m, wake);
    AllHasEarliest(l, i);
    AllHasEarliest(m, i);
    if i in All(l) { OneEarliest(Leaves(l), i, All(l)[i].dismissedAt, All(m)[i].dismissedAt); }
  }

  // ---------------------------------------------------------------- what devices can rely on

  /** Two devices that learned the same histories in any order and grouping, and know the
      same deletions at the end, hold the same receipts. */
  lemma SameWhateverTheOrder(l: Learned, m: Learned, wake: nat -> Wake)
    requires AllAgree(l, wake) && AllAgree(m, wake) && Leaves(l) == Leaves(m)
    requires l.Merged? && m.Merged? && l.tombstones == m.tombstones
    requires Grows(l, l.tombstones) && Grows(m, m.tombstones)
    ensures Value(l) == Value(m)
  {
    forall i: nat ensures (i in All(l) <==> i in All(m)) && (i in All(l) ==> All(l)[i] == All(m)[i]) {
      SameEntry(l, m, wake, i);
    }
    assert All(l) == All(m);
    ValueKeepsAll(l, wake);
    ValueKeepsAll(m, wake);
  }

  /** However a device came by its history, each receipt it holds carries the earliest
      dismissal among all it ever learned, and a living receipt is missing only when its note
      has four later ones among them. */
  lemma EarliestDismissalKept(l: Learned, wake: nat -> Wake, i: nat)
    requires AllAgree(l, wake) && l.Merged? && Grows(l, l.tombstones)
    ensures i in Value(l) ==> IsEarliest(Leaves(l), i, Value(l)[i].dismissedAt)
    ensures i in All(l) && !Dead(l.tombstones, wake(i).noteId) && i !in Value(l) ==>
      |Ahead(All(l), All(l)[i])| >= RECEIPTS_PER_NOTE
  {
    LearnedAgrees(l, wake);
    ValueKeepsAll(l, wake);
    AllHasEarliest(l, i);
    if i in Living(All(l), l.tombstones) {
      SubsetSize(Ahead(Living(All(l), l.tombstones), All(l)[i]), Ahead(All(l), All(l)[i]));
    }
  }

  /** Merging is commutative, learns nothing new from itself or from a part, and groups
      freely while tombstones grow. */
  lemma MergeIsJoin(a: History, b: History, c: History, early: map<nat, int>, later: map<nat, int>,
                    last: map<nat, int>, wake: nat -> Wake)
    requires Agrees(a, wake) && Agrees(b, wake) && Agrees(c, wake)
    requires Outlasts(last, early) && Outlasts(last, later)
    ensures Merge(a, b, last) == Merge(b, a, last)
    ensures Merge(Merge(a, b, early), a, early) == Merge(a, b, early)
    ensures Merge(Merge(a, b, early), Merge(a, b, early), early) == Merge(a, b, early)
    ensures Merge(Merge(a, b, early), c, last) == Merge(a, Merge(b, c, later), last)
  {
    var x, y, z := Saved(a), Saved(b), Saved(c);
    var ab := Merged(x, y, early);
    SameWhateverTheOrder(Merged(x, y, last), Merged(y, x, last), wake);
    SameWhateverTheOrder(Merged(ab, x, early), ab, wake);
    SameWhateverTheOrder(Merged(ab, ab, early), ab, wake);
    SameWhateverTheOrder(Merged(ab, z, last), Merged(x, Merged(y, z, later), last), wake);
  }

  /** Each note can be merged on its own row: a note's share of a merge is the merge of its
      shares. */
  lemma NoteByNote(a: History, b: History, tombstones: map<nat, int>, noteId: nat, wake: nat -> Wake)
    requires Agrees(a, wake) && Agrees(b, wake)
    ensures OfNote(Merge(a, b, tombstones), noteId) == Merge(OfNote(a, noteId), OfNote(b, noteId), tombstones)
  {
    var whole := Join(Living(a, tombstones), Living(b, tombstones));
    LatestOfNote(whole, noteId);
    OfNoteJoin(Living(a, tombstones), Living(b, tombstones), noteId, wake);
    LivingOfNote(a, tombstones, noteId);
    LivingOfNote(b, tombstones, noteId);
  }

  lemma LatestOfNote(a: History, noteId: nat)
    ensures OfNote(Latest(a), noteId) == Latest(OfNote(a, noteId))
  {
    forall i | i in OfNote(a, noteId) ensures Ahead(OfNote(a, noteId), a[i]) == Ahead(a, a[i]) {
    }
  }

  lemma OfNoteJoin(a: History, b: History, noteId: nat, wake: nat -> Wake)
    requires Agrees(a, wake) && Agrees(b, wake)
    ensures OfNote(Join(a, b), noteId) == Join(OfNote(a, noteId), OfNote(b, noteId))
  {
  }

  lemma LivingOfNote(a: History, tombstones: map<nat, int>, noteId: nat)
    ensures OfNote(Living(a, tombstones), noteId) == Living(OfNote(a, noteId), tombstones)
  {
  }

  /** The row of a note spells the note's share of the saved history, cut to the latest. */
  lemma RowIsShare(entries: seq<Entry>, a: History, noteId: nat)
    requires Lists(entries, a) && Keyed(a)
    ensures Spelled(Picked(entries, noteId)) == OfNote(a, noteId)
    ensures Latest(a) == a ==> Latest(Spelled(Picked(entries, noteId))) == OfNote(a, noteId)
  {
    PickedOnce(entries, noteId);
    assert Lists(Picked(entries, noteId), OfNote(a, noteId));
    SpelledLists(Picked(entries, noteId), OfNote(a, noteId));
    if Latest(a) == a {
      forall i | i in OfNote(a, noteId) ensures |Ahead(OfNote(a, noteId), a[i])| < RECEIPTS_PER_NOTE {
        assert i in Latest(a);
        SubsetSize(Ahead(OfNote(a, noteId), a[i]), Ahead(a, a[i]));
      }
    }
  }

  lemma {:induction false} PickedOnce(entries: seq<Entry>, noteId: nat)
    requires forall i, j :: 0 <= i < j < |entries| ==> entries[i].id < entries[j].id
    ensures forall e :: e in Picked(entries, noteId) <==> e in entries && e.noteId == noteId
    ensures forall i, j :: 0 <= i < j < |Picked(entries, noteId)| ==>
      Picked(entries, noteId)[i].id < Picked(entries, noteId)[j].id
  {
    if entries != [] {
      var init := entries[..|entries| - 1];
      PickedOnce(init, noteId);
      assert entries == init + [entries[|entries| - 1]];
      assert forall e :: e in init ==> e.id < entries[|entries| - 1].id;
    }
  }
}
