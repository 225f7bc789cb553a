/** What merging boards keeps. */
module KanbanProofs {
  import opened Wrappers
  import opened Kanban

  /** As storage and sync normalize a board, with column ids as they are minted: distinct. */
  ghost predicate Normal(b: Board) {
    && b.updatedAt > 0
    && b.fieldTimes.name >= 0 && b.fieldTimes.backlogFilter >= 0 && b.fieldTimes.noteFilter >= 0
      && b.fieldTimes.columns >= 0
    && (forall i :: 0 <= i < |b.columns| && b.columns[i].orderedAt.Some? ==> b.columns[i].orderedAt.value > 0)
    && DistinctIds(b.columns)
  }

  ghost predicate DistinctIds(columns: seq<Column>) {
    forall i, j :: 0 <= i < j < |columns| ==> columns[i].id != columns[j].id
  }

  lemma {:induction false} FindAt(columns: seq<Column>, i: nat)
    requires i < |columns| && DistinctIds(columns)
    ensures Find(columns, columns[i].id) == Some(columns[i])
  {
    if i < |columns| - 1 {
      FindAt(columns[..|columns| - 1], i);
    }
  }

  lemma {:induction false} FoundAt(columns: seq<Column>, id: nat) returns (i: nat)
    requires Find(columns, id).Some?
    ensures i < |columns| && columns[i] == Find(columns, id).value && columns[i].id == id
  {
    if columns[|columns| - 1].id == id { i := |columns| - 1; } else { i := FoundAt(columns[..|columns| - 1], id); }
  }

  // ---------------------------------------------------------------- the latest write

  lemma LatestCommutes<T>(left: Side<T>, right: Side<T>, text: T -> int)
    requires text(left.value) == text(right.value) ==> left.value == right.value
    ensures PickLatest(left, right, text) == PickLatest(right, left, text)
  {
  }

  lemma LatestAssociates<T>(a: Side<T>, b: Side<T>, c: Side<T>, text: T -> int)
    requires text(a.value) == text(c.value) ==> a.value == c.value
    ensures PickLatest(PickLatest(a, b, text), c, text) == PickLatest(a, PickLatest(b, c, text), text)
  {
  }

  // ---------------------------------------------------------------- laws of the merge

  lemma MergeCommutes(t: Texts, left: Board, right: Board)
    requires Distinguishes(t) && left.id == right.id
    ensures Merge(t, left, right) == Merge(t, right, left)
  {
    LatestCommutes(NameSide(left), NameSide(right), Itself);
    LatestCommutes(BacklogSide(left), BacklogSide(right), Itself);
    LatestCommutes(NoteSide(left), NoteSide(right), Itself);
    LatestCommutes(LayoutSide(left), LayoutSide(right), t.board);
  }

  /** A board with every setting's time written out, as a merge leaves it. */
  function Explicit(b: Board): Board {
    b.(fieldTimes := FieldTimes(b))
  }

  /** Merging a board with a copy of itself only writes its times out, and a merged board
      has them written out. */
  lemma MergeIdempotent(t: Texts, b: Board)
    requires Normal(b)
    ensures Merge(t, b, b) == Explicit(b)
    ensures Merge(t, Explicit(b), Explicit(b)) == Explicit(b)
  {
    MergeColumnsSame(t, b, b);
    MergeColumnsSame(t, Explicit(b), Explicit(b));
  }

  lemma MergeColumnsSame(t: Texts, b: Board, c: Board)
    requires DistinctIds(b.columns) && b == c
    ensures MergeColumns(t, b, c) == b.columns
  {
    forall i | 0 <= i < |b.columns| ensures MergeColumn(t, b.columns[i], b, c) == b.columns[i] {
      FindAt(b.columns, i);
    }
  }

  lemma MergedIsExplicit(t: Texts, left: Board, right: Board)
    requires Normal(left) && Normal(right)
    ensures Explicit(Merge(t, left, right)) == Merge(t, left, right)
    ensures Normal(Merge(t, left, right))
  {
    var m := Merge(t, left, right);
    var layout := PickLatest(LayoutSide(left), LayoutSide(right), t.board).value;
    var other := if layout == left then right else left;
    forall i | 0 <= i < |m.columns|
      ensures m.columns[i].id == layout.columns[i].id
      ensures m.columns[i].orderedAt.Some? ==> m.columns[i].orderedAt.value > 0
    {
      var column := layout.columns[i];
      if Find(other.columns, column.id).Some? { var j := FoundAt(other.columns, column.id); }
    }
  }

  /** Name and filters also group freely. */
  lemma SettingsAssociate(t: Texts, a: Board, b: Board, c: Board)
    requires Normal(a) && Normal(b) && Normal(c)
    ensures NameSide(Merge(t, Merge(t, a, b), c)) == NameSide(Merge(t, a, Merge(t, b, c)))
    ensures BacklogSide(Merge(t, Merge(t, a, b), c)) == BacklogSide(Merge(t, a, Merge(t, b, c)))
    ensures NoteSide(Merge(t, Merge(t, a, b), c)) == NoteSide(Merge(t, a, Merge(t, b, c)))
  {
    LatestAssociates(NameSide(a), NameSide(b), NameSide(c), Itself);
    LatestAssociates(BacklogSide(a), BacklogSide(b), BacklogSide(c), Itself);
    LatestAssociates(NoteSide(a), NoteSide(b), NoteSide(c), Itself);
  }

  // ---------------------------------------------------------------- edits

  /** The edited board was made from the previous one: a column whose order was left alone
      still carries the stamp that order had. */
  ghost predicate DerivedFrom(next: Board, previous: Board) {
    && next.id == previous.id && DistinctIds(next.columns)
    && (forall i :: 0 <= i < |next.columns| && !OrderChanged(next.columns[i], previous) ==>
          var earlier := Find(previous.columns, next.columns[i].id);
          earlier.Some? ==> SameOrder(next.columns[i], earlier.value))
  }

  predicate SameOrder(c: Column, d: Column) {
    c.order == d.order && c.orderedAt == d.orderedAt && c.orderWriter == d.orderWriter
  }

  lemma EditKeepsNormal(previous: Board, next: Board, at: int, writer: nat)
    requires Normal(previous) && DerivedFrom(next, previous)
    requires forall i :: 0 <= i < |next.columns| && next.columns[i].orderedAt.Some? ==>
        next.columns[i].orderedAt.value > 0
    ensures Normal(Edited(previous, next, at, writer))
    ensures Changed(previous, next) ==>
      Explicit(Edited(previous, next, at, writer)) == Edited(previous, next, at, writer)
  {
    forall i | 0 <= i < |next.columns| ensures EditColumn(next.columns[i], previous, at, writer).orderedAt.Some? ==>
        EditColumn(next.columns[i], previous, at, writer).orderedAt.value > 0 {
      var earlier := Find(previous.columns, next.columns[i].id);
      if earlier.Some? { var j := FoundAt(previous.columns, next.columns[i].id); }
    }
  }

  /** Between an edit's column and the column it was made from, the edit's order is taken. */
  lemma EditedOrderWins(t: Texts, previous: Board, next: Board, at: int, writer: nat, i: nat)
    requires Normal(previous) && DerivedFrom(next, previous) && Changed(previous, next)
    requires i < |next.columns| && Find(previous.columns, next.columns[i].id).Some?
    ensures var e := Edited(previous, next, at, writer);
            var copy := Find(previous.columns, next.columns[i].id).value;
            && SameOrder(PickLatest(OrderSide(e.columns[i], e), OrderSide(copy, previous), t.column).value,
              e.columns[i])
            && SameOrder(PickLatest(OrderSide(copy, previous), OrderSide(e.columns[i], e), t.column).value,
              e.columns[i])
  {
    var e := Edited(previous, next, at, writer);
    assert e.columns[i] == EditColumn(next.columns[i], previous, at, writer);
    assert e.updatedAt > previous.updatedAt;
  }

  /** Merging an edited board with the version it was edited from gives the edit. */
  lemma EditAbsorbsBase(t: Texts, previous: Board, next: Board, at: int, writer: nat)
    requires Normal(previous) && DerivedFrom(next, previous)
    ensures Merge(t, Edited(previous, next, at, writer), previous) == Explicit(Edited(previous, next, at, writer))
    ensures Merge(t, previous, Edited(previous, next, at, writer)) == Explicit(Edited(previous, next, at, writer))
  {
    var e := Edited(previous, next, at, writer);
    if Changed(previous, next) {
      ColumnsOfEdit(t, previous, next, at, writer);
      if Layout(next.columns) == Layout(previous.columns) { ColumnsOfBase(t, previous, next, at, writer); }
      assert Max(e.updatedAt, previous.updatedAt) == e.updatedAt;
    } else {
      MergeIdempotent(t, previous);
    }
  }

  lemma ColumnsOfEdit(t: Texts, previous: Board, next: Board, at: int, writer: nat)
    requires Normal(previous) && DerivedFrom(next, previous) && Changed(previous, next)
    ensures MergeColumns(t, Edited(previous, next, at, writer), previous) == Edited(previous, next, at, writer).columns
  {
    var e := Edited(previous, next, at, writer);
    forall i | 0 <= i < |e.columns| ensures MergeColumn(t, e.columns[i], e, previous) == e.columns[i] {
      assert e.columns[i].id == next.columns[i].id;
      if Find(previous.columns, next.columns[i].id).Some? { EditedOrderWins(t, previous, next, at, writer, i); }
    }
  }

  lemma ColumnsOfBase(t: Texts, previous: Board, next: Board, at: int, writer: nat)
    requires Normal(previous) && DerivedFrom(next, previous) && Changed(previous, next)
    requires Layout(next.columns) == Layout(previous.columns)
    ensures MergeColumns(t, previous, Edited(previous, next, at, writer)) == Edited(previous, next, at, writer).columns
  {
    var e := Edited(previous, next, at, writer);
    assert |Layout(next.columns)| == |next.columns| && |Layout(previous.columns)| == |previous.columns|;
    forall i | 0 <= i < |e.columns| ensures MergeColumn(t, previous.columns[i], previous, e) == e.columns[i] {
      assert Layout(next.columns)[i] == Layout(previous.columns)[i];
      FindAt(e.columns, i);
      FindAt(previous.columns, i);
      EditedOrderWins(t, previous, next, at, writer, i);
    }
  }

  // ---------------------------------------------------------------- two edits from one base

  datatype Edit = Edit(next: Board, at: int, writer: nat)

  function Apply(base: Board, e: Edit): Board { Edited(base, e.next, e.at, e.writer) }

  ghost predicate IsEdit(base: Board, e: Edit) {
    DerivedFrom(e.next, base) && Changed(base, e.next) && e.writer > 0
  }

  /** Edits to different settings both survive their merge, whichever device merges. */
  lemma SettingsSurvive(t: Texts, base: Board, a: Edit, b: Edit)
    requires Distinguishes(t) && Normal(base) && IsEdit(base, a) && IsEdit(base, b)
    ensures Merge(t, Apply(base, a), Apply(base, b)) == Merge(t, Apply(base, b), Apply(base, a))
    ensures var m := Merge(t, Apply(base, a), Apply(base, b));
      && (a.next.name != base.name && b.next.name == base.name ==> m.name == a.next.name)
      && (a.next.backlogFilter != base.backlogFilter && b.next.backlogFilter == base.backlogFilter ==>
            m.backlogFilter == a.next.backlogFilter)
      && (a.next.noteFilter != base.noteFilter && b.next.noteFilter == base.noteFilter ==>
        m.noteFilter == a.next.noteFilter)
      && (Layout(a.next.columns) != Layout(base.columns) && Layout(b.next.columns) == Layout(base.columns) ==>
            Layout(m.columns) == Layout(a.next.columns))
  {
    MergeCommutes(t, Apply(base, a), Apply(base, b));
    var m := Merge(t, Apply(base, a), Apply(base, b));
    if Layout(a.next.columns) != Layout(base.columns) && Layout(b.next.columns) == Layout(base.columns) {
      assert m.columns == MergeColumns(t, Apply(base, a), Apply(base, b));
      forall i | 0 <= i < |m.columns| ensures (m.columns[i].id, m.columns[i].labelId) == Layout(a.next.columns)[i] {
      }
    }
  }

  /** An order somebody arranged and stamped, or none at all. */
  predicate Stamped(c: Column) {
    c.orderedAt.Some? || c.order == []
  }

  /** A rearranged column that both layouts keep has its new order after the merge exactly
      when the base's order was stamped or empty, or was rearranged no earlier than the other
      edit's version of the board. */
  lemma OrderSurvives(t: Texts, base: Board, a: Edit, b: Edit, id: nat, i: nat, j: nat)
    requires Distinguishes(t) && Normal(base) && IsEdit(base, a) && IsEdit(base, b)
    requires Find(base.columns, id).Some?
    requires Find(base.columns, id).value.orderedAt.None? ==> Find(base.columns, id).value.orderWriter == 0
    requires i < |a.next.columns| && a.next.columns[i].id == id && OrderChanged(a.next.columns[i], base)
    requires j < |b.next.columns| && b.next.columns[j].id == id && !OrderChanged(b.next.columns[j], base)
    ensures var m := Merge(t, Apply(base, a), Apply(base, b));
      && Find(m.columns, id).Some?
      && (Find(m.columns, id).value.order == a.next.columns[i].order <==>
            || Stamped(Find(base.columns, id).value)
            || Max(a.at, base.updatedAt + 1) >= Apply(base, b).updatedAt)
  {
    var x, y := Apply(base, a), Apply(base, b);
    ArrangedColumn(t, base, a, b, id, i, j);
    FindAt(x.columns, i);
    FindAt(y.columns, j);
    var layout := PickLatest(LayoutSide(x), LayoutSide(y), t.board).value;
    if layout == x {
      MergedColumnAt(t, x, y, i);
    } else {
      MergedColumnAt(t, y, x, j);
    }
  }

  /** The column that a merge builds from the winning layout is the one filed under its id. */
  lemma MergedColumnAt(t: Texts, layout: Board, other: Board, k: nat)
    requires DistinctIds(layout.columns) && k < |layout.columns|
    ensures Find(MergeColumns(t, layout, other), layout.columns[k].id)
        == Some(MergeColumn(t, layout.columns[k], layout, other))
  {
    var merged := MergeColumns(t, layout, other);
    forall p | 0 <= p < |merged| ensures merged[p].id == layout.columns[p].id {
    }
    FindAt(merged, k);
  }

  lemma ArrangedColumn(t: Texts, base: Board, a: Edit, b: Edit, id: nat, i: nat, j: nat)
    requires Distinguishes(t) && Normal(base) && IsEdit(base, a) && IsEdit(base, b)
    requires Find(base.columns, id).Some?
    requires Find(base.columns, id).value.orderedAt.None? ==> Find(base.columns, id).value.orderWriter == 0
    requires i < |a.next.columns| && a.next.columns[i].id == id && OrderChanged(a.next.columns[i], base)
    requires j < |b.next.columns| && b.next.columns[j].id == id && !OrderChanged(b.next.columns[j], base)
    ensures var x, y := Apply(base, a), Apply(base, b);
      && j < |y.columns| && i < |x.columns|
      && var s, u := OrderSide(x.columns[i], x), OrderSide(y.columns[j], y);
      && PickLatest(s, u, t.column) == PickLatest(u, s, t.column)
      && (PickLatest(s, u, t.column).value.order == a.next.columns[i].order <==>
            || Stamped(Find(base.columns, id).value)
            || Max(a.at, base.updatedAt + 1) >= y.updatedAt)
  {
    var x, y := Apply(base, a), Apply(base, b);
    var earlier := Find(base.columns, id).value;
    assert x.columns[i] == EditColumn(a.next.columns[i], base, a.at, a.writer);
    assert y.columns[j] == b.next.columns[j];
    assert SameOrder(y.columns[j], earlier);
  }

  /** A rename elsewhere undoes a rearrangement of a column whose order was never stamped. */
  lemma UnstampedOrderLost(t: Texts) returns (base: Board, a: Edit, b: Edit)
    requires Distinguishes(t)
    ensures Normal(base) && IsEdit(base, a) && IsEdit(base, b)
    ensures |base.columns| == |a.next.columns| == |b.next.columns| == 1
    ensures a.next.columns[0].order == [8, 7] && b.next.columns == base.columns && b.next.name != base.name
    ensures var m := Merge(t, Apply(base, a), Apply(base, b)); |m.columns| == 1 && m.columns[0].order == [7, 8]
  {
    var column := Column(1, None, [7, 8], None, 0);
    var zero := Per(0, 0, 0, 0);
    base := Board(1, 1, [column], 0, 0, 1, zero, zero);
    a := Edit(base.(columns := [column.(order := [8, 7])]), 5, 1);
    b := Edit(base.(name := 2), 10, 2);
    FindAt(base.columns, 0);
    assert a.next.columns[0].order == [8, 7] && [8, 7][0] != [7, 8][0];
    assert OrderChanged(a.next.columns[0], base) && !OrderChanged(b.next.columns[0], base);
    assert Layout(a.next.columns) == Layout(base.columns);
    assert Apply(base, b).updatedAt == 10;
    var x, y := Apply(base, a), Apply(base, b);
    assert x.columns == [Column(1, None, [8, 7], Some(5), 1)];
    assert y.columns == [column];
    FindAt(x.columns, 0);
    FindAt(y.columns, 0);
  }

  lemma {:induction false} CopiesOnce(t: Texts, local: seq<Board>, remote: seq<Board>, id: nat)
    requires DistinctBoards(remote)
    ensures Copies(t, local, remote, id) == MergeCopies(t, Filed(local, id), Filed(remote, id))
  {
    if remote != [] {
      var init, last := remote[..|remote| - 1], remote[|remote| - 1];
      CopiesOnce(t, local, init, id);
      if last.id == id { NotFiled(init, id); }
    }
  }

  lemma {:induction false} NotFiled(boards: seq<Board>, id: nat)
    requires forall i :: 0 <= i < |boards| ==> boards[i].id != id
    ensures Filed(boards, id).None?
  {
    if boards != [] { NotFiled(boards[..|boards| - 1], id); }
  }

  /** Every device files the same merged board, whichever side is its own. */
  lemma AllMergeCommutes(t: Texts, local: seq<Board>, remote: seq<Board>, tombstones: map<nat, int>, id: nat)
    requires Distinguishes(t) && DistinctBoards(local) && DistinctBoards(remote)
    ensures MergedUnder(t, local, remote, tombstones, id) == MergedUnder(t, remote, local, tombstones, id)
  {
    CopiesOnce(t, local, remote, id);
    CopiesOnce(t, remote, local, id);
    FiledUnder(local, id);
    FiledUnder(remote, id);
    if Filed(local, id).Some? && Filed(remote, id).Some? {
      MergeCommutes(t, Filed(local, id).value, Filed(remote, id).value);
    }
  }
}
