/** Whether merging three copies of a board depends on how they are grouped. */
module KanbanGrouping {
  import opened Wrappers
  import opened Kanban
  import opened KanbanProofs

  /** A card order with the stamp and the writer it carries. */
  datatype Arranged = Arranged(order: seq<nat>, orderedAt: Option<int>, writer: nat)

  function ArrangedIn(c: Column): Arranged { Arranged(c.order, c.orderedAt, c.orderWriter) }

  predicate Has(b: Board, id: nat) { Find(b.columns, id).Some? }

  /** A board's order of a column, with the time it counts from. */
  function OrderIn(b: Board, id: nat): Side<Arranged>
    requires Has(b, id)
  {
    var c := Find(b.columns, id).value;
    Side(ArrangedIn(c), OrderTime(c, b), c.orderWriter)
  }

  predicate Later<T>(s: Side<T>, u: Side<T>) {
    s.time > u.time || (s.time == u.time && s.writer > u.writer)
  }

  function LaterOf<T>(s: Side<T>, u: Side<T>): Side<T> {
    if Later(s, u) then s else u
  }

  predicate SameWrite<T>(s: Side<T>, u: Side<T>) {
    s.time == u.time && s.writer == u.writer
  }

  /** One writer writes once at a time: what carries the same time and writer is the same
      layout, and the same order of a column. */
  ghost predicate Agree(x: Board, y: Board) {
    && LayoutsAgree(x, y)
    && (forall id :: Has(x, id) && Has(y, id) && SameWrite(OrderIn(x, id), OrderIn(y, id)) ==>
          OrderIn(x, id).value == OrderIn(y, id).value)
  }

  ghost predicate LayoutsAgree(x: Board, y: Board) {
    SameWrite(LayoutSide(x), LayoutSide(y)) ==> Layout(x.columns) == Layout(y.columns)
  }

  // ---------------------------------------------------------------- one merge

  lemma SameLayoutHas(x: Board, y: Board, id: nat)
    requires DistinctIds(x.columns) && DistinctIds(y.columns) && Layout(x.columns) == Layout(y.columns)
    ensures Has(x, id) ==> Has(y, id)
  {
    if Has(x, id) {
      var i := FoundAt(x.columns, id);
      assert |Layout(x.columns)| == |x.columns| && |Layout(y.columns)| == |y.columns|;
      assert Layout(x.columns)[i] == Layout(y.columns)[i];
      FindAt(y.columns, i);
    }
  }

  /** A merge has the layout written later. */
  lemma MergedLayout(t: Texts, x: Board, y: Board)
    requires Normal(x) && Normal(y) && LayoutsAgree(x, y)
    ensures var m := Merge(t, x, y);
      && SameWrite(LayoutSide(m), LaterOf(LayoutSide(x), LayoutSide(y)))
      && Layout(m.columns) == Layout(LaterOf(LayoutSide(x), LayoutSide(y)).value.columns)
  {
    var m := Merge(t, x, y);
    var w := PickLatest(LayoutSide(x), LayoutSide(y), t.board).value;
    var o := if w == x then y else x;
    assert Layout(m.columns) == Layout(w.columns) by {
      forall i | 0 <= i < |m.columns| ensures Layout(m.columns)[i] == Layout(w.columns)[i] {
        assert m.columns[i] == MergeColumn(t, w.columns[i], w, o);
      }
    }
  }

  function SideIn(b: Board, id: nat): Side<Column>
    requires Has(b, id)
  {
    OrderSide(Find(b.columns, id).value, b)
  }

  /** A column of the merge's layout has the later of the orders at hand. */
  lemma MergedOrder(t: Texts, x: Board, y: Board, id: nat)
    requires Distinguishes(t) && Normal(x) && Normal(y) && LayoutsAgree(x, y)
    ensures var m := Merge(t, x, y);
      && (Has(m, id) <==> Has(LaterOf(LayoutSide(x), LayoutSide(y)).value, id))
      && (Has(m, id) ==>
            OrderIn(m, id).value ==
              if !Has(x, id) then OrderIn(y, id).value
              else if !Has(y, id) then OrderIn(x, id).value
              else ArrangedIn(PickLatest(SideIn(x, id), SideIn(y, id), t.column).value))
  {
    var m := Merge(t, x, y);
    var w := PickLatest(LayoutSide(x), LayoutSide(y), t.board).value;
    var o := if w == x then y else x;
    MergedIsExplicit(t, x, y);
    MergedLayout(t, x, y);
    var later := LaterOf(LayoutSide(x), LayoutSide(y)).value;
    SameLayoutHas(m, later, id);
    SameLayoutHas(later, m, id);
    if Has(m, id) {
      var i := FoundAt(m.columns, id);
      MergedColumnAt(t, w, o, i);
      FindAt(w.columns, i);
      assert m.columns[i].id == w.columns[i].id;
    }
  }

  // ---------------------------------------------------------------- one column of two boards

  /** What a board says of one column: the order held, if its layout has the column, under
      the layout's time and writer. */
  type Cell = Side<Option<Side<Arranged>>>

  function CellIn(b: Board, id: nat): Cell {
    Side(if Has(b, id) then Some(OrderIn(b, id)) else None, LayoutSide(b).time, LayoutSide(b).writer)
  }

  function Newest(x: Option<Side<Arranged>>, y: Option<Side<Arranged>>): Option<Side<Arranged>> {
    if x.None? then y else if y.None? then x else Some(LaterOf(x.value, y.value))
  }

  /** The later of two layouts drops the column, and a third layout, later still, has it with
      another, older order. */
  ghost predicate Forgets(dropped: Cell, without: Cell, third: Cell) {
    && dropped.value.Some? && without.value.None? && third.value.Some?
    && Later(without, dropped) && Later(third, without)
    && Later(dropped.value.value, third.value.value) && dropped.value.value.value != third.value.value.value
  }

  lemma CellsAgree(x: Board, y: Board, id: nat)
    requires Normal(x) && Normal(y) && Agree(x, y)
    ensures SameWrite(CellIn(x, id), CellIn(y, id)) ==> (Has(x, id) <==> Has(y, id))
    ensures Has(x, id) && Has(y, id) && SameWrite(OrderIn(x, id), OrderIn(y, id)) ==> OrderIn(x, id) == OrderIn(y, id)
  {
    if SameWrite(LayoutSide(x), LayoutSide(y)) {
      SameLayoutHas(x, y, id);
      SameLayoutHas(y, x, id);
    }
  }

  /** The newer order of two boards as it counts in their merge: one that nobody stamped
      counts from the later update of the two. */
  function Counted(x: Board, y: Board, id: nat): Side<Arranged>
    requires Has(x, id) || Has(y, id)
  {
    var kept := Newest(CellIn(x, id).value, CellIn(y, id).value).value;
    if kept.value.orderedAt.Some? || kept.value.order == [] then kept
    else Side(kept.value, Max(x.updatedAt, y.updatedAt), kept.writer)
  }

  lemma MergedCell(t: Texts, x: Board, y: Board, id: nat)
    requires Distinguishes(t) && Normal(x) && Normal(y) && Agree(x, y)
    ensures var m := Merge(t, x, y);
      && SameWrite(CellIn(m, id), LaterOf(CellIn(x, id), CellIn(y, id)))
      && (Has(m, id) <==> LaterOf(CellIn(x, id), CellIn(y, id)).value.Some?)
      && (Has(m, id) ==> OrderIn(m, id) == Counted(x, y, id))
  {
    MergedLayout(t, x, y);
    MergedOrder(t, x, y, id);
  }

  // ---------------------------------------------------------------- three boards

  /** Copies of one board in which each write was written once. */
  ghost predicate Triplet(a: Board, b: Board, c: Board) {
    && Normal(a) && Normal(b) && Normal(c) && a.id == b.id == c.id
    && Agree(a, b) && Agree(b, c) && Agree(a, c)
  }

  /** The order of x, if any, is older than that of y. */
  predicate Older(x: Option<Side<Arranged>>, y: Option<Side<Arranged>>) {
    y.Some? && (x.Some? ==> Later(y.value, x.value))
  }

  /** The third board's order is newer than both others, and still loses to the one their
      merge keeps, because that counts from later than it was arranged. Texts tell apart
      orders that then carry the same time and writer. */
  ghost predicate Overtakes(t: Texts, x: Board, y: Board, third: Board, id: nat) {
    && LaterOf(CellIn(x, id), CellIn(y, id)).value.Some? && Has(third, id)
    && Older(CellIn(x, id).value, CellIn(third, id).value) && Older(CellIn(y, id).value, CellIn(third, id).value)
    && Counted(x, y, id).value != OrderIn(third, id).value
    && (Later(Counted(x, y, id), OrderIn(third, id))
        || (SameWrite(Counted(x, y, id), OrderIn(third, id)) && TextWins(t, Merge(t, x, y), third, id)))
  }

  ghost predicate TextWins(t: Texts, x: Board, y: Board, id: nat) {
    Has(x, id) && Has(y, id) && t.column(Find(x.columns, id).value) > t.column(Find(y.columns, id).value)
  }

  /** One of two boards drops the newest of the three orders. */
  ghost predicate Drops(x: Cell, y: Cell, third: Cell) {
    Forgets(x, y, third) || Forgets(y, x, third)
  }

  /** What an order is, whatever it counts from. */
  function Order(s: Option<Side<Arranged>>): Option<Arranged> {
    if s.Some? then Some(s.value.value) else None
  }

  function NewestOf(x: Cell, y: Cell, z: Cell): Option<Side<Arranged>> {
    Newest(Newest(x.value, y.value), z.value)
  }

  /** Where two boards' merge and a third carry the same layout, they have the same columns. */
  lemma SameWriteHas(t: Texts, x: Board, y: Board, z: Board, id: nat)
    requires Triplet(x, y, z)
    ensures var m := Merge(t, x, y);
      && LayoutsAgree(m, z)
      && (SameWrite(LayoutSide(m), LayoutSide(z)) ==> (Has(m, id) <==> Has(z, id)))
  {
    var m := Merge(t, x, y);
    MergedIsExplicit(t, x, y);
    MergedLayout(t, x, y);
    if SameWrite(LayoutSide(m), LayoutSide(z)) {
      SameLayoutHas(m, z, id);
      SameLayoutHas(z, m, id);
    }
  }

  /** What is left of a column when two boards are merged before the third: the newest order,
      unless it is dropped or overtaken. */
  function Left(x: Cell, y: Cell, z: Cell, overtaken: bool): Option<Arranged> {
    if LaterOf(LaterOf(x, y), z).value.None? then None
    else if overtaken then Order(Newest(x.value, y.value))
    else if LaterOf(x, y).value.None? then Order(z.value)
    else Order(NewestOf(x, y, z))
  }

  lemma GroupedCell(t: Texts, x: Board, y: Board, z: Board, id: nat)
    requires Distinguishes(t) && Triplet(x, y, z)
    ensures Order(CellIn(Merge(t, Merge(t, x, y), z), id).value)
         == Left(CellIn(x, id), CellIn(y, id), CellIn(z, id), Overtakes(t, x, y, z, id))
  {
    var xy := Merge(t, x, y);
    MergedIsExplicit(t, x, y);
    SameWriteHas(t, x, y, z, id);
    MergedCell(t, x, y, id);
    MergedOrder(t, xy, z, id);
    if Has(xy, id) && Has(z, id) {
      TakenOrder(t, x, y, z, id, xy);
    } else {
      CellsAgree(x, y, id);
      CellsAgree(x, z, id);
      CellsAgree(y, z, id);
    }
  }

  /** Of the order two boards' merge keeps and a third one, the newer, unless overtaken. */
  lemma TakenOrder(t: Texts, x: Board, y: Board, z: Board, id: nat, m: Board)
    requires Distinguishes(t) && Triplet(x, y, z) && m == Merge(t, x, y)
    requires Has(m, id) && Has(z, id) && (Has(x, id) || Has(y, id)) && OrderIn(m, id) == Counted(x, y, id)
    requires LaterOf(CellIn(x, id), CellIn(y, id)).value.Some?
    ensures ArrangedIn(PickLatest(SideIn(m, id), SideIn(z, id), t.column).value)
         == if Overtakes(t, x, y, z, id) then Counted(x, y, id).value
            else NewestOf(CellIn(x, id), CellIn(y, id), CellIn(z, id)).value.value
  {
    CellsAgree(x, z, id);
    CellsAgree(y, z, id);
  }

  /** Two boards merged before a third lose the newest of the three orders of a column. */
  ghost predicate Loses(t: Texts, x: Board, y: Board, third: Board, id: nat) {
    Overtakes(t, x, y, third, id) || Drops(CellIn(x, id), CellIn(y, id), CellIn(third, id))
  }

  ghost predicate CellsMatch(x: Cell, y: Cell) {
    && (SameWrite(x, y) ==> (x.value.Some? <==> y.value.Some?))
    && (x.value.Some? && y.value.Some? && SameWrite(x.value.value, y.value.value) ==> x.value == y.value)
  }

  /** An order overtakes only one newer than both merged, and only with another. */
  ghost predicate MayOvertake(x: Cell, y: Cell, third: Cell) {
    && Older(x.value, third.value) && Older(y.value, third.value)
    && LaterOf(x, y).value.Some? && Order(Newest(x.value, y.value)) != Order(third.value)
  }

  lemma LeftSame(a: Cell, b: Cell, c: Cell, first: bool, last: bool)
    requires CellsMatch(a, b) && CellsMatch(b, c) && CellsMatch(a, c)
    requires first ==> MayOvertake(a, b, c)
    requires last ==> MayOvertake(b, c, a)
    ensures Left(a, b, c, first) == Left(b, c, a, last)
        <==> (first || Drops(a, b, c) <==> last || Drops(b, c, a))
  {
  }

  lemma OvertakesApart(t: Texts, x: Board, y: Board, z: Board, id: nat)
    requires Distinguishes(t) && Triplet(x, y, z) && Overtakes(t, x, y, z, id)
    ensures MayOvertake(CellIn(x, id), CellIn(y, id), CellIn(z, id))
  {
    MergedCell(t, x, y, id);
  }

  /** A column is arranged the same in both groupings if and only if both lose its newest
      order or neither does. */
  lemma ColumnGroupings(t: Texts, a: Board, b: Board, c: Board, id: nat)
    requires Distinguishes(t) && Triplet(a, b, c)
    ensures Order(CellIn(Merge(t, Merge(t, a, b), c), id).value) == Order(CellIn(Merge(t, a, Merge(t, b, c)), id).value)
        <==> (Loses(t, a, b, c, id) <==> Loses(t, b, c, a, id))
  {
    MergeCommutes(t, a, Merge(t, b, c));
    GroupedCell(t, a, b, c, id);
    GroupedCell(t, b, c, a, id);
    var first, last := Overtakes(t, a, b, c, id), Overtakes(t, b, c, a, id);
    if first { OvertakesApart(t, a, b, c, id); }
    if last { OvertakesApart(t, b, c, a, id); }
    CellsAgree(a, b, id);
    CellsAgree(b, c, id);
    CellsAgree(a, c, id);
    LeftSame(CellIn(a, id), CellIn(b, id), CellIn(c, id), first, last);
  }

  // ---------------------------------------------------------------- whole boards

  /** The latest layout decides, whatever the grouping. */
  lemma LayoutsAssociate(t: Texts, a: Board, b: Board, c: Board)
    requires Triplet(a, b, c)
    ensures Layout(Merge(t, Merge(t, a, b), c).columns) == Layout(Merge(t, a, Merge(t, b, c)).columns)
  {
    MergedIsExplicit(t, a, b);
    MergedIsExplicit(t, b, c);
    MergedLayout(t, a, b);
    MergedLayout(t, b, c);
    MergedLayout(t, Merge(t, a, b), c);
    MergedLayout(t, a, Merge(t, b, c));
  }

  /** All but the columns groups freely. */
  lemma RestAssociates(t: Texts, a: Board, b: Board, c: Board)
    requires Normal(a) && Normal(b) && Normal(c)
    ensures Merge(t, Merge(t, a, b), c).(columns := []) == Merge(t, a, Merge(t, b, c)).(columns := [])
  {
    SettingsAssociate(t, a, b, c);
  }

  /** Columns are their layout and their orders. */
  lemma SameByOrders(l: Board, r: Board)
    requires DistinctIds(l.columns) && DistinctIds(r.columns) && Layout(l.columns) == Layout(r.columns)
    requires forall id :: Order(CellIn(l, id).value) == Order(CellIn(r, id).value)
    ensures l.columns == r.columns
  {
    var c, d := l.columns, r.columns;
    assert |Layout(c)| == |c| && |Layout(d)| == |d|;
    forall i | 0 <= i < |c| ensures c[i] == d[i] {
      assert Layout(c)[i] == Layout(d)[i];
      assert Order(CellIn(l, c[i].id).value) == Order(CellIn(r, c[i].id).value);
      FindAt(c, i);
      FindAt(d, i);
    }
  }

  /** Three copies of a board merge to the same board in either grouping if and only if, of
      every column, the two groupings both lose its newest order or both keep it. */
  lemma GroupingsAgree(t: Texts, a: Board, b: Board, c: Board)
    requires Distinguishes(t) && Triplet(a, b, c)
    ensures Merge(t, Merge(t, a, b), c) == Merge(t, a, Merge(t, b, c))
        <==> forall id :: Loses(t, a, b, c, id) <==> Loses(t, b, c, a, id)
  {
    var l, r := Merge(t, Merge(t, a, b), c), Merge(t, a, Merge(t, b, c));
    forall id ensures Order(CellIn(l, id).value) == Order(CellIn(r, id).value)
        <==> (Loses(t, a, b, c, id) <==> Loses(t, b, c, a, id))
    {
      ColumnGroupings(t, a, b, c, id);
    }
    LayoutsAssociate(t, a, b, c);
    RestAssociates(t, a, b, c);
    MergedIsExplicit(t, a, b);
    MergedIsExplicit(t, b, c);
    MergedIsExplicit(t, Merge(t, a, b), c);
    MergedIsExplicit(t, a, Merge(t, b, c));
    if forall id :: Loses(t, a, b, c, id) <==> Loses(t, b, c, a, id) {
      SameByOrders(l, r);
    }
  }

  // ---------------------------------------------------------------- when nothing is lost

  ghost predicate AllStamped(b: Board) {
    forall id :: Has(b, id) ==> Stamped(Find(b.columns, id).value)
  }

  /** Only an order nobody stamped overtakes. */
  lemma OnlyUnstamped(t: Texts, x: Board, y: Board, third: Board, id: nat)
    requires AllStamped(x) && AllStamped(y)
    ensures !Overtakes(t, x, y, third, id)
  {
    if Has(x, id) { assert Stamped(Find(x.columns, id).value); }
  }

  ghost predicate SameColumns(x: Board, y: Board) {
    forall id :: Has(x, id) <==> Has(y, id)
  }

  /** Copies with the same columns, each order stamped, group freely. */
  lemma MergeAssociates(t: Texts, a: Board, b: Board, c: Board)
    requires Distinguishes(t) && Triplet(a, b, c)
    requires AllStamped(a) && AllStamped(b) && AllStamped(c)
    requires SameColumns(a, b) && SameColumns(b, c)
    ensures Merge(t, Merge(t, a, b), c) == Merge(t, a, Merge(t, b, c))
  {
    forall id ensures !Loses(t, a, b, c, id) && !Loses(t, b, c, a, id) {
      OnlyUnstamped(t, a, b, c, id);
      OnlyUnstamped(t, b, c, a, id);
    }
    GroupingsAgree(t, a, b, c);
  }

  lemma OneColumn(b: Board, column: Column)
    requires b.columns == [column]
    ensures DistinctIds(b.columns)
    ensures forall id :: Find(b.columns, id) == if id == column.id then Some(column) else None
  {
    forall id ensures Find(b.columns, id) == if id == column.id then Some(column) else None {
      assert b.columns[..0] == [];
    }
  }

  /** A layout that drops a column forgets the order it had: merged with a before c, the order
      of b is gone when c brings the column back. */
  lemma DroppedColumnForgets(t: Texts) returns (a: Board, b: Board, c: Board)
    requires Distinguishes(t)
    ensures Triplet(a, b, c) && AllStamped(a) && AllStamped(b) && AllStamped(c)
    ensures Loses(t, a, b, c, 1) && !Loses(t, b, c, a, 1)
    ensures Merge(t, Merge(t, a, b), c) != Merge(t, a, Merge(t, b, c))
  {
    var zero := Per(0, 0, 0, 0);
    a := Board(1, 1, [], 0, 0, 5, zero, zero);
    b := Board(1, 1, [Column(1, None, [7, 8], Some(9), 1)], 0, 0, 9, Per(3, 3, 3, 3), zero);
    c := Board(1, 1, [Column(1, None, [8, 7], Some(2), 1)], 0, 0, 7, zero, zero);
    OneColumn(b, b.columns[0]);
    OneColumn(c, c.columns[0]);
    assert [8, 7][0] != [7, 8][0];
    GroupingsAgree(t, a, b, c);
  }

  /** With the same columns in all three, an order nobody stamped overtakes: merged first with
      an emptier but later copy, it counts as written after c's. */
  lemma UnstampedOvertakes(t: Texts) returns (a: Board, b: Board, c: Board)
    requires Distinguishes(t)
    ensures Triplet(a, b, c) && SameColumns(a, b) && SameColumns(b, c)
    ensures Layout(a.columns) == Layout(b.columns) == Layout(c.columns)
    ensures Loses(t, a, b, c, 1) && !Loses(t, b, c, a, 1)
    ensures Merge(t, Merge(t, a, b), c) != Merge(t, a, Merge(t, b, c))
  {
    var zero := Per(0, 0, 0, 0);
    a := Board(1, 1, [Column(1, None, [7, 8], None, 0)], 0, 0, 3, zero, zero);
    b := Board(1, 1, [Column(1, None, [], None, 0)], 0, 0, 10, zero, zero);
    c := Board(1, 1, [Column(1, None, [8, 7], Some(5), 1)], 0, 0, 5, zero, zero);
    OneColumn(a, a.columns[0]);
    OneColumn(b, b.columns[0]);
    OneColumn(c, c.columns[0]);
    assert Layout(a.columns) == Layout(b.columns) == Layout(c.columns);
    assert [8, 7][0] != [7, 8][0];
    assert Triplet(a, b, c);
    assert !Older(CellIn(c, 1).value, CellIn(a, 1).value);
    assert Overtakes(t, a, b, c, 1);
    GroupingsAgree(t, a, b, c);
  }
}
