/** Boards: every setting is last-write-wins on its own time, and every column's card order
    on its own. */
module Kanban {
  import opened Wrappers
  import opened Tombstones

  /** A missing writer is the smallest, 0; a missing field time is 0. Texts stand for
      themselves as numbers in their order. */
  datatype Column = Column(id: nat, labelId: Option<nat>, order: seq<nat>, orderedAt: Option<int>, orderWriter: nat)

  datatype Per<T> = Per(name: T, backlogFilter: T, noteFilter: T, columns: T)

  datatype Board = Board(id: nat, name: nat, columns: seq<Column>, backlogFilter: nat, noteFilter: nat,
                         updatedAt: int, fieldTimes: Per<int>, fieldWriters: Per<nat>)

  /** The stable text of a column and of a board, by which equal times and writers are told
      apart. */
  datatype Texts = Texts(column: Column -> int, board: Board -> int)

  ghost predicate Distinguishes(t: Texts) {
    && (forall c, d :: t.column(c) == t.column(d) ==> c == d)
    && (forall b, c :: t.board(b) == t.board(c) ==> b == c)
  }

  datatype Side<T> = Side(value: T, time: int, writer: nat)

  function PickLatest<T>(left: Side<T>, right: Side<T>, text: T -> int): Side<T> {
    if left.time != right.time then (if left.time > right.time then left else right)
    else if left.writer != right.writer then (if left.writer > right.writer then left else right)
    else if text(left.value) >= text(right.value) then left
    else right
  }

  function Itself(value: nat): int { value }

  function TimeOr(time: int, updatedAt: int): int {
    if time != 0 then time else updatedAt
  }

  function FieldTimes(b: Board): Per<int> {
    Per(TimeOr(b.fieldTimes.name, b.updatedAt), TimeOr(b.fieldTimes.backlogFilter, b.updatedAt),
        TimeOr(b.fieldTimes.noteFilter, b.updatedAt), TimeOr(b.fieldTimes.columns, b.updatedAt))
  }

  /** An empty order nobody arranged is no opinion. */
  function OrderTime(c: Column, b: Board): int {
    if c.orderedAt.Some? then c.orderedAt.value else if c.order != [] then b.updatedAt else 0
  }

  /** The column filed under an id; a later one hides an earlier. */
  function Find(columns: seq<Column>, id: nat): Option<Column> {
    if columns == [] then None
    else if columns[|columns| - 1].id == id then Some(columns[|columns| - 1])
    else Find(columns[..|columns| - 1], id)
  }

  // ---------------------------------------------------------------- merging

  function OrderSide(c: Column, b: Board): Side<Column> {
    Side(c, OrderTime(c, b), c.orderWriter)
  }

  /** A column of the winning layout, with whichever copy's card order is newer. */
  function MergeColumn(t: Texts, column: Column, board: Board, other: Board): Column {
    match Find(other.columns, column.id)
    case None => column
    case Some(copy) =>
      var arranged := PickLatest(OrderSide(column, board), OrderSide(copy, other), t.column).value;
      Column(column.id, column.labelId, arranged.order, arranged.orderedAt, arranged.orderWriter)
  }

  function NameSide(b: Board): Side<nat> { Side(b.name, FieldTimes(b).name, b.fieldWriters.name) }

  function BacklogSide(b: Board): Side<nat> {
    Side(b.backlogFilter, FieldTimes(b).backlogFilter, b.fieldWriters.backlogFilter)
  }

  function NoteSide(b: Board): Side<nat> { Side(b.noteFilter, FieldTimes(b).noteFilter, b.fieldWriters.noteFilter) }

  function LayoutSide(b: Board): Side<Board> { Side(b, FieldTimes(b).columns, b.fieldWriters.columns) }

  function MergeColumns(t: Texts, layout: Board, other: Board): seq<Column> {
    seq(|layout.columns|, i requires 0 <= i < |layout.columns| => MergeColumn(t, layout.columns[i], layout, other))
  }

  function Merge(t: Texts, left: Board, right: Board): Board {
    var name := PickLatest(NameSide(left), NameSide(right), Itself);
    var backlogFilter := PickLatest(BacklogSide(left), BacklogSide(right), Itself);
    var noteFilter := PickLatest(NoteSide(left), NoteSide(right), Itself);
    var layout := PickLatest(LayoutSide(left), LayoutSide(right), t.board);
    var other := if layout.value == left then right else left;
    Board(left.id, name.value, MergeColumns(t, layout.value, other), backlogFilter.value, noteFilter.value,
          if left.updatedAt >= right.updatedAt then left.updatedAt else right.updatedAt,
          Per(name.time, backlogFilter.time, noteFilter.time, layout.time),
          Per(name.writer, backlogFilter.writer, noteFilter.writer, layout.writer))
  }

  method MergeTwoBoards(t: Texts, left: Board, right: Board) returns (merged: Board)
    ensures merged == Merge(t, left, right)
  {
    var name := PickLatest(NameSide(left), NameSide(right), Itself);
    var backlogFilter := PickLatest(BacklogSide(left), BacklogSide(right), Itself);
    var noteFilter := PickLatest(NoteSide(left), NoteSide(right), Itself);
    var layout := PickLatest(LayoutSide(left), LayoutSide(right), t.board);
    var other := if layout.value == left then right else left;
    var byId: map<nat, Column> := map[];
    for n := 0 to |other.columns|
      invariant forall id :: id in byId <==> Find(other.columns[..n], id).Some?
      invariant forall id :: id in byId ==> Find(other.columns[..n], id) == Some(byId[id])
    {
      assert other.columns[..n + 1][..n] == other.columns[..n];
      byId := byId[other.columns[n].id := other.columns[n]];
    }
    assert other.columns[..|other.columns|] == other.columns;
    var columns: seq<Column> := [];
    for n := 0 to |layout.value.columns|
      invariant |columns| == n
      invariant forall i :: 0 <= i < n ==> columns[i] == MergeColumn(t, layout.value.columns[i], layout.value, other)
    {
      var column := layout.value.columns[n];
      if column.id in byId {
        var copy := byId[column.id];
        var arranged := PickLatest(OrderSide(column, layout.value), OrderSide(copy, other), t.column).value;
        columns := columns + [Column(column.id, column.labelId, arranged.order, arranged.orderedAt,
          arranged.orderWriter)];
      } else {
        columns := columns + [column];
      }
    }
    merged := Board(left.id, name.value, columns, backlogFilter.value, noteFilter.value,
                    if left.updatedAt >= right.updatedAt then left.updatedAt else right.updatedAt,
                    Per(name.time, backlogFilter.time, noteFilter.time, layout.time),
                    Per(name.writer, backlogFilter.writer, noteFilter.writer, layout.writer));
    assert columns == MergeColumns(t, layout.value, other);
  }

  // ---------------------------------------------------------------- editing

  function Max(a: int, b: int): int { if a >= b then a else b }

  /** The column set and sequence, without card order. */
  function Layout(columns: seq<Column>): seq<(nat, Option<nat>)> {
    seq(|columns|, i requires 0 <= i < |columns| => (columns[i].id, columns[i].labelId))
  }

  function EditColumn(column: Column, previous: Board, at: int, writer: nat): Column {
    var earlier := Find(previous.columns, column.id);
    if column.order == (if earlier.Some? then earlier.value.order else []) then column
    else column.(orderedAt := Some(Max(at, (if earlier.Some? then OrderTime(earlier.value, previous) else 0) + 1)),
                 orderWriter := writer)
  }

  function EditColumns(columns: seq<Column>, previous: Board, at: int, writer: nat): seq<Column> {
    seq(|columns|, i requires 0 <= i < |columns| => EditColumn(columns[i], previous, at, writer))
  }

  predicate OrderChanged(column: Column, previous: Board) {
    var earlier := Find(previous.columns, column.id);
    column.order != if earlier.Some? then earlier.value.order else []
  }

  predicate Changed(previous: Board, next: Board) {
    || next.name != previous.name || next.backlogFilter != previous.backlogFilter
    || next.noteFilter != previous.noteFilter || Layout(next.columns) != Layout(previous.columns)
    || exists i :: 0 <= i < |next.columns| && OrderChanged(next.columns[i], previous)
  }

  function StampIf(changed: bool, at: int, time: int): int {
    if changed then Max(at, time + 1) else time
  }

  function EditTimes(previous: Board, next: Board, at: int): Per<int> {
    var times := FieldTimes(previous);
    Per(StampIf(next.name != previous.name, at, times.name),
        StampIf(next.backlogFilter != previous.backlogFilter, at, times.backlogFilter),
        StampIf(next.noteFilter != previous.noteFilter, at, times.noteFilter),
        StampIf(Layout(next.columns) != Layout(previous.columns), at, times.columns))
  }

  function EditWriters(previous: Board, next: Board, writer: nat): Per<nat> {
    Per(if next.name != previous.name then writer else previous.fieldWriters.name,
        if next.backlogFilter != previous.backlogFilter then writer else previous.fieldWriters.backlogFilter,
        if next.noteFilter != previous.noteFilter then writer else previous.fieldWriters.noteFilter,
        if Layout(next.columns) != Layout(previous.columns) then writer else previous.fieldWriters.columns)
  }

  function Latest(times: Per<int>): int {
    Max(Max(times.name, times.backlogFilter), Max(times.noteFilter, times.columns))
  }

  /** The board after an edit: what changed is stamped, what did not keeps its time. */
  function Edited(previous: Board, next: Board, at: int, writer: nat): Board {
    if !Changed(previous, next) then previous
    else
      var times := EditTimes(previous, next, at);
      next.(columns := EditColumns(next.columns, previous, at, writer),
            updatedAt := Max(Max(at, previous.updatedAt + 1), Latest(times)),
            fieldTimes := times, fieldWriters := EditWriters(previous, next, writer))
  }

  method ApplyBoardEdit(previous: Board, next: Board, at: int, writer: nat) returns (edited: Board)
    ensures edited == Edited(previous, next, at, writer)
  {
    var times, writers, changed := FieldTimes(previous), previous.fieldWriters, false;
    if next.name != previous.name {
      times, writers, changed := times.(name := Max(at, times.name + 1)), writers.(name := writer), true;
    }
    if next.backlogFilter != previous.backlogFilter {
      times, writers := times.(backlogFilter := Max(at, times.backlogFilter + 1)), writers.(backlogFilter := writer);
      changed := true;
    }
    if next.noteFilter != previous.noteFilter {
      times, writers := times.(noteFilter := Max(at, times.noteFilter + 1)), writers.(noteFilter := writer);
      changed := true;
    }
    if Layout(next.columns) != Layout(previous.columns) {
      times, writers, changed := times.(columns := Max(at, times.columns + 1)), writers.(columns := writer), true;
    }
    var columns, settings := [], changed;
    for n := 0 to |next.columns|
      invariant columns == EditColumns(next.columns[..n], previous, at, writer)
      invariant changed <==> settings || exists i :: 0 <= i < n && OrderChanged(next.columns[i], previous)
    {
      var column := next.columns[n];
      var earlier := Find(previous.columns, column.id);
      if column.order != if earlier.Some? then earlier.value.order else [] {
        assert OrderChanged(column, previous);
        changed := true;
        var after := if earlier.Some? then OrderTime(earlier.value, previous) else 0;
        column := column.(orderedAt := Some(Max(at, after + 1)), orderWriter := writer);
      }
      columns := columns + [column];
    }
    assert next.columns[..|next.columns|] == next.columns;
    if !changed { return previous; }
    edited := next.(columns := columns, updatedAt := Max(Max(at, previous.updatedAt + 1), Latest(times)),
                    fieldTimes := times, fieldWriters := writers);
  }

  // ---------------------------------------------------------------- all boards

  /** One copy of a board, or the merge of two. */
  function MergeCopies(t: Texts, local: Option<Board>, remote: Option<Board>): Option<Board> {
    if local.None? then remote
    else if remote.None? then local
    else Some(Merge(t, local.value, remote.value))
  }

  function Filed(boards: seq<Board>, id: nat): Option<Board> {
    if boards == [] then None
    else if boards[|boards| - 1].id == id then Some(boards[|boards| - 1])
    else Filed(boards[..|boards| - 1], id)
  }

  ghost predicate DistinctBoards(boards: seq<Board>) {
    forall i, j :: 0 <= i < j < |boards| ==> boards[i].id != boards[j].id
  }

  /** All copies of a board, merged as they are met. */
  function Copies(t: Texts, local: seq<Board>, remote: seq<Board>, id: nat): Option<Board> {
    if remote == [] then Filed(local, id)
    else
      var before, last := Copies(t, local, remote[..|remote| - 1], id), remote[|remote| - 1];
      if last.id == id then MergeCopies(t, before, Some(last)) else before
  }

  /** The board merged under an id, unless deleted since. */
  function MergedUnder(t: Texts, local: seq<Board>, remote: seq<Board>, tombstones: Deletions,
                       id: nat): Option<Board> {
    var m := Copies(t, local, remote, id);
    if m.Some? && m.value.updatedAt > DeletedAt(tombstones, id) then m else None
  }

  lemma {:induction false} FiledUnder(boards: seq<Board>, id: nat)
    ensures Filed(boards, id).Some? ==> Filed(boards, id).value.id == id
  {
    if boards != [] { FiledUnder(boards[..|boards| - 1], id); }
  }

  method MergeKanbanBoards(t: Texts, local: seq<Board>, remote: seq<Board>, tombstones: Deletions)
    returns (merged: seq<Board>)
    ensures forall id :: Filed(merged, id) == MergedUnder(t, local, remote, tombstones, id)
    ensures DistinctBoards(merged)
  {
    var byId: map<nat, Board>, order: seq<nat> := map[], [];
    for n := 0 to |local|
      invariant forall id :: (if id in byId then Some(byId[id]) else None) == Filed(local[..n], id)
      invariant InOrder(order, byId)
    {
      assert local[..n + 1][..n] == local[..n];
      if local[n].id !in byId { order := order + [local[n].id]; }
      byId := byId[local[n].id := local[n]];
    }
    assert local[..|local|] == local;
    for n := 0 to |remote|
      invariant forall id :: (if id in byId then Some(byId[id]) else None) == Copies(t, local, remote[..n], id)
      invariant InOrder(order, byId)
    {
      var board := remote[n];
      assert remote[..n + 1][..n] == remote[..n];
      if board.id in byId {
        var m := MergeTwoBoards(t, byId[board.id], board);
        byId := byId[board.id := m];
      } else {
        order, byId := order + [board.id], byId[board.id := board];
      }
    }
    assert remote[..|remote|] == remote;
    merged := Living(order, byId, tombstones);
  }

  /** The ids filed, each once, in the order in which they were met. */
  ghost predicate InOrder(order: seq<nat>, byId: map<nat, Board>) {
    && (forall i, j :: 0 <= i < j < |order| ==> order[i] != order[j])
    && (forall id :: id in byId <==> id in order)
    && (forall id :: id in byId ==> byId[id].id == id)
  }

  function Alive(byId: map<nat, Board>, tombstones: Deletions, id: nat): Option<Board> {
    if id in byId && byId[id].updatedAt > DeletedAt(tombstones, id) then Some(byId[id]) else None
  }

  method Living(order: seq<nat>, byId: map<nat, Board>, tombstones: Deletions) returns (living: seq<Board>)
    requires InOrder(order, byId)
    ensures DistinctBoards(living)
    ensures forall id :: Filed(living, id) == Alive(byId, tombstones, id)
  {
    living := [];
    for n := 0 to |order|
      invariant DistinctBoards(living)
      invariant forall i :: 0 <= i < |living| ==> living[i].id in order[..n]
      invariant forall id :: Filed(living, id) == if id in order[..n] then Alive(byId, tombstones, id) else None
    {
      var id := order[n];
      assert order[..n + 1] == order[..n] + [id];
      if byId[id].updatedAt > DeletedAt(tombstones, id) {
        var longer := living + [byId[id]];
        assert longer[..|living|] == living;
        living := longer;
      }
    }
    assert order[..|order|] == order;
  }
}
