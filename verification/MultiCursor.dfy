/** Editing at many cursors at once. */
module MultiCursor {
  import opened Sequences
  import opened Sorting

  /** A unit of a row's text; some characters take two. */
  type Unit = x: nat | x < 0x1_0000
  type Row = seq<Unit>

  datatype Cursor = Cursor(line: nat, start: nat, end: nat)
  datatype Edit = Insert(text: Row) | DeleteBackward | DeleteForward
  datatype Span = Span(start: nat, end: nat)

  function RowAt(rows: seq<Row>, line: nat): Row { if line < |rows| then rows[line] else [] }

  ghost predicate InRow(rows: seq<Row>, c: Cursor) { c.start <= c.end <= |RowAt(rows, c.line)| }

  // ---------------------------------------------------------------- what a cursor covers

  predicate High(u: Unit) { 0xd800 <= u <= 0xdbff }
  predicate Low(u: Unit) { 0xdc00 <= u <= 0xdfff }

  /** How many units the character before a place takes, and the one after it. */
  function UnitsBefore(row: Row, i: nat): nat
    requires 0 < i <= |row|
  {
    if Low(row[i - 1]) && i > 1 && High(row[i - 2]) then 2 else 1
  }

  function UnitsAt(row: Row, i: nat): nat
    requires i < |row|
  {
    if High(row[i]) && i + 1 < |row| && Low(row[i + 1]) then 2 else 1
  }

  /** The selection, or, for a bare caret, the character a deletion takes. */
  function Widened(row: Row, c: Cursor, edit: Edit): Span
    requires c.start <= c.end <= |row|
  {
    if c.start == c.end && edit.DeleteBackward? && c.start > 0 then Span(c.start - UnitsBefore(row, c.start), c.end)
    else if c.start == c.end && edit.DeleteForward? && c.end < |row| then Span(c.start, c.end + UnitsAt(row, c.end))
    else Span(c.start, c.end)
  }

  function TextOf(edit: Edit): Row { if edit.Insert? then edit.text else [] }

  /** No character is cut in two here. */
  predicate Whole(row: Row, i: nat)
    requires i <= |row|
  {
    !(0 < i < |row| && High(row[i - 1]) && Low(row[i]))
  }

  lemma DeletionKeepsCharacters(row: Row, c: Cursor, edit: Edit)
    requires c.start <= c.end <= |row| && Whole(row, c.start) && Whole(row, c.end)
    ensures var s := Widened(row, c, edit); s.start <= s.end <= |row| && Whole(row, s.start) && Whole(row, s.end)
    ensures c.start == c.end && edit.DeleteBackward? && c.start > 0 ==> Widened(row, c, edit).start < c.start
    ensures c.start == c.end && edit.DeleteForward? && c.end < |row| ==> Widened(row, c, edit).end > c.end
  {
  }

  // ---------------------------------------------------------------- one row

  function Max(a: nat, b: nat): nat { if a >= b then a else b }

  ghost predicate Fit(row: Row, spans: seq<Span>) {
    forall k :: 0 <= k < |spans| ==> spans[k].start <= spans[k].end <= |row|
  }

  ghost predicate Ascending(spans: seq<Span>) {
    forall j, k :: 0 <= j < k < |spans| ==> spans[j].start <= spans[k].start
  }

  /** How far a row has been read after some spans: each starts no earlier than the one
      before it stopped. */
  function ReadTo(spans: seq<Span>, k: nat): nat
    requires k <= |spans|
  {
    if k == 0 then 0 else Max(spans[k - 1].end, Max(spans[k - 1].start, ReadTo(spans, k - 1)))
  }

  function From(spans: seq<Span>, k: nat): nat
    requires k < |spans|
  {
    Max(spans[k].start, ReadTo(spans, k))
  }

  lemma {:induction false} ReadInRow(row: Row, spans: seq<Span>, k: nat)
    requires Fit(row, spans) && k <= |spans|
    ensures ReadTo(spans, k) <= |row| && forall j :: 0 <= j < k ==> spans[j].end <= ReadTo(spans, k)
  {
    if k > 0 { ReadInRow(row, spans, k - 1); }
  }

  /** What the row keeps between a span and the one before it. */
  function Piece(row: Row, spans: seq<Span>, k: nat): Row
    requires Fit(row, spans) && k < |spans|
  {
    ReadInRow(row, spans, k);
    row[ReadTo(spans, k)..From(spans, k)]
  }

  function Woven(row: Row, spans: seq<Span>, text: Row, k: nat): Row
    requires Fit(row, spans) && k <= |spans|
  {
    if k == 0 then [] else Woven(row, spans, text, k - 1) + Piece(row, spans, k - 1) + text
  }

  /** The row after the edit. */
  function NewRow(row: Row, spans: seq<Span>, text: Row): Row
    requires Fit(row, spans)
  {
    ReadInRow(row, spans, |spans|);
    Woven(row, spans, text, |spans|) + row[ReadTo(spans, |spans|)..]
  }

  method WeaveRow(row: Row, spans: seq<Span>, text: Row) returns (next: Row, places: seq<nat>)
    requires Fit(row, spans)
    ensures next == NewRow(row, spans, text) && |places| == |spans|
    ensures forall k :: 0 <= k < |spans| ==> places[k] == |Woven(row, spans, text, k + 1)|
  {
    next, places := [], [];
    var read := 0;
    for k := 0 to |spans|
      invariant read == ReadTo(spans, k) && next == Woven(row, spans, text, k) && |places| == k
      invariant forall j :: 0 <= j < k ==> places[j] == |Woven(row, spans, text, j + 1)|
    {
      ReadInRow(row, spans, k);
      var start := Max(spans[k].start, read);
      var end := Max(spans[k].end, start);
      next := next + row[read..start] + text;
      read := end;
      places := places + [|next|];
    }
    ReadInRow(row, spans, |spans|);
    next := next + row[read..];
  }

  // ---------------------------------------------------------------- what stays of a row

  predicate Covered(spans: seq<Span>, i: nat) {
    exists k :: 0 <= k < |spans| && spans[k].start <= i < spans[k].end
  }

  /** The characters of a stretch of the row that no span covers. */
  function Outside(row: Row, spans: seq<Span>, from: nat, until: nat): Row
    requires from <= until <= |row|
    decreases until - from
  {
    if from == until then []
    else Outside(row, spans, from, until - 1) + if Covered(spans, until - 1) then [] else [row[until - 1]]
  }

  lemma {:induction false} OutsideSplits(row: Row, spans: seq<Span>, from: nat, mid: nat, until: nat)
    requires from <= mid <= until <= |row|
    ensures Outside(row, spans, from, until) == Outside(row, spans, from, mid) + Outside(row, spans, mid, until)
    decreases until - mid
  {
    if mid < until { OutsideSplits(row, spans, from, mid, until - 1); }
  }

  lemma {:induction false} OutsideAll(row: Row, spans: seq<Span>, from: nat, until: nat)
    requires from <= until <= |row| && forall i: nat :: from <= i < until ==> !Covered(spans, i)
    ensures Outside(row, spans, from, until) == row[from..until]
    decreases until - from
  {
    if from < until {
      OutsideAll(row, spans, from, until - 1);
      assert row[from..until - 1] + [row[until - 1]] == row[from..until];
    }
  }

  lemma {:induction false} OutsideNone(row: Row, spans: seq<Span>, from: nat, until: nat)
    requires from <= until <= |row| && forall i: nat :: from <= i < until ==> Covered(spans, i)
    ensures Outside(row, spans, from, until) == []
    decreases until - from
  {
    if from < until { OutsideNone(row, spans, from, until - 1); }
  }

  /** Where the stretch before the `k`-th span begins: at the start of the span before it. */
  function StartBefore(spans: seq<Span>, k: nat): nat
    requires k <= |spans|
  {
    if k == 0 then 0 else spans[k - 1].start
  }

  /** What no span covers from the start of one span to the start of the next, or to the row's end. */
  function Gap(row: Row, spans: seq<Span>, k: nat): Row
    requires Fit(row, spans) && Ascending(spans) && k <= |spans|
  {
    Outside(row, spans, StartBefore(spans, k), if k < |spans| then spans[k].start else |row|)
  }

  /** The first `k` gaps, each followed by the text. */
  function Interleaved(row: Row, spans: seq<Span>, text: Row, k: nat): Row
    requires Fit(row, spans) && Ascending(spans) && k <= |spans|
  {
    if k == 0 then [] else Interleaved(row, spans, text, k - 1) + Gap(row, spans, k - 1) + text
  }

  /** Up to where the row has been read, every place from the last start on is covered. */
  lemma {:induction false} CoveredTo(row: Row, spans: seq<Span>, k: nat, i: nat)
    requires Fit(row, spans) && Ascending(spans) && k <= |spans| && StartBefore(spans, k) <= i < ReadTo(spans, k)
    ensures Covered(spans, i)
  {
    if spans[k - 1].start <= i < spans[k - 1].end {
    } else {
      CoveredTo(row, spans, k - 1, i);
    }
  }

  lemma NotCovered(row: Row, spans: seq<Span>, k: nat, i: nat)
    requires Fit(row, spans) && Ascending(spans) && k <= |spans| && ReadTo(spans, k) <= i
    requires k < |spans| ==> i < spans[k].start
    ensures !Covered(spans, i)
  {
    ReadInRow(row, spans, k);
    forall j | 0 <= j < |spans| ensures !(spans[j].start <= i < spans[j].end) {
      if j < k { assert spans[j].end <= ReadTo(spans, k); } else { assert spans[k].start <= spans[j].start; }
    }
  }

  /** A gap is what the row has unread up to the next start. */
  lemma GapIsUnread(row: Row, spans: seq<Span>, k: nat, until: nat)
    requires Fit(row, spans) && Ascending(spans) && k <= |spans|
        && until == if k < |spans| then spans[k].start else |row|
    ensures ReadTo(spans, k) <= |row| && Gap(row, spans, k) == row[ReadTo(spans, k)..Max(until, ReadTo(spans, k))]
  {
    var from, read := StartBefore(spans, k), ReadTo(spans, k);
    ReadInRow(row, spans, k);
    var mid := if read < until then Max(read, from) else until;
    forall i: nat | from <= i < mid ensures Covered(spans, i) { CoveredTo(row, spans, k, i); }
    OutsideSplits(row, spans, from, mid, until);
    OutsideNone(row, spans, from, mid);
    forall i: nat | mid <= i < until ensures !Covered(spans, i) { NotCovered(row, spans, k, i); }
    OutsideAll(row, spans, mid, until);
  }

  lemma {:induction false} WovenIsInterleaved(row: Row, spans: seq<Span>, text: Row, k: nat)
    requires Fit(row, spans) && Ascending(spans) && k <= |spans|
    ensures Woven(row, spans, text, k) == Interleaved(row, spans, text, k)
  {
    if k > 0 {
      WovenIsInterleaved(row, spans, text, k - 1);
      GapIsUnread(row, spans, k - 1, spans[k - 1].start);
    }
  }

  lemma {:induction false} GapsAreOutside(row: Row, spans: seq<Span>, text: Row, k: nat)
    requires Fit(row, spans) && Ascending(spans) && k <= |spans|
    ensures StartBefore(spans, k) <= |row|
    ensures Interleaved(row, spans, [], k) == Outside(row, spans, 0, StartBefore(spans, k))
    ensures |Interleaved(row, spans, text, k)| == |Interleaved(row, spans, [], k)| + k * |text|
  {
    if k > 0 {
      GapsAreOutside(row, spans, text, k - 1);
      OutsideSplits(row, spans, 0, StartBefore(spans, k - 1), spans[k - 1].start);
      assert k * |text| == (k - 1) * |text| + |text|;
    }
  }

  /** The edited row is, for each span in turn, what no span covers up to its start, then the
      text; and at the end what no span covers from the last start on. So nothing outside the
      spans is lost, moved or repeated, and nothing inside them stays. */
  lemma RowKeepsWhatIsOutside(row: Row, spans: seq<Span>, text: Row)
    requires Fit(row, spans) && Ascending(spans)
    ensures NewRow(row, spans, text) == Interleaved(row, spans, text, |spans|) + Gap(row, spans, |spans|)
    ensures NewRow(row, spans, []) == Outside(row, spans, 0, |row|)
    ensures |NewRow(row, spans, text)| == |Outside(row, spans, 0, |row|)| + |spans| * |text|
  {
    var n := |spans|;
    WovenIsInterleaved(row, spans, text, n);
    WovenIsInterleaved(row, spans, [], n);
    GapIsUnread(row, spans, n, |row|);
    GapsAreOutside(row, spans, text, n);
    OutsideSplits(row, spans, 0, StartBefore(spans, n), |row|);
  }

  // ---------------------------------------------------------------- the simple form

  function Take(row: Row, i: nat): Row { if i <= |row| then row[..i] else row }

  function Drop(row: Row, i: nat): Row { if i <= |row| then row[i..] else [] }

  /** Each span replaced in turn, the last first. */
  function RightToLeft(row: Row, spans: seq<Span>, text: Row): Row
    decreases |spans|
  {
    if spans == [] then row
    else
      var last := spans[|spans| - 1];
      RightToLeft(Take(row, last.start) + text + Drop(row, last.end), spans[..|spans| - 1], text)
  }

  /** Spans in the order in which a stable sort by descending start leaves them, turned
      round. */
  ghost predicate Sorts(matches: seq<Span>, order: seq<nat>) {
    && Distinct(order) && (forall i: nat :: i in order <==> i < |matches|)
    && (forall k :: 0 <= k < |order| ==> order[k] < |matches|)
    && forall j, k :: 0 <= j < k < |order| ==> Precedes(matches, order[j], order[k])
  }

  predicate Precedes(matches: seq<Span>, a: nat, b: nat) {
    && a < |matches| && b < |matches|
    && (matches[a].start < matches[b].start || (matches[a].start == matches[b].start && a > b))
  }

  function Picked(matches: seq<Span>, order: seq<nat>): seq<Span>
    requires forall k :: 0 <= k < |order| ==> order[k] < |matches|
  {
    seq(|order|, k requires 0 <= k < |order| => matches[order[k]])
  }

  method SortByStart(matches: seq<Span>) returns (order: seq<nat>)
    ensures Sorts(matches, order)
  {
    var indexes: seq<nat> := seq(|matches|, i requires 0 <= i => i);
    order := Sort<nat>(indexes, (a: nat, b: nat) => Precedes(matches, a, b));
    forall i: nat ensures i in order <==> i < |matches| {
      if i < |matches| { assert indexes[i] == i; }
    }
    forall k | 0 <= k < |order| ensures order[k] < |matches| { assert order[k] in order; }
  }

  method ReplaceInRow(row: Row, matches: seq<Span>, replacement: Row) returns (next: Row, ghost order: seq<nat>)
    ensures Sorts(matches, order) && next == RightToLeft(row, Picked(matches, order), replacement)
  {
    var ascending := SortByStart(matches);
    order := ascending;
    next := row;
    var k := |ascending|;
    ghost var spans := Picked(matches, order);
    assert spans[..k] == spans;
    while k > 0
      invariant 0 <= k <= |spans| && RightToLeft(next, spans[..k], replacement) == RightToLeft(row, spans, replacement)
    {
      k := k - 1;
      var m := matches[ascending[k]];
      assert spans[..k + 1][..k] == spans[..k];
      next := Take(next, m.start) + replacement + Drop(next, m.end);
    }
  }

  ghost predicate Apart(spans: seq<Span>) {
    forall j, k :: 0 <= j < k < |spans| ==> spans[j].end <= spans[k].start
  }

  lemma {:induction false} ReadOfApart(row: Row, spans: seq<Span>, k: nat)
    requires Fit(row, spans) && Apart(spans) && k <= |spans|
    ensures ReadTo(spans, k) == if k == 0 then 0 else spans[k - 1].end
  {
    if k > 0 { ReadOfApart(row, spans, k - 1); }
  }

  lemma {:induction false} ReadOfPrefix(spans: seq<Span>, init: seq<Span>, k: nat)
    requires k <= |init| <= |spans| && init == spans[..|init|]
    ensures ReadTo(spans, k) == ReadTo(init, k)
  {
    if k > 0 { ReadOfPrefix(spans, init, k - 1); }
  }

  lemma SameStretch(row: Row, other: Row, upTo: nat, i: nat, j: nat)
    requires i <= j <= upTo <= |row| && upTo <= |other| && row[..upTo] == other[..upTo]
    ensures row[i..j] == other[i..j]
  {
    assert row[..upTo][i..j] == row[i..j] && other[..upTo][i..j] == other[i..j];
  }

  /** Reading a row only up to a place does not depend on what follows it. */
  lemma {:induction false} WovenOfPrefix(row: Row, other: Row, spans: seq<Span>, init: seq<Span>, text: Row, upTo: nat,
                                         k: nat)
    requires Fit(row, spans) && Fit(other, init) && k <= |init| <= |spans| && init == spans[..|init|]
    requires upTo <= |row| && upTo <= |other| && row[..upTo] == other[..upTo]
    requires forall j :: 0 <= j < k ==> spans[j].end <= upTo
    ensures ReadTo(spans, k) <= upTo && Woven(row, spans, text, k) == Woven(other, init, text, k)
  {
    if k > 0 {
      WovenOfPrefix(row, other, spans, init, text, upTo, k - 1);
      assert Piece(row, spans, k - 1) == Piece(other, init, k - 1) by {
        ReadOfPrefix(spans, init, k - 1);
        var read, from := ReadTo(spans, k - 1), From(spans, k - 1);
        assert init[k - 1] == spans[k - 1] && spans[k - 1].start <= upTo;
        SameStretch(row, other, upTo, read, from);
      }
      assert spans[k - 1].start <= spans[k - 1].end;
    }
  }

  /** Where spans keep apart, weaving a row in one pass gives what replacing them one by one
      from the right gives. */
  lemma {:induction false} WeavesLikeReplacing(row: Row, spans: seq<Span>, text: Row)
    requires Fit(row, spans) && Apart(spans)
    ensures NewRow(row, spans, text) == RightToLeft(row, spans, text)
    decreases |spans|
  {
    if spans != [] {
      var n := |spans| - 1;
      var last, init := spans[n], spans[..n];
      var next := row[..last.start] + text + row[last.end..];
      assert Fit(next, init) && Apart(init);
      WeavesLikeReplacing(next, init, text);
      LastSpanFirst(row, spans, text, next);
    }
  }

  lemma LastSpanFirst(row: Row, spans: seq<Span>, text: Row, next: Row)
    requires Fit(row, spans) && Apart(spans) && spans != []
    requires var last := spans[|spans| - 1]; next == row[..last.start] + text + row[last.end..]
    requires Fit(next, spans[..|spans| - 1])
    ensures NewRow(next, spans[..|spans| - 1], text) == NewRow(row, spans, text)
  {
    var n := |spans| - 1;
    var last, init := spans[n], spans[..n];
    ReadInRow(next, init, n);
    ReadInRow(row, spans, n);
    ReadOfApart(row, spans, n);
    ReadOfApart(row, spans, n + 1);
    WovenOfPrefix(row, next, spans, init, text, last.start, n);
    ReadOfPrefix(spans, init, n);
    RestOfNext(row, last.start, text, last.end, ReadTo(spans, n));
    Regroup(Woven(row, spans, text, n), row[ReadTo(spans, n)..last.start], text, row[last.end..]);
  }

  lemma RestOfNext(row: Row, start: nat, text: Row, end: nat, read: nat)
    requires read <= start <= end <= |row|
    ensures (row[..start] + text + row[end..])[read..] == row[read..start] + text + row[end..]
  {
  }
}
