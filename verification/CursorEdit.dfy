/** One edit applied at every cursor of a note. */
module CursorEdit {
  import opened Sorting
  import opened MultiCursor

  ghost predicate AllInRow(rows: seq<Row>, cursors: seq<Cursor>) {
    forall i :: 0 <= i < |cursors| ==> InRow(rows, cursors[i])
  }

  function SpanOf(rows: seq<Row>, cursors: seq<Cursor>, edit: Edit, i: nat): (s: Span)
    requires i < |cursors| && AllInRow(rows, cursors)
    ensures s.start <= s.end <= |RowAt(rows, cursors[i].line)|
  {
    Widened(RowAt(rows, cursors[i].line), cursors[i], edit)
  }

  /** Earlier spans first, and of those that start alike the one given first. */
  predicate Earlier(spans: seq<Span>, a: nat, b: nat) {
    && a < |spans| && b < |spans|
    && (spans[a].start < spans[b].start || (spans[a].start == spans[b].start && a < b))
  }

  /** The cursors of a line in the order in which they are worked off. */
  ghost predicate IsOrder(cursors: seq<Cursor>, spans: seq<Span>, line: nat, order: seq<nat>) {
    && (forall i: nat :: i in order <==> i < |cursors| && cursors[i].line == line)
    && (forall j, k :: 0 <= j < k < |order| ==> Earlier(spans, order[j], order[k]))
  }

  function Chosen(spans: seq<Span>, order: seq<nat>): seq<Span> {
    seq(|order|, k requires 0 <= k < |order| => if order[k] < |spans| then spans[order[k]] else Span(0, 0))
  }

  /** The row's edit: what it becomes, and where each of its carets ends up. */
  ghost predicate LineEdited(row: Row, line: nat, spans: seq<Span>, order: seq<nat>, text: Row, changed: map<nat, Row>,
                             placed: seq<Cursor>)
  {
    && Fit(row, Chosen(spans, order))
    && var next := NewRow(row, Chosen(spans, order), text);
    && (line in changed <==> next != row) && (line in changed ==> changed[line] == next)
    && forall k :: 0 <= k < |order| ==>
         var at := |Woven(row, Chosen(spans, order), text, k + 1)|;
         order[k] < |placed| && placed[order[k]] == Cursor(line, at, at)
  }

  ghost predicate SpansOf(rows: seq<Row>, cursors: seq<Cursor>, edit: Edit, spans: seq<Span>) {
    && |spans| == |cursors| && AllInRow(rows, cursors)
    && forall i :: 0 <= i < |cursors| ==> spans[i] == SpanOf(rows, cursors, edit, i)
  }

  ghost predicate Grouped(cursors: seq<Cursor>, n: nat, byLine: map<nat, seq<nat>>) {
    && n <= |cursors|
    && (forall line :: line in byLine ==> Distinct(byLine[line]))
    && (forall line, k :: line in byLine && 0 <= k < |byLine[line]| ==>
      byLine[line][k] < n && cursors[byLine[line][k]].line == line)
    && (forall i :: 0 <= i < n ==> cursors[i].line in byLine && i in byLine[cursors[i].line])
    && (forall line :: line in byLine ==> byLine[line] != [])
  }

  function Listed(byLine: map<nat, seq<nat>>, line: nat): seq<nat> { if line in byLine then byLine[line] else [] }

  lemma GroupedMore(cursors: seq<Cursor>, n: nat, byLine: map<nat, seq<nat>>, after: map<nat, seq<nat>>)
    requires Grouped(cursors, n, byLine) && n < |cursors|
    requires after == byLine[cursors[n].line := Listed(byLine, cursors[n].line) + [n]]
    ensures Grouped(cursors, n + 1, after)
  {
    var line := cursors[n].line;
    var listed := Listed(byLine, line);
    forall l, k | l in after && 0 <= k < |after[l]| ensures after[l][k] < n + 1 && cursors[after[l][k]].line == l {
      if l != line || k < |listed| { assert l in byLine && after[l][k] == byLine[l][k]; }
    }
    assert Distinct(after[line]) by {
      if line in byLine { assert Distinct(byLine[line]); }
    }
    forall i | 0 <= i < n + 1 ensures cursors[i].line in after && i in after[cursors[i].line] {
      if i < n {
        assert cursors[i].line in byLine && i in byLine[cursors[i].line];
      } else {
        assert (listed + [n])[|listed|] == n;
      }
    }
  }

  method GroupByLine(cursors: seq<Cursor>) returns (byLine: map<nat, seq<nat>>)
    ensures Grouped(cursors, |cursors|, byLine)
  {
    byLine := map[];
    for n := 0 to |cursors|
      invariant Grouped(cursors, n, byLine)
    {
      var line := cursors[n].line;
      ghost var before := byLine;
      byLine := byLine[line := Listed(byLine, line) + [n]];
      GroupedMore(cursors, n, before, byLine);
    }
  }

  method OrderLine(cursors: seq<Cursor>, spans: seq<Span>, line: nat, indexes: seq<nat>) returns (order: seq<nat>)
    requires |spans| == |cursors| && Distinct(indexes)
    requires forall i: nat :: i in indexes <==> i < |cursors| && cursors[i].line == line
    ensures IsOrder(cursors, spans, line, order)
  {
    order := Sort<nat>(indexes, (a: nat, b: nat) => Earlier(spans, a, b));
    forall j, k | 0 <= j < k < |order| ensures Earlier(spans, order[j], order[k]) {
    }
  }

  lemma OrderFits(rows: seq<Row>, cursors: seq<Cursor>, edit: Edit, spans: seq<Span>, line: nat, order: seq<nat>)
    requires SpansOf(rows, cursors, edit, spans) && IsOrder(cursors, spans, line, order)
    ensures Fit(RowAt(rows, line), Chosen(spans, order)) && Ascending(Chosen(spans, order))
    ensures forall k :: 0 <= k < |order| ==> order[k] < |spans|
  {
    forall k | 0 <= k < |order| ensures order[k] < |spans| && cursors[order[k]].line == line {
      assert order[k] in order;
    }
  }

  method EditLine(rows: seq<Row>, cursors: seq<Cursor>, ghost edit: Edit, spans: seq<Span>, line: nat,
                  indexes: seq<nat>, text: Row,
                  changed: map<nat, Row>, placed: seq<Cursor>)
    returns (newChanged: map<nat, Row>, newPlaced: seq<Cursor>, ghost order: seq<nat>)
    requires SpansOf(rows, cursors, edit, spans) && |placed| == |cursors| && line !in changed && Distinct(indexes)
    requires forall i: nat :: i in indexes <==> i < |cursors| && cursors[i].line == line
    ensures IsOrder(cursors, spans, line, order) && (indexes != [] ==> order != [])
    ensures LineEdited(RowAt(rows, line), line, spans, order, text, newChanged, newPlaced)
    ensures |newPlaced| == |cursors| && forall i :: 0 <= i < |cursors| && cursors[i].line != line ==>
        newPlaced[i] == placed[i]
    ensures forall other :: other != line ==>
      (other in newChanged <==> other in changed) && (other in changed ==> newChanged[other] == changed[other])
  {
    var sorted := OrderLine(cursors, spans, line, indexes);
    assert indexes != [] ==> indexes[0] in sorted;
    order := sorted;
    OrderFits(rows, cursors, edit, spans, line, order);
    var row, chosen := RowAt(rows, line), Chosen(spans, sorted);
    var next, places := WeaveRow(row, chosen, text);
    newPlaced := PlaceCarets(line, sorted, places, placed);
    newChanged := if next != row then changed[line := next] else changed;
    forall i | 0 <= i < |cursors| && cursors[i].line != line ensures i !in order {
    }
  }

  method PlaceCarets(line: nat, order: seq<nat>, places: seq<nat>, placed: seq<Cursor>) returns (after: seq<Cursor>)
    requires |order| == |places| && forall k :: 0 <= k < |order| ==> order[k] < |placed|
    requires forall j, k :: 0 <= j < k < |order| ==> order[j] != order[k]
    ensures |after| == |placed|
    ensures forall k :: 0 <= k < |order| ==> after[order[k]] == Cursor(line, places[k], places[k])
    ensures forall i :: 0 <= i < |placed| && i !in order ==> after[i] == placed[i]
  {
    after := placed;
    for n := 0 to |order|
      invariant |after| == |placed|
      invariant forall k :: 0 <= k < n ==> after[order[k]] == Cursor(line, places[k], places[k])
      invariant forall i :: 0 <= i < |placed| && i !in order ==> after[i] == placed[i]
    {
      after := after[order[n] := Cursor(line, places[n], places[n])];
    }
  }

  /** Every cursor once, where it first stands. */
  function Unique(cursors: seq<Cursor>): seq<Cursor> {
    if cursors == [] then []
    else
      var before := Unique(cursors[..|cursors| - 1]);
      if cursors[|cursors| - 1] in before then before else before + [cursors[|cursors| - 1]]
  }

  lemma {:induction false} UniqueIsDistinct(cursors: seq<Cursor>)
    ensures Distinct(Unique(cursors)) && forall c :: c in Unique(cursors) <==> c in cursors
  {
    if cursors != [] {
      UniqueIsDistinct(cursors[..|cursors| - 1]);
      assert cursors == cursors[..|cursors| - 1] + [cursors[|cursors| - 1]];
    }
  }

  /** The lines worked off, each by its own order; only these have changed. */
  ghost predicate LinesDone(rows: seq<Row>, cursors: seq<Cursor>, spans: seq<Span>, text: Row,
                            orders: map<nat, seq<nat>>,
                            changed: map<nat, Row>, placed: seq<Cursor>)
  {
    && (forall line :: line in changed ==> line in orders)
    && (forall line :: line in orders ==> orders[line] != [] && IsOrder(cursors, spans, line, orders[line]))
    && (forall line :: line in orders ==>
          LineEdited(RowAt(rows, line), line, spans, orders[line], text, changed, placed))
  }

  lemma LinesDoneMore(rows: seq<Row>, cursors: seq<Cursor>, spans: seq<Span>, text: Row, orders: map<nat, seq<nat>>,
                      before: map<nat, Row>, was: seq<Cursor>, line: nat, order: seq<nat>, changed: map<nat, Row>,
                        placed: seq<Cursor>)
    requires LinesDone(rows, cursors, spans, text, orders, before, was) && line !in orders
    requires order != [] && IsOrder(cursors, spans, line, order)
    requires LineEdited(RowAt(rows, line), line, spans, order, text, changed, placed)
    requires |was| == |placed| == |cursors|
    requires forall i :: 0 <= i < |cursors| && cursors[i].line != line ==> placed[i] == was[i]
    requires forall other :: other != line ==>
      (other in changed <==> other in before) && (other in before ==> changed[other] == before[other])
    ensures LinesDone(rows, cursors, spans, text, orders[line := order], changed, placed)
  {
    var later := orders[line := order];
    forall other | other in later
      ensures LineEdited(RowAt(rows, other), other, spans, later[other], text, changed, placed)
    {
      if other != line {
        assert later[other] == orders[other] && IsOrder(cursors, spans, other, orders[other]);
        OtherLineKept(cursors, RowAt(rows, other), other, spans, orders[other], text, before, was, changed, placed);
      }
    }
  }

  lemma OtherLineKept(cursors: seq<Cursor>, row: Row, line: nat, spans: seq<Span>, order: seq<nat>, text: Row,
                      before: map<nat, Row>, was: seq<Cursor>, changed: map<nat, Row>, placed: seq<Cursor>)
    requires IsOrder(cursors, spans, line, order) && LineEdited(row, line, spans, order, text, before, was)
    requires |was| == |placed| == |cursors|
    requires forall i :: 0 <= i < |cursors| && cursors[i].line == line ==> placed[i] == was[i]
    requires (line in before <==> line in changed) && (line in before ==> changed[line] == before[line])
    ensures LineEdited(row, line, spans, order, text, changed, placed)
  {
    forall k | 0 <= k < |order| ensures order[k] < |cursors| && cursors[order[k]].line == line {
      assert order[k] in order;
    }
  }

  /** Every line with cursors is edited, no other line changes, and carets that end up on one
      spot become one. */
  method ApplyCursorEdit(rows: seq<Row>, cursors: seq<Cursor>, edit: Edit)
    returns (changed: map<nat, Row>, carets: seq<Cursor>, ghost spans: seq<Span>, ghost orders: map<nat, seq<nat>>,
             ghost placed: seq<Cursor>)
    requires AllInRow(rows, cursors)
    ensures SpansOf(rows, cursors, edit, spans) && |placed| == |cursors| && carets == Unique(placed)
    ensures forall i :: 0 <= i < |cursors| ==> cursors[i].line in orders
    ensures LinesDone(rows, cursors, spans, TextOf(edit), orders, changed, placed)
  {
    var widened := seq(|cursors|, i requires 0 <= i < |cursors| && AllInRow(rows, cursors) =>
      SpanOf(rows, cursors, edit, i));
    spans := widened;
    var byLine := GroupByLine(cursors);
    var places: seq<Cursor> := seq(|cursors|, i => Cursor(0, 0, 0));
    changed, orders := map[], map[];
    var rest := byLine.Keys;
    while rest != {}
      invariant rest <= byLine.Keys && orders.Keys == byLine.Keys - rest && |places| == |cursors|
      invariant LinesDone(rows, cursors, spans, TextOf(edit), orders, changed, places)
      decreases |rest|
    {
      var line :| line in rest;
      ghost var order;
      ghost var before, was := changed, places;
      assert forall i: nat :: i in byLine[line] <==> i < |cursors| && cursors[i].line == line;
      changed, places, order := EditLine(rows, cursors, edit, widened, line, byLine[line], TextOf(edit), changed,
        places);
      LinesDoneMore(rows, cursors, spans, TextOf(edit), orders, before, was, line, order, changed, places);
      rest := rest - {line};
      orders := orders[line := order];
    }
    placed := places;
    carets := UniqueCarets(places);
  }

  method UniqueCarets(placed: seq<Cursor>) returns (carets: seq<Cursor>)
    ensures carets == Unique(placed)
  {
    carets := [];
    for n := 0 to |placed|
      invariant carets == Unique(placed[..n])
    {
      assert placed[..n + 1][..n] == placed[..n];
      if placed[n] !in carets { carets := carets + [placed[n]]; }
    }
    assert placed[..|placed|] == placed;
  }

  // ---------------------------------------------------------------- what an edit gives

  lemma {:induction false} WovenGrows(row: Row, spans: seq<Span>, text: Row, j: nat, k: nat)
    requires Fit(row, spans) && j <= k <= |spans|
    ensures |Woven(row, spans, text, j)| <= |Woven(row, spans, text, k)|
    decreases k
  {
    if j < k { WovenGrows(row, spans, text, j, k - 1); }
  }

  /** The carets left are distinct, every caret placed is among them, and each stands inside
      its row as edited. */
  lemma CaretsStandApart(rows: seq<Row>, cursors: seq<Cursor>, spans: seq<Span>, text: Row, orders: map<nat, seq<nat>>,
                         changed: map<nat, Row>, placed: seq<Cursor>)
    requires LinesDone(rows, cursors, spans, text, orders, changed, placed) && |placed| == |cursors|
    requires forall i :: 0 <= i < |cursors| ==> cursors[i].line in orders
    ensures Distinct(Unique(placed)) && forall c :: c in Unique(placed) <==> c in placed
    ensures forall i :: 0 <= i < |placed| ==>
      && placed[i].line == cursors[i].line && placed[i].start == placed[i].end
      && placed[i].end <= |if placed[i].line in changed then changed[placed[i].line] else RowAt(rows, placed[i].line)|
  {
    UniqueIsDistinct(placed);
    forall i | 0 <= i < |placed|
      ensures
        && placed[i].line == cursors[i].line && placed[i].start == placed[i].end
        && placed[i].end <= |if placed[i].line in changed then changed[placed[i].line] else RowAt(rows, placed[i].line)|
    {
      CaretInRow(rows, cursors, spans, text, orders, changed, placed, i);
    }
  }

  lemma CaretInRow(rows: seq<Row>, cursors: seq<Cursor>, spans: seq<Span>, text: Row, orders: map<nat, seq<nat>>,
                   changed: map<nat, Row>, placed: seq<Cursor>, i: nat)
    requires LinesDone(rows, cursors, spans, text, orders, changed, placed) && |placed| == |cursors|
    requires i < |cursors| && cursors[i].line in orders
    ensures placed[i].line == cursors[i].line && placed[i].start == placed[i].end
    ensures placed[i].end <= |if placed[i].line in changed then changed[placed[i].line]
        else RowAt(rows, placed[i].line)|
  {
    var line := cursors[i].line;
    var order, row := orders[line], RowAt(rows, line);
    assert IsOrder(cursors, spans, line, order) && LineEdited(row, line, spans, order, text, changed, placed);
    assert i in order;
    var k :| 0 <= k < |order| && order[k] == i;
    WovenGrows(row, Chosen(spans, order), text, k + 1, |order|);
  }

  ghost predicate Strict(spans: seq<Span>) {
    forall j, k :: 0 <= j < k < |spans| ==> spans[j].start < spans[k].start
  }

  lemma FirstIn(b: seq<Span>)
    ensures b != [] ==> b[0] in b
  {
  }

  lemma {:induction false} OneStrictOrder(a: seq<Span>, b: seq<Span>)
    requires Strict(a) && Strict(b) && forall s :: s in a <==> s in b
    ensures a == b
  {
    if a == [] {
      FirstIn(b);
    } else {
      assert a[|a| - 1] in b;
      assert b[|b| - 1] in a;
      assert a[|a| - 1] == b[|b| - 1];
      var x, y := a[..|a| - 1], b[..|b| - 1];
      assert a == x + [a[|a| - 1]] && b == y + [b[|b| - 1]];
      forall s ensures s in x <==> s in y {
        assert s in x <==> s in a && s != a[|a| - 1];
        assert s in y <==> s in b && s != b[|b| - 1];
      }
      OneStrictOrder(x, y);
    }
  }

  /** Typing over selections that keep apart and start in different places gives the row that
      replacing the same matches one by one gives, in whatever order they are handed over. */
  lemma TypingIsReplacing(row: Row, spans: seq<Span>, matches: seq<Span>, order: seq<nat>, text: Row)
    requires Fit(row, spans) && Apart(spans) && Strict(spans)
    requires (forall s :: s in spans <==> s in matches) && Distinct(matches) && Sorts(matches, order)
    ensures NewRow(row, spans, text) == RightToLeft(row, Picked(matches, order), text)
  {
    var picked := Picked(matches, order);
    forall s ensures s in picked <==> s in matches {
      if s in matches {
        var i: nat :| i < |matches| && matches[i] == s;
        assert i in order;
        var k :| 0 <= k < |order| && order[k] == i;
        assert picked[k] == s;
      }
    }
    forall j, k | 0 <= j < k < |picked| ensures picked[j].start < picked[k].start {
      assert Precedes(matches, order[j], order[k]) && order[j] != order[k];
      assert picked[j] in spans && picked[k] in spans;
    }
    OneStrictOrder(spans, picked);
    WeavesLikeReplacing(row, spans, text);
  }
}
