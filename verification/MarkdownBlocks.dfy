/** The two block parsers: one over a note's text, one over the editor's lines. */
module MarkdownBlocks {
  import opened Wrappers
  import opened Sequences
  import opened InlineSpec
  import opened MarkdownLines

  datatype Block =
    | LineBlock(text: string, lineIndex: nat)
    | TableBlock(header: seq<string>, alignments: seq<Alignment>, rows: seq<seq<string>>, lineIndex: nat)
    | CodeBlock(language: string, code: string, lineIndex: nat)

  datatype Info =
    | CodeInfo(language: string, lineIndex: nat, end: nat)
    | TableInfo(header: seq<string>, alignments: seq<Alignment>, rows: seq<seq<string>>, lineIndex: nat, end: nat)

  function LineAt(lines: seq<string>, i: nat): string { if i < |lines| then lines[i] else "" }

  // ---------------------------------------------------------------- tables

  function Padded(cells: seq<string>, width: nat): seq<string> {
    seq(width, k requires 0 <= k => if k < |cells| then cells[k] else "")
  }

  function Alignments(c: Classes, cells: seq<string>): Option<seq<Alignment>> {
    if forall k :: 0 <= k < |cells| ==> AlignmentOf(c, cells[k]).Some? then
      Some(seq(|cells|, k requires 0 <= k < |cells| => AlignmentOf(c, cells[k]).value))
    else None
  }

  /** The rows below a table's head, up to a blank line or one that is no row. */
  function Rows(c: Classes, lines: seq<string>, i: nat, width: nat): seq<seq<string>>
    decreases |lines| - i
  {
    if i >= |lines| || Trim(c, lines[i]) == "" || RowCells(c, lines[i]).None? then []
    else [Padded(RowCells(c, lines[i]).value, width)] + Rows(c, lines, i + 1, width)
  }

  datatype TableParts = TableParts(header: seq<string>, alignments: seq<Alignment>, rows: seq<seq<string>>)

  function TableAt(c: Classes, lines: seq<string>, i: nat): Option<TableParts> {
    var header, separator := RowCells(c, LineAt(lines, i)), RowCells(c, LineAt(lines, i + 1));
    if header.None? || separator.None? || |header.value| != |separator.value| then None
    else
      match Alignments(c, separator.value)
      case None => None
      case Some(alignments) => Some(TableParts(header.value, alignments, Rows(c, lines, i + 2, |header.value|)))
  }

  method TakeRows(c: Classes, lines: seq<string>, i: nat, width: nat) returns (rows: seq<seq<string>>)
    ensures rows == Rows(c, lines, i, width)
  {
    var next := i;
    rows := [];
    while next < |lines|
      invariant i <= next && rows + Rows(c, lines, next, width) == Rows(c, lines, i, width)
    {
      var raw := lines[next];
      if Trim(c, raw) == "" { break; }
      var cells := SplitTableRow(c, raw);
      if cells.None? { break; }
      var row := Padded(cells.value, width);
      Appends(rows, row, Rows(c, lines, next + 1, width));
      rows, next := rows + [row], next + 1;
    }
    assert rows + [] == rows;
  }

  method FindTable(c: Classes, lines: seq<string>, i: nat) returns (table: Option<TableParts>)
    ensures table == TableAt(c, lines, i)
  {
    var header := SplitTableRow(c, LineAt(lines, i));
    var separator := SplitTableRow(c, LineAt(lines, i + 1));
    if header.None? || separator.None? || |header.value| != |separator.value| { return None; }
    var alignments := Alignments(c, separator.value);
    if alignments.None? { return None; }
    var rows := TakeRows(c, lines, i + 2, |header.value|);
    table := Some(TableParts(header.value, alignments.value, rows));
  }

  // ---------------------------------------------------------------- code

  /** The line that closes a fence, or the end of the lines. */
  function CloseOf(lines: seq<string>, i: nat, marker: string): (r: nat)
    ensures i <= |lines| ==> i <= r <= |lines|
    decreases |lines| - i
  {
    if i >= |lines| then |lines| else if ClosesFence(lines[i], marker) then i else CloseOf(lines, i + 1, marker)
  }

  function PastClose(lines: seq<string>, close: nat): nat { if close < |lines| then close + 1 else close }

  function CodeLines(lines: seq<string>, indent: nat): seq<string> {
    seq(|lines|, k requires 0 <= k < |lines| => Unindented(lines[k], indent))
  }

  /** The lines between a fence and its close. */
  method TakeCode(lines: seq<string>, i: nat, fence: Fence) returns (code: seq<string>, next: nat)
    requires i < |lines|
    ensures next == CloseOf(lines, i + 1, fence.marker) && i < next <= |lines|
    ensures code == CodeLines(lines[i + 1..next], fence.indent)
  {
    code, next := [], i + 1;
    while next < |lines| && !ClosesFence(lines[next], fence.marker)
      invariant i < next <= |lines| && CloseOf(lines, next, fence.marker) == CloseOf(lines, i + 1, fence.marker)
      invariant code == CodeLines(lines[i + 1..next], fence.indent)
    {
      code, next := code + [Unindented(lines[next], fence.indent)], next + 1;
    }
  }

  function CodeAt(lines: seq<string>, i: nat, fence: Fence): Block
    requires i < |lines|
  {
    CodeBlock(Language(fence.info), Joined(CodeLines(lines[i + 1..CloseOf(lines, i + 1, fence.marker)], fence.indent)),
      i)
  }

  /** A fence and what it encloses, up to and with the line that closes it. */
  method TakeFence(lines: seq<string>, i: nat, fence: Fence) returns (block: Block, next: nat)
    requires i < |lines|
    ensures block == CodeAt(lines, i, fence) && next == PastClose(lines, CloseOf(lines, i + 1, fence.marker))
  {
    var code, close := TakeCode(lines, i, fence);
    block := CodeBlock(Language(fence.info), Joined(code), i);
    next := if close < |lines| then close + 1 else close;
  }

  // ---------------------------------------------------------------- the text parser

  /** The block that starts at a line, and the line after it. */
  function BlockAt(c: Classes, lines: seq<string>, i: nat): (r: (Block, nat))
    requires i < |lines|
    ensures i < r.1 <= |lines|
  {
    match FenceAt(c, lines[i])
    case Some(fence) => (CodeAt(lines, i, fence), PastClose(lines, CloseOf(lines, i + 1, fence.marker)))
    case None =>
      match TableAt(c, lines, i)
      case Some(t) =>
        TableEnds(c, lines, i);
        (TableBlock(t.header, t.alignments, t.rows, i), i + 2 + |t.rows|)
      case None => (LineBlock(lines[i], i), i + 1)
  }

  function Blocks(c: Classes, lines: seq<string>, i: nat): seq<Block>
    requires i <= |lines|
    decreases |lines| - i
  {
    if i == |lines| then []
    else
      var (block, next) := BlockAt(c, lines, i);
      [block] + Blocks(c, lines, next)
  }

  lemma {:induction false} RowsEnd(c: Classes, lines: seq<string>, i: nat, width: nat)
    ensures i <= |lines| ==> i + |Rows(c, lines, i, width)| <= |lines|
    decreases |lines| - i
  {
    if i < |lines| { RowsEnd(c, lines, i + 1, width); }
  }

  lemma NoCells(c: Classes)
    ensures RowCells(c, "").None?
  {
    assert Trim(c, "") == "";
  }

  lemma TableEnds(c: Classes, lines: seq<string>, i: nat)
    requires TableAt(c, lines, i).Some?
    ensures i + 2 + |TableAt(c, lines, i).value.rows| <= |lines|
  {
    NoCells(c);
    RowsEnd(c, lines, i + 2, |TableAt(c, lines, i).value.header|);
  }

  method TakeBlock(c: Classes, lines: seq<string>, i: nat) returns (block: Block, next: nat)
    requires i < |lines|
    ensures (block, next) == BlockAt(c, lines, i)
  {
    var fence := FenceAt(c, lines[i]);
    if fence.Some? {
      block, next := TakeFence(lines, i, fence.value);
      return;
    }
    var table := FindTable(c, lines, i);
    if table.Some? {
      TableEnds(c, lines, i);
      var t := table.value;
      return TableBlock(t.header, t.alignments, t.rows, i), i + 2 + |t.rows|;
    }
    return LineBlock(lines[i], i), i + 1;
  }

  method ParseMarkdownBlocks(c: Classes, source: string) returns (blocks: seq<Block>)
    ensures blocks == Blocks(c, Split(Unified(source)), 0)
  {
    var lines, i := Split(Unified(source)), 0;
    blocks := [];
    while i < |lines|
      invariant 0 <= i <= |lines| && blocks + Blocks(c, lines, i) == Blocks(c, lines, 0)
    {
      var block, next := TakeBlock(c, lines, i);
      Appends(blocks, block, Blocks(c, lines, next));
      blocks, i := blocks + [block], next;
    }
  }

  // ---------------------------------------------------------------- the editor's scanner

  /** The block that starts at a line, if one does, and the line after it. */
  function InfoAt(c: Classes, lines: seq<string>, i: nat): (r: (Option<Info>, nat))
    requires i < |lines|
    ensures i < r.1 <= |lines|
    ensures r.0.Some? ==> r.0.value.lineIndex == i && r.0.value.end == r.1
  {
    match FenceAt(c, lines[i])
    case Some(fence) =>
      var end := PastClose(lines, CloseOf(lines, i + 1, fence.marker));
      (Some(CodeInfo(Language(fence.info), i, end)), end)
    case None =>
      match TableAt(c, lines, i)
      case Some(t) =>
        TableEnds(c, lines, i);
        (Some(TableInfo(t.header, t.alignments, t.rows, i, i + 2 + |t.rows|)), i + 2 + |t.rows|)
      case None => (None, i + 1)
  }

  function Infos(c: Classes, lines: seq<string>, i: nat): seq<Info>
    requires i <= |lines|
    decreases |lines| - i
  {
    if i == |lines| then []
    else
      var (info, next) := InfoAt(c, lines, i);
      if info.Some? then [info.value] + Infos(c, lines, next) else Infos(c, lines, next)
  }

  /** The line that closes a fence, or the end of the lines. */
  method ScanFence(lines: seq<string>, i: nat, marker: string) returns (next: nat)
    requires i < |lines|
    ensures next == CloseOf(lines, i + 1, marker)
  {
    next := i + 1;
    while next < |lines|
      invariant i < next <= |lines| && CloseOf(lines, next, marker) == CloseOf(lines, i + 1, marker)
    {
      if ClosesFence(lines[next], marker) { break; }
      next := next + 1;
    }
  }

  method TakeInfo(c: Classes, lines: seq<string>, i: nat) returns (block: Option<Info>, next: nat)
    requires i < |lines|
    ensures (block, next) == InfoAt(c, lines, i)
  {
    var fence := FenceAt(c, lines[i]);
    if fence.Some? {
      var close := ScanFence(lines, i, fence.value.marker);
      next := if close < |lines| then close + 1 else close;
      return Some(CodeInfo(Language(fence.value.info), i, next)), next;
    }
    var table := FindTable(c, lines, i);
    if table.Some? {
      TableEnds(c, lines, i);
      var t := table.value;
      next := i + 2 + |t.rows|;
      return Some(TableInfo(t.header, t.alignments, t.rows, i, next)), next;
    }
    return None, i + 1;
  }

  method ParseEditorMarkdownBlocks(c: Classes, lines: seq<string>) returns (blocks: seq<Info>)
    ensures blocks == Infos(c, lines, 0)
  {
    var i := 0;
    blocks := [];
    while i < |lines|
      invariant 0 <= i <= |lines| && blocks + Infos(c, lines, i) == Infos(c, lines, 0)
    {
      var block, next := TakeInfo(c, lines, i);
      if block.Some? {
        Appends(blocks, block.value, Infos(c, lines, next));
        blocks := blocks + [block.value];
      }
      i := next;
    }
  }
}
