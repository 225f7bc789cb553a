/** The two block parsers agree, and between them they place every line once. */
module BlockProofs {
  import opened Wrappers
  import opened InlineSpec
  import opened MarkdownLines
  import opened MarkdownBlocks

  // ---------------------------------------------------------------- every line in one place

  /** The same code or table block, as each parser reports it. */
  predicate SameBlock(block: Block, info: Info) {
    match block
    case LineBlock(_, _) => false
    case CodeBlock(language, _, lineIndex) => info.CodeInfo? && info.language == language && info.lineIndex == lineIndex
    case TableBlock(header, alignments, rows, lineIndex) =>
      && info.TableInfo? && info.header == header && info.alignments == alignments && info.rows == rows
      && info.lineIndex == lineIndex
  }

  /** The blocks of the text parser, its code and table blocks stretched to the editor's
      ranges, lie end to end from one line to another. */
  predicate Tiles(blocks: seq<Block>, infos: seq<Info>, from: nat, to: nat) {
    if blocks == [] then infos == [] && from == to
    else if blocks[0].LineBlock? then blocks[0].lineIndex == from && Tiles(blocks[1..], infos, from + 1, to)
    else
      && infos != [] && SameBlock(blocks[0], infos[0]) && infos[0].lineIndex == from && from < infos[0].end
      && Tiles(blocks[1..], infos[1..], infos[0].end, to)
  }

  lemma StepsTogether(c: Classes, lines: seq<string>, i: nat)
    requires i < |lines|
    ensures BlockAt(c, lines, i).1 == InfoAt(c, lines, i).1
    ensures InfoAt(c, lines, i).0.None? ==> BlockAt(c, lines, i) == (LineBlock(lines[i], i), i + 1)
    ensures InfoAt(c, lines, i).0.Some? ==> SameBlock(BlockAt(c, lines, i).0, InfoAt(c, lines, i).0.value)
  {
  }

  lemma {:induction false} ParsersTile(c: Classes, lines: seq<string>, i: nat)
    requires i <= |lines|
    ensures Tiles(Blocks(c, lines, i), Infos(c, lines, i), i, |lines|)
    decreases |lines| - i
  {
    if i < |lines| {
      var (block, next) := BlockAt(c, lines, i);
      StepsTogether(c, lines, i);
      ParsersTile(c, lines, next);
      assert Blocks(c, lines, i)[1..] == Blocks(c, lines, next);
      if InfoAt(c, lines, i).0.Some? { assert Infos(c, lines, i)[1..] == Infos(c, lines, next); }
    }
  }

  /** How many line blocks stand at a line, and how many ranges run over it. */
  function LinesAt(blocks: seq<Block>, k: nat): nat {
    if blocks == [] then 0
    else (if blocks[0].LineBlock? && blocks[0].lineIndex == k then 1 else 0) + LinesAt(blocks[1..], k)
  }

  function RangesOver(infos: seq<Info>, k: nat): nat {
    if infos == [] then 0 else (if infos[0].lineIndex <= k < infos[0].end then 1 else 0) + RangesOver(infos[1..], k)
  }

  lemma {:induction false} TilesOnce(blocks: seq<Block>, infos: seq<Info>, from: nat, to: nat, k: nat)
    requires Tiles(blocks, infos, from, to)
    ensures LinesAt(blocks, k) + RangesOver(infos, k) == if from <= k < to then 1 else 0
    ensures from <= to
  {
    if blocks != [] {
      if blocks[0].LineBlock? {
        TilesOnce(blocks[1..], infos, from + 1, to, k);
      } else {
        TilesOnce(blocks[1..], infos[1..], infos[0].end, to, k);
      }
    }
  }

  ghost predicate InOrder(infos: seq<Info>, from: nat, to: nat) {
    && (forall a :: 0 <= a < |infos| ==> from <= infos[a].lineIndex < infos[a].end <= to)
    && (forall a, b :: 0 <= a < b < |infos| ==> infos[a].end <= infos[b].lineIndex)
  }

  lemma {:induction false} TilesInOrder(blocks: seq<Block>, infos: seq<Info>, from: nat, to: nat)
    requires Tiles(blocks, infos, from, to)
    ensures InOrder(infos, from, to)
  {
    TilesOnce(blocks, infos, from, to, 0);
    if blocks != [] {
      if blocks[0].LineBlock? {
        TilesInOrder(blocks[1..], infos, from + 1, to);
      } else {
        TilesInOrder(blocks[1..], infos[1..], infos[0].end, to);
        TilesOnce(blocks[1..], infos[1..], infos[0].end, to, 0);
      }
    }
  }

  /** On lines without line breaks the editor's scanner and the parser of the joined text
      find the same code and table blocks; their ranges are in order, in bounds and disjoint,
      and every line stands in one range or in one line block. */
  lemma EveryLineOnce(c: Classes, lines: seq<string>, k: nat)
    requires lines != [] && forall line :: line in lines ==> Unbroken(line)
    ensures var blocks, infos := Blocks(c, Split(Unified(Joined(lines))), 0), Infos(c, lines, 0);
      && Tiles(blocks, infos, 0, |lines|) && InOrder(infos, 0, |lines|)
      && LinesAt(blocks, k) + RangesOver(infos, k) == if k < |lines| then 1 else 0
  {
    JoinedSplits(lines);
    ParsersTile(c, lines, 0);
    TilesInOrder(Blocks(c, lines, 0), Infos(c, lines, 0), 0, |lines|);
    TilesOnce(Blocks(c, lines, 0), Infos(c, lines, 0), 0, |lines|, k);
  }

  // ---------------------------------------------------------------- list items

  /** A line of the editor: text, or a list item without its prefix. */
  datatype Line =
    | Words(text: string)
    | Check(indent: nat, checked: bool, text: string)
    | Bullet(indent: nat, text: string)

  const MAX_LIST_INDENT := 4

  function Spaces(n: nat): string { seq(n, _ => ' ') }

  function Prefix(indent: nat): string { Spaces(2 * if indent < MAX_LIST_INDENT then indent else MAX_LIST_INDENT) }

  /** The line as the note's text spells it. */
  function Raw(line: Line): string {
    match line
    case Words(text) => text
    case Check(indent, checked, text) => Prefix(indent) + (if checked then "[x] " else "[ ] ") + text
    case Bullet(indent, text) => Prefix(indent) + "- " + text
  }

  /** The line as the editor's scanner takes it. */
  function Seen(line: Line): string {
    if line.Words? then line.text else ""
  }

  function Raws(lines: seq<Line>): seq<string> { seq(|lines|, k requires 0 <= k < |lines| => Raw(lines[k])) }

  function Views(lines: seq<Line>): seq<string> { seq(|lines|, k requires 0 <= k < |lines| => Seen(lines[k])) }

  lemma {:induction false} SpacesEnd(line: string, i: nat, n: nat)
    requires i <= n < |line| && (forall k :: i <= k < n ==> line[k] == ' ') && line[n] != ' '
    ensures RunEnd(line, i, ' ') == n
    decreases n - i
  {
    if i < n { SpacesEnd(line, i + 1, n); }
  }

  lemma ItemIsNoFence(line: Line)
    requires !line.Words?
    ensures FenceRun(Raw(line)).None? && FenceRun("").None?
  {
    var n := |Prefix(line.indent)|;
    SpacesEnd(Raw(line), 0, n);
  }

  lemma SameFences(c: Classes, line: Line, marker: string)
    ensures FenceAt(c, Raw(line)) == FenceAt(c, Seen(line))
    ensures ClosesFence(Raw(line), marker) == ClosesFence(Seen(line), marker)
  {
    if !line.Words? { ItemIsNoFence(line); }
  }

  lemma {:induction false} SameClose(c: Classes, lines: seq<Line>, i: nat, marker: string)
    ensures CloseOf(Raws(lines), i, marker) == CloseOf(Views(lines), i, marker)
    decreases |lines| - i
  {
    if i < |lines| {
      SameFences(c, lines[i], marker);
      SameClose(c, lines, i + 1, marker);
    }
  }

  /** The text parser's table blocks, from a line on, keep clear of list items. */
  predicate Clear(c: Classes, lines: seq<Line>, i: nat)
    requires i <= |lines|
    decreases |lines| - i
  {
    if i == |lines| then true
    else
      var (block, next) := BlockAt(c, Raws(lines), i);
      && (block.TableBlock? ==> forall k :: i <= k < next ==> lines[k].Words?)
      && Clear(c, lines, next)
  }

  function Specials(blocks: seq<Block>): seq<Block> {
    if blocks == [] then []
    else (if blocks[0].LineBlock? then [] else [blocks[0]]) + Specials(blocks[1..])
  }

  predicate SameBlocks(blocks: seq<Block>, infos: seq<Info>) {
    |blocks| == |infos| && forall k :: 0 <= k < |blocks| ==> SameBlock(blocks[k], infos[k])
  }

  lemma {:induction false} SameRows(c: Classes, lines: seq<Line>, i: nat, width: nat)
    ensures var n := |Rows(c, Views(lines), i, width)|;
      && n <= |Rows(c, Raws(lines), i, width)|
      && (i + n <= |lines| || n == 0)
      && (forall k :: i <= k < i + n ==> lines[k].Words?)
      && ((forall k :: i <= k < i + |Rows(c, Raws(lines), i, width)| && k < |lines| ==> lines[k].Words?) ==>
            Rows(c, Raws(lines), i, width) == Rows(c, Views(lines), i, width))
    decreases |lines| - i
  {
    if i < |lines| {
      SameRows(c, lines, i + 1, width);
      NoCells(c);
    }
  }

  lemma RowsOfTable(c: Classes, lines: seq<string>, i: nat)
    requires TableAt(c, lines, i).Some?
    ensures TableAt(c, lines, i).value.rows == Rows(c, lines, i + 2, |TableAt(c, lines, i).value.header|)
  {
  }

  /** A table the scanner finds is a table of the text under the same head. */
  lemma SeenTable(c: Classes, lines: seq<Line>, i: nat)
    requires i < |lines| && TableAt(c, Views(lines), i).Some?
    ensures lines[i].Words? && i + 1 < |lines| && lines[i + 1].Words?
    ensures TableAt(c, Raws(lines), i).Some?
    ensures TableAt(c, Raws(lines), i).value.header == TableAt(c, Views(lines), i).value.header
  {
    NoCells(c);
  }

  /** A table of the text whose head is no list item is one the scanner finds. */
  lemma HeadSeen(c: Classes, lines: seq<Line>, i: nat)
    requires i < |lines| && TableAt(c, Raws(lines), i).Some? && lines[i].Words?
        && (i + 1 < |lines| ==> lines[i + 1].Words?)
    ensures TableAt(c, Views(lines), i).Some?
    ensures TableAt(c, Views(lines), i).value.header == TableAt(c, Raws(lines), i).value.header
    ensures TableAt(c, Views(lines), i).value.alignments == TableAt(c, Raws(lines), i).value.alignments
  {
    NoCells(c);
  }

  lemma WholeTableSeen(c: Classes, lines: seq<Line>, i: nat)
    requires i < |lines| && TableAt(c, Raws(lines), i).Some?
    requires forall k :: i <= k < i + 2 + |TableAt(c, Raws(lines), i).value.rows| && k < |lines| ==> lines[k].Words?
    ensures TableAt(c, Views(lines), i) == TableAt(c, Raws(lines), i)
  {
    HeadSeen(c, lines, i);
    RowsOfTable(c, Raws(lines), i);
    RowsOfTable(c, Views(lines), i);
    SameRows(c, lines, i + 2, |TableAt(c, Raws(lines), i).value.header|);
  }

  /** What the scanner finds where the text parser finds a block. */
  lemma StepAgrees(c: Classes, lines: seq<Line>, i: nat)
    requires i < |lines|
    ensures var (block, next) := BlockAt(c, Raws(lines), i);
            var (info, end) := InfoAt(c, Views(lines), i);
      && (block.LineBlock? ==> info.None? && end == next)
      && (block.CodeBlock? || (block.TableBlock? && forall k :: i <= k < next ==> lines[k].Words?) ==>
            info.Some? && SameBlock(block, info.value) && end == next)
  {
    SameFences(c, lines[i], "");
    var fence := FenceAt(c, Raw(lines[i]));
    if fence.Some? {
      SameClose(c, lines, i + 1, fence.value.marker);
    } else {
      var (block, next) := BlockAt(c, Raws(lines), i);
      if block.TableBlock? {
        if forall k :: i <= k < next ==> lines[k].Words? { WholeTableSeen(c, lines, i); }
      } else if TableAt(c, Views(lines), i).Some? {
        SeenTable(c, lines, i);
      }
    }
  }

  lemma RowsDiffer(c: Classes, lines: seq<Line>, i: nat, width: nat, item: nat)
    requires i <= item < i + |Rows(c, Raws(lines), i, width)| && item < |lines| && !lines[item].Words?
    ensures |Rows(c, Views(lines), i, width)| < |Rows(c, Raws(lines), i, width)|
  {
    SameRows(c, lines, i, width);
  }

  lemma TableDiffers(c: Classes, lines: seq<Line>, i: nat, item: nat, r: TableParts, v: TableParts)
    requires i < |lines| && TableAt(c, Raws(lines), i) == Some(r) && TableAt(c, Views(lines), i) == Some(v)
    requires i <= item < i + 2 + |r.rows| && item < |lines| && !lines[item].Words?
    ensures |v.rows| < |r.rows|
  {
    SeenTable(c, lines, i);
    assert v.rows == Rows(c, Views(lines), i + 2, |r.header|) by { RowsOfTable(c, Views(lines), i); }
    assert r.rows == Rows(c, Raws(lines), i + 2, |r.header|) by { RowsOfTable(c, Raws(lines), i); }
    RowsDiffer(c, lines, i + 2, |r.header|, item);
  }

  /** Where a table of the text runs over a list item, the scanner finds no table, or a
      shorter one. */
  lemma StepDiffers(c: Classes, lines: seq<Line>, i: nat, item: nat)
    requires i < |lines| && BlockAt(c, Raws(lines), i).0.TableBlock?
    requires i <= item < BlockAt(c, Raws(lines), i).1 && !lines[item].Words?
    ensures var info := InfoAt(c, Views(lines), i).0;
            info.Some? ==> info.value.TableInfo? && |info.value.rows| < |BlockAt(c, Raws(lines), i).0.rows|
  {
    SameFences(c, lines[i], "");
    var seen := TableAt(c, Views(lines), i);
    if seen.Some? { TableDiffers(c, lines, i, item, TableAt(c, Raws(lines), i).value, seen.value); }
  }

  lemma InfosFrom(c: Classes, lines: seq<string>, i: nat)
    requires i <= |lines|
    ensures forall k :: 0 <= k < |Infos(c, lines, i)| ==> i <= Infos(c, lines, i)[k].lineIndex
  {
    ParsersTile(c, lines, i);
    TilesInOrder(Blocks(c, lines, i), Infos(c, lines, i), i, |lines|);
  }

  lemma SameBlocksStep(block: Block, blocks: seq<Block>, info: Info, infos: seq<Info>)
    requires SameBlock(block, info)
    ensures SameBlocks([block] + blocks, [info] + infos) <==> SameBlocks(blocks, infos)
  {
    if SameBlocks([block] + blocks, [info] + infos) {
      forall k | 0 <= k < |blocks| ensures SameBlock(blocks[k], infos[k]) {
        assert SameBlock(([block] + blocks)[k + 1], ([info] + infos)[k + 1]);
      }
    }
  }

  lemma SpecialsFirst(block: Block, rest: seq<Block>)
    ensures Specials([block] + rest) == (if block.LineBlock? then [] else [block]) + Specials(rest)
  {
    assert ([block] + rest)[1..] == rest;
  }

  lemma DisagreeAtTable(c: Classes, lines: seq<Line>, i: nat, item: nat)
    requires i < |lines| && BlockAt(c, Raws(lines), i).0.TableBlock?
    requires i <= item < BlockAt(c, Raws(lines), i).1 && !lines[item].Words?
    ensures !SameBlocks(Specials(Blocks(c, Raws(lines), i)), Infos(c, Views(lines), i))
  {
    var (block, next) := BlockAt(c, Raws(lines), i);
    StepDiffers(c, lines, i, item);
    var (info, end) := InfoAt(c, Views(lines), i);
    var later := Infos(c, Views(lines), end);
    InfosFrom(c, Views(lines), end);
    SpecialsFirst(block, Blocks(c, Raws(lines), next));
    var specials, infos := Specials(Blocks(c, Raws(lines), i)), Infos(c, Views(lines), i);
    assert specials[0] == block && block.lineIndex == i;
    assert infos == if info.Some? then [info.value] + later else later;
    assert later != [] ==> later[0].lineIndex > i;
  }

  lemma AgreeAtStep(c: Classes, lines: seq<Line>, i: nat)
    requires i < |lines|
    requires var (block, next) := BlockAt(c, Raws(lines), i); block.TableBlock? ==>
               forall k :: i <= k < next ==> lines[k].Words?
    ensures var next := BlockAt(c, Raws(lines), i).1;
      SameBlocks(Specials(Blocks(c, Raws(lines), i)), Infos(c, Views(lines), i)) <==>
      SameBlocks(Specials(Blocks(c, Raws(lines), next)), Infos(c, Views(lines), next))
  {
    var (block, next) := BlockAt(c, Raws(lines), i);
    StepAgrees(c, lines, i);
    AgreeWithout(block, Blocks(c, Raws(lines), next), InfoAt(c, Views(lines), i).0, Infos(c, Views(lines), next));
  }

  lemma AgreeWithout(block: Block, blocks: seq<Block>, info: Option<Info>, infos: seq<Info>)
    requires block.LineBlock? ==> info.None?
    requires !block.LineBlock? ==> info.Some? && SameBlock(block, info.value)
    ensures SameBlocks(Specials([block] + blocks), if info.Some? then [info.value] + infos else infos) <==>
            SameBlocks(Specials(blocks), infos)
  {
    SpecialsFirst(block, blocks);
    if info.Some? {
      SameBlocksStep(block, Specials(blocks), info.value, infos);
    } else {
      assert [] + Specials(blocks) == Specials(blocks);
    }
  }

  /** The scanner that skips list items and the parser of the note's text find the same code
      and table blocks exactly when no table of the text runs over a list item. */
  lemma {:induction false} AgreeUnlessTableOverItem(c: Classes, lines: seq<Line>, i: nat)
    requires i <= |lines|
    ensures SameBlocks(Specials(Blocks(c, Raws(lines), i)), Infos(c, Views(lines), i)) <==> Clear(c, lines, i)
    decreases |lines| - i
  {
    if i < |lines| {
      var (block, next) := BlockAt(c, Raws(lines), i);
      if block.TableBlock? && exists k :: i <= k < next && !lines[k].Words? {
        var item :| i <= item < next && !lines[item].Words?;
        DisagreeAtTable(c, lines, i, item);
      } else {
        AgreeUnlessTableOverItem(c, lines, next);
        AgreeAtStep(c, lines, i);
      }
    }
  }

  lemma TableLinesAreRows(c: Classes, lines: seq<string>, i: nat, k: nat)
    requires i < |lines| && BlockAt(c, lines, i).0.TableBlock? && i <= k < BlockAt(c, lines, i).1
    ensures RowCells(c, lines[k]).Some?
  {
    var t := TableAt(c, lines, i).value;
    NoCells(c);
    if k >= i + 2 { RowsAreRows(c, lines, i + 2, |t.header|, k); }
  }

  lemma {:induction false} RowsAreRows(c: Classes, lines: seq<string>, i: nat, width: nat, k: nat)
    requires i <= k < i + |Rows(c, lines, i, width)|
    ensures k < |lines| && RowCells(c, lines[k]).Some?
    decreases |lines| - i
  {
    if i < k { RowsAreRows(c, lines, i + 1, width, k); }
  }

  /** Items that are no table row never matter. */
  lemma {:induction false} ClearWithoutPipes(c: Classes, lines: seq<Line>, i: nat)
    requires i <= |lines| && forall k :: 0 <= k < |lines| && !lines[k].Words? ==> RowCells(c, Raw(lines[k])).None?
    ensures Clear(c, lines, i)
    decreases |lines| - i
  {
    if i < |lines| {
      var (block, next) := BlockAt(c, Raws(lines), i);
      ClearWithoutPipes(c, lines, next);
      if block.TableBlock? {
        forall k | i <= k < next ensures lines[k].Words? {
          TableLinesAreRows(c, Raws(lines), i, k);
          assert Raws(lines)[k] == Raw(lines[k]);
        }
      }
    }
  }

  lemma OneCharacter(c: Classes, x: char)
    requires !c.space(x)
    ensures Trim(c, [x]) == [x]
  {
  }

  /** Two one-letter cells with a pipe between them. */
  lemma TwoCells(c: Classes, s: string, x: char, y: char)
    requires s == [x, '|', y] && !c.space(x) && !c.space(y) && !c.space('|')
    requires x != '\\' && x != '`' && x != '|' && y != '\\' && y != '`' && y != '|'
    ensures RowCells(c, s) == Some([[x], [y]])
  {
    OneCharacter(c, x);
    OneCharacter(c, y);
    assert Trim(c, s) == s;
    assert s[1] == '|' && '|' in s;
    assert Inner(s) == s;
    assert CellsFrom(c, s, 3, [y], 0) == [[y]];
    assert "" + [y] == [y] && "" + [x] == [x];
    assert CellsFrom(c, s, 2, "", 0) == [[y]];
    assert CellsFrom(c, s, 1, [x], 0) == [[x]] + [[y]];
    assert CellsFrom(c, s, 0, "", 0) == [[x], [y]];
  }

  lemma BulletCells(c: Classes)
    requires forall x :: c.space(x) <==> x == ' '
    ensures RowCells(c, "- |x") == Some(["-", "x"])
  {
    var s := "- |x";
    OneCharacter(c, 'x');
    assert TrimEnd(c, "- ") == "-" by { assert "- "[..1] == "-"; }
    assert Trim(c, s) == s && s[2] == '|' && Inner(s) == s;
    assert "" + "x" == "x" && "-" + " " == "- " && "" + "-" == "-";
    assert CellsFrom(c, s, 4, "x", 0) == ["x"];
    assert CellsFrom(c, s, 3, "", 0) == ["x"];
    assert CellsFrom(c, s, 2, "- ", 0) == ["-"] + ["x"];
    assert CellsFrom(c, s, 1, "-", 0) == ["-", "x"];
  }

  lemma DashAligns(c: Classes)
    requires !c.space('-')
    ensures AlignmentOf(c, "-") == Some(Left) && Alignments(c, ["-", "-"]).Some?
  {
    OneCharacter(c, '-');
    assert RunEnd("-", 0, '-') == 1;
  }

  lemma HeadOverDashes(c: Classes, lines: seq<string>)
    requires |lines| == 2 && RowCells(c, lines[0]) == Some(["-", "x"]) && RowCells(c, lines[1]) == Some(["-", "-"])
    requires Alignments(c, ["-", "-"]).Some?
    ensures TableAt(c, lines, 0).Some?
  {
  }

  lemma NoFenceAt(c: Classes, line: string)
    requires FenceRun(line).None?
    ensures FenceAt(c, line).None?
  {
  }

  /** A bullet over a delimiter row is a table head in the text and no table in the editor. */
  lemma TableOverItem(c: Classes) returns (lines: seq<Line>)
    requires forall x :: c.space(x) <==> x == ' '
    ensures lines == [Bullet(0, "|x"), Line.Words("-|-")]
    ensures BlockAt(c, Raws(lines), 0).0.TableBlock? && !Clear(c, lines, 0)
    ensures !SameBlocks(Specials(Blocks(c, Raws(lines), 0)), Infos(c, Views(lines), 0))
  {
    lines := [Bullet(0, "|x"), Line.Words("-|-")];
    var raws := Raws(lines);
    assert raws[0] == "- |x" && raws[1] == "-|-";
    assert TableAt(c, raws, 0).Some? by {
      BulletCells(c);
      TwoCells(c, "-|-", '-', '-');
      DashAligns(c);
      HeadOverDashes(c, raws);
    }
    assert FenceAt(c, raws[0]).None? by {
      ItemIsNoFence(lines[0]);
      NoFenceAt(c, raws[0]);
    }
    TableEnds(c, raws, 0);
    assert BlockAt(c, raws, 0).0.TableBlock?;
    DisagreeAtTable(c, lines, 0, 0);
    AgreeUnlessTableOverItem(c, lines, 0);
  }
}
