/** Lines of Markdown: table rows, alignments and code fences. */
module MarkdownLines {
  import opened Wrappers
  import opened InlineSpec

  datatype Alignment = Left | Center | Right

  function TrimStart(c: Classes, s: string): string {
    if s != "" && c.space(s[0]) then TrimStart(c, s[1..]) else s
  }

  function TrimEnd(c: Classes, s: string): string {
    if s != "" && c.space(s[|s| - 1]) then TrimEnd(c, s[..|s| - 1]) else s
  }

  function Trim(c: Classes, s: string): string { TrimEnd(c, TrimStart(c, s)) }

  // ---------------------------------------------------------------- table rows

  /** The cells of a row from `i` on, in a cell that holds `cell` so far and, with `ticks`
      above 0, in code opened by that many backticks. */
  function CellsFrom(c: Classes, s: string, i: nat, cell: string, ticks: nat): seq<string>
    requires i <= |s|
    decreases |s| - i
  {
    if i == |s| then [Trim(c, cell)]
    else if s[i] == '\\' && i + 1 < |s| && s[i + 1] == '|' then CellsFrom(c, s, i + 2, cell + "|", ticks)
    else if s[i] == '`' then
      var end := RunEnd(s, i + 1, '`');
      CellsFrom(c, s, end, cell + s[i..end], if ticks == 0 then end - i else if ticks == end - i then 0 else ticks)
    else if s[i] == '|' && ticks == 0 then [Trim(c, cell)] + CellsFrom(c, s, i + 1, "", 0)
    else CellsFrom(c, s, i + 1, cell + [s[i]], ticks)
  }

  predicate Starts(s: string) { s != "" && s[0] == '|' }

  predicate Ends(s: string) { s != "" && s[|s| - 1] == '|' && !IsEscaped(s, |s| - 1) }

  /** A row without its outer pipes. */
  function Inner(s: string): string {
    var left := if Starts(s) then s[1..] else s;
    if Ends(left) then left[..|left| - 1] else left
  }

  /** The cells of a line that is a table row: two or more, or one between outer pipes. */
  function RowCells(c: Classes, line: string): Option<seq<string>> {
    var s := Trim(c, line);
    if '|' !in s then None
    else
      var cells := CellsFrom(c, Inner(s), 0, "", 0);
      if |cells| >= 2 || (Starts(s) && Ends(s) && |cells| == 1) then Some(cells) else None
  }

  method SplitTableRow(c: Classes, line: string) returns (row: Option<seq<string>>)
    ensures row == RowCells(c, line)
  {
    var trimmed := Trim(c, line);
    if '|' !in trimmed { return None; }
    var wrapped, s := Starts(trimmed) && Ends(trimmed), Inner(trimmed);
    var cells, cell, ticks, i := [], "", 0, 0;
    while i < |s|
      invariant 0 <= i <= |s| && 0 <= ticks
      invariant cells + CellsFrom(c, s, i, cell, ticks) == CellsFrom(c, s, 0, "", 0)
    {
      if s[i] == '\\' && i + 1 < |s| && s[i + 1] == '|' {
        cell, i := cell + "|", i + 2;
      } else if s[i] == '`' {
        var end := RunEnd(s, i + 1, '`');
        cell := cell + s[i..end];
        ticks := if ticks == 0 then end - i else if ticks == end - i then 0 else ticks;
        i := end;
      } else if s[i] == '|' && ticks == 0 {
        ghost var rest := CellsFrom(c, s, i + 1, "", 0);
        assert cells + ([Trim(c, cell)] + rest) == cells + [Trim(c, cell)] + rest;
        cells := cells + [Trim(c, cell)];
        cell, i := "", i + 1;
      } else {
        cell, i := cell + [s[i]], i + 1;
      }
    }
    cells := cells + [Trim(c, cell)];
    row := if |cells| >= 2 || (wrapped && |cells| == 1) then Some(cells) else None;
  }

  /** A delimiter cell: dashes, with a colon on the sides it aligns to. */
  function AlignmentOf(c: Classes, cell: string): Option<Alignment> {
    var value := Trim(c, cell);
    var left := value != "" && value[0] == ':';
    var dashes := RunEnd(value, if left then 1 else 0, '-');
    var right := dashes < |value| && value[dashes] == ':';
    if dashes == (if left then 1 else 0) || dashes + (if right then 1 else 0) != |value| then None
    else Some(if left && right then Center else if right then Right else Left)
  }

  // ---------------------------------------------------------------- fences

  datatype Fence = Fence(indent: nat, marker: string, info: string)

  predicate IsTerminator(x: char) { x == '\n' || x == '\r' || x == '\U{2028}' || x == '\U{2029}' }

  /** Where the run of backticks or tildes ends that stands behind at most three spaces. */
  function FenceRun(line: string): Option<(nat, nat)> {
    var indent := RunEnd(line, 0, ' ');
    if indent > 3 || indent == |line| || (line[indent] != '`' && line[indent] != '~') then None
    else
      var end := RunEnd(line, indent, line[indent]);
      if end - indent >= 3 then Some((indent, end)) else None
  }

  function FenceAt(c: Classes, line: string): Option<Fence> {
    match FenceRun(line)
    case None => None
    case Some((indent, end)) =>
      if indent <= end <= |line| && (forall k :: end <= k < |line| ==> !IsTerminator(line[k])) &&
         (line[indent..end] != "" && line[indent..end][0] == '`' ==> '`' !in line[end..])
      then Some(Fence(indent, line[indent..end], Trim(c, line[end..])))
      else None
  }

  predicate ClosesFence(line: string, marker: string) {
    match FenceRun(line)
    case None => false
    case Some((indent, end)) =>
      && indent <= end <= |line| && (forall k :: end <= k < |line| ==> line[k] == ' ' || line[k] == '\t')
      && marker != "" && indent < end && line[indent] == marker[0] && end - indent >= |marker|
  }

  /** The first word of a fence's info. */
  function Language(info: string): string {
    if info == "" || info[0] == ' ' || info[0] == '\t' then "" else [info[0]] + Language(info[1..])
  }

  function Unindented(line: string, indent: nat): string {
    if indent > 0 && indent <= |line| && (forall k :: 0 <= k < indent ==> line[k] == ' ') then line[indent..] else line
  }

  // ---------------------------------------------------------------- lines of a text

  function Joined(lines: seq<string>): string {
    if lines == [] then "" else if |lines| == 1 then lines[0] else lines[0] + "\n" + Joined(lines[1..])
  }

  /** Every line break as a single newline. */
  function Unified(s: string): string {
    if s == "" then ""
    else if s[0] == '\r' then "\n" + Unified(if |s| > 1 && s[1] == '\n' then s[2..] else s[1..])
    else [s[0]] + Unified(s[1..])
  }

  function Split(s: string): seq<string> {
    if s == "" then [""]
    else if s[0] == '\n' then [""] + Split(s[1..])
    else
      var rest := Split(s[1..]);
      if rest == [] then [[s[0]]] else [[s[0]] + rest[0]] + rest[1..]
  }

  predicate Unbroken(line: string) { '\n' !in line && '\r' !in line }

  lemma {:induction false} UnifiedSame(s: string)
    requires '\r' !in s
    ensures Unified(s) == s
  {
    if s != "" { UnifiedSame(s[1..]); }
  }

  lemma {:induction false} SplitLine(line: string, rest: string)
    requires '\n' !in line
    ensures Split(line) == [line]
    ensures Split(line + "\n" + rest) == [line] + Split(rest)
  {
    if line == "" {
      assert line + "\n" + rest == "\n" + rest;
    } else {
      SplitLine(line[1..], rest);
      assert (line + "\n" + rest)[1..] == line[1..] + "\n" + rest;
      assert line == [line[0]] + line[1..];
    }
  }

  /** Joining unbroken lines and splitting the text again gives the lines back. */
  lemma {:induction false} JoinedSplits(lines: seq<string>)
    requires lines != [] && forall line :: line in lines ==> Unbroken(line)
    ensures Split(Unified(Joined(lines))) == lines
  {
    JoinedUnbroken(lines);
    UnifiedSame(Joined(lines));
    JoinedSplit(lines);
  }

  lemma {:induction false} JoinedUnbroken(lines: seq<string>)
    requires forall line :: line in lines ==> Unbroken(line)
    ensures '\r' !in Joined(lines)
  {
    if lines != [] {
      assert lines[0] in lines && forall line :: line in lines[1..] ==> line in lines;
      JoinedUnbroken(lines[1..]);
    }
  }

  lemma {:induction false} JoinedSplit(lines: seq<string>)
    requires lines != [] && forall line :: line in lines ==> Unbroken(line)
    ensures Split(Joined(lines)) == lines
  {
    assert lines[0] in lines;
    if |lines| == 1 {
      SplitLine(lines[0], "");
    } else {
      assert forall line :: line in lines[1..] ==> line in lines;
      JoinedSplit(lines[1..]);
      SplitLine(lines[0], Joined(lines[1..]));
    }
  }
}
