/** The tokenizer as it runs: in one pass, on a budget, and without repeating a search that
    failed. */
module InlineParser {
  import opened Wrappers
  import opened Sequences
  import opened InlineSpec
  import opened InlineProofs

  class Budget {
    var remaining: int

    constructor (steps: nat)
      ensures remaining == steps
    {
      remaining := steps;
    }
  }

  /** Measures the run that a match at `index` begins; false once the budget is spent. */
  method MeasureRun(source: string, index: nat, d: Delimiter, budget: Budget) returns (measured: bool, run: nat)
    requires StartsAt(source, index, d)
    modifies budget
    ensures measured ==> 0 <= budget.remaining < old(budget.remaining) && run == Run(source, index, d.ch)
    ensures !measured ==> budget.remaining == (if old(budget.remaining) >= 0 then 0 else old(budget.remaining)) - 1
  {
    run := d.size;
    budget.remaining := budget.remaining - 1;
    if budget.remaining < 0 { return false, run; }
    RunAt(source, index, d.ch, index + run);
    while index + run < |source| && source[index + run] == d.ch
      invariant d.size <= run <= Run(source, index, d.ch) && index + run <= |source|
      invariant Run(source, index + run, d.ch) == Run(source, index, d.ch) - run
      invariant 0 <= budget.remaining < old(budget.remaining)
    {
      budget.remaining := budget.remaining - 1;
      if budget.remaining < 0 { return false, run; }
      run := run + 1;
    }
    measured := true;
  }

  method FindClosing(c: Classes, source: string, start: nat, d: Delimiter, budget: Budget) returns (close: int)
    modifies budget
    ensures budget.remaining <= old(budget.remaining)
    ensures budget.remaining >= (if old(budget.remaining) >= 0 then 0 else old(budget.remaining)) - 1
    ensures close == -1 || (close >= 0 && Closing(c, source, start, d) == Some(close))
    ensures close == -1 && budget.remaining >= 0 ==> Closing(c, source, start, d).None?
  {
    var from := start;
    while true
      invariant start <= from && Closing(c, source, start, d) == Closing(c, source, from, d)
      invariant budget.remaining == old(budget.remaining) || 0 <= budget.remaining < old(budget.remaining)
      decreases |source| - from
    {
      var at := IndexOf(source, d, from);
      if at.None? { return -1; }
      var measured, run := MeasureRun(source, at.value, d, budget);
      if !measured { return -1; }
      if SkipsRun(c, source, at.value, run, d) {
        from := at.value + run;
        continue;
      }
      var found := CloseAt(d, at.value, run);
      if CanClose(c, source, found, d) { return found; }
      from := at.value + 1;
    }
  }

  /** Text with the styles of the text before it joins it. */
  function AddText(tokens: seq<Token>, text: string, styles: set<Style>): seq<Token> {
    if text == "" then tokens
    else if tokens != [] && tokens[|tokens| - 1].Text? && tokens[|tokens| - 1].styles == styles then
      tokens[..|tokens| - 1] + [Text(tokens[|tokens| - 1].text + text, styles)]
    else tokens + [Text(text, styles)]
  }

  /** Tokens stand for nodes that read the line up to `upTo`, and end with no open text. */
  ghost predicate Stands(tokens: seq<Token>, nodes: seq<Node>, styles: set<Style>, source: string, upTo: nat) {
    && upTo <= |source|
    && tokens == TokensOf(nodes, styles) && SourceOf(nodes) == source[..upTo]
    && (tokens == [] || tokens[|tokens| - 1].Mark?)
  }

  lemma AddPending(tokens: seq<Token>, nodes: seq<Node>, styles: set<Style>, source: string, from: nat, upTo: nat)
    requires Stands(tokens, nodes, styles, source, from) && from <= upTo <= |source|
    ensures AddText(tokens, source[from..upTo], styles) == TokensOf(nodes + Pending(source[from..upTo]), styles)
    ensures SourceOf(nodes + Pending(source[from..upTo])) == source[..upTo]
  {
    var pending := Pending(source[from..upTo]);
    TokensOfAppend(nodes, pending, styles);
    SourceOfAppend(nodes, pending);
    PendingSpells(source[from..upTo]);
    if pending != [] { assert pending[..0] == []; }
    assert source[..from] + source[from..upTo] == source[..upTo];
  }

  /** The least a call may leave of a budget: each level may overdraw once more. */
  function Floor(depth: nat): int
    requires depth <= MAX_DEPTH
  {
    -8 - (MAX_DEPTH - depth)
  }

  ghost predicate Spends(before: int, after: int, depth: nat)
    requires depth <= MAX_DEPTH
  {
    after <= before && (after == before || after >= Floor(depth))
  }

  method PushDelimited(c: Classes, source: string, styles: set<Style>, budget: Budget, depth: nat, tokens: seq<Token>,
                       ghost nodes: seq<Node>, textStart: nat, index: nat, d: Delimiter, close: nat)
    returns (longer: seq<Token>, ghost more: seq<Node>, ghost inner: seq<Node>)
    requires depth < MAX_DEPTH && textStart <= index <= |source|
    requires Stands(tokens, nodes, styles, source, textStart)
    requires StartsAt(source, index, d) && StartsAt(source, close, d) && close > index + d.size
    modifies budget
    ensures Spends(old(budget.remaining), budget.remaining, depth + 1)
    ensures Stands(longer, more, styles, source, close + d.size)
    ensures more == nodes + Pending(source[textStart..index]) + [Span(d, inner)]
    ensures budget.remaining > 0 ==> inner == Inside(c, source[index + d.size..close], d, depth)
    decreases MAX_DEPTH - depth, 1
  {
    var before := AddText(tokens, source[textStart..index], styles);
    AddPending(tokens, nodes, styles, source, textStart, index);
    ghost var plain := nodes + Pending(source[textStart..index]);
    var within;
    within, inner := ReadInside(c, source[index + d.size..close], styles + d.styles, d, budget, depth);
    longer := before + [Mark(Spelling(d), d.marker)] + within + [Mark(Spelling(d), d.marker)];
    more := plain + [Span(d, inner)];
    SpanStands(before, plain, styles, source, index, d, inner, close);
    Regroup(before, [Mark(Spelling(d), d.marker)], within, [Mark(Spelling(d), d.marker)]);
  }

  /** Code is one piece of text; anything else is parsed in turn. */
  method ReadInside(c: Classes, content: string, styles: set<Style>, d: Delimiter, budget: Budget, depth: nat)
    returns (within: seq<Token>, ghost inner: seq<Node>)
    requires depth < MAX_DEPTH && content != ""
    modifies budget
    ensures Spends(old(budget.remaining), budget.remaining, depth + 1)
    ensures within == TokensOf(inner, styles) && SourceOf(inner) == content
    ensures budget.remaining > 0 ==> inner == Inside(c, content, d, depth)
    decreases MAX_DEPTH - depth, 0
  {
    if d.marker == CodeMark {
      within, inner := AddText([], content, styles), Pending(content);
      PendingSpells(content);
      assert inner[..0] == [];
    } else {
      within, inner := ParseInline(c, content, styles, budget, depth + 1);
    }
  }

  lemma SpanStands(before: seq<Token>, nodes: seq<Node>, styles: set<Style>, source: string, index: nat, d: Delimiter,
                   inner: seq<Node>, close: nat)
    requires before == TokensOf(nodes, styles) && index <= |source| && SourceOf(nodes) == source[..index]
    requires StartsAt(source, index, d) && StartsAt(source, close, d) && close > index + d.size
    requires SourceOf(inner) == source[index + d.size..close]
    ensures Stands(before + TokensOfNode(Span(d, inner), styles), nodes + [Span(d, inner)], styles, source,
                   close + d.size)
  {
    assert (nodes + [Span(d, inner)])[..|nodes|] == nodes;
    assert source[..index] == source[0..index] && source[..close + d.size] == source[0..close + d.size];
    SpanInPlace(source, 0, index, d, close);
  }

  /** A delimiter spans nothing from `index` on; a code delimiter, nothing where a run of its
      length begins. */
  ghost predicate Hopeless(c: Classes, source: string, index: nat, d: Delimiter) {
    forall later :: index <= later < |source| && (d.marker == CodeMark ==> Run(source, later, d.ch) == d.size) ==>
      Found(c, source, later, d).None?
  }

  lemma BecomesHopeless(c: Classes, source: string, index: nat, d: Delimiter)
    requires StartsAt(source, index, d) && Closing(c, source, index + d.size, d).None?
    requires d.marker == CodeMark ==> Run(source, index, d.ch) == d.size
    ensures Hopeless(c, source, index, d)
  {
    if d.marker == CodeMark { RunAt(source, index, d.ch, index + d.size); }
    forall later | index <= later < |source| && (d.marker == CodeMark ==> Run(source, later, d.ch) == d.size)
      ensures Found(c, source, later, d).None?
    {
      if d.marker == CodeMark { RunAt(source, later, d.ch, later + d.size); }
      DeadStaysDead(c, source, index, later, d);
    }
  }

  ghost predicate AllHopeless(c: Classes, source: string, index: nat, dead: set<Delimiter>) {
    forall d :: d in dead ==> Hopeless(c, source, index, d)
  }

  /** Where the span that `d` opens here closes, or -1; a delimiter whose search fails is
      not searched for again. */
  method TrySpan(c: Classes, source: string, index: nat, d: Delimiter, dead: set<Delimiter>, budget: Budget)
    returns (close: int, newDead: set<Delimiter>)
    requires index < |source| && (d.marker == CodeMark ==> Run(source, index, d.ch) == d.size)
    requires budget.remaining > 0 ==> AllHopeless(c, source, index, dead)
    modifies budget
    ensures old(budget.remaining) >= budget.remaining >= (if old(budget.remaining) >= 0 then 0
        else old(budget.remaining)) - 1
    ensures close >= 0 ==> Opens(source, index, Spans(d, close)) && Found(c, source, index, d) == Some(close)
    ensures close < 0 && budget.remaining > 0 ==> Found(c, source, index, d).None?
    ensures budget.remaining > 0 ==> AllHopeless(c, source, index, newDead)
  {
    newDead := dead;
    if d in dead || !StartsAt(source, index, d) || !CanOpen(c, source, index, d) {
      return -1, newDead;
    }
    close := FindClosing(c, source, index + d.size, d, budget);
    if close >= 0 {
      if close <= index + d.size { close := -1; }
    } else {
      newDead := dead + {d};
      if budget.remaining > 0 { BecomesHopeless(c, source, index, d); }
    }
  }

  /** A code span, or the ticks passed over. */
  method ReadTicks(c: Classes, source: string, index: nat, dead: set<Delimiter>, budget: Budget)
    returns (r: Reading, newDead: set<Delimiter>)
    requires index < |source| && Tick(source, index) && budget.remaining >= 0
    requires budget.remaining > 0 ==> AllHopeless(c, source, index, dead)
    modifies budget
    ensures old(budget.remaining) >= budget.remaining >= -1
    ensures Opens(source, index, r)
    ensures budget.remaining > 0 ==> r == Here(c, source, index)
    ensures budget.remaining > 0 ==> AllHopeless(c, source, index, newDead)
  {
    var n := 1;
    while index + n < |source| && source[index + n] == '`'
      invariant 0 < n && index + n <= |source| && Run(source, index, '`') == n + Run(source, index + n, '`')
    {
      n := n + 1;
    }
    var d := CodeDelimiter(n);
    var close;
    close, newDead := TrySpan(c, source, index, d, dead, budget);
    r := if close >= 0 then Spans(d, close) else Advances(index + n);
  }

  lemma PickedReads(c: Classes, source: string, index: nat, r: Reading)
    requires index < |source| && !Tick(source, index)
    requires match r
      case Spans(d, close) => Pick(c, source, index, 0) == Some((d, close))
      case Advances(next) => Pick(c, source, index, 0).None? && next == index + 1
    ensures r == Here(c, source, index)
  {
  }

  /** The first candidate that spans something here, or one character passed over. */
  method ReadCandidates(c: Classes, source: string, index: nat, dead: set<Delimiter>, budget: Budget)
    returns (r: Reading, newDead: set<Delimiter>)
    requires index < |source| && !Tick(source, index) && budget.remaining >= 0
    requires budget.remaining > 0 ==> AllHopeless(c, source, index, dead)
    modifies budget
    ensures old(budget.remaining) >= budget.remaining >= -7
    ensures Opens(source, index, r)
    ensures budget.remaining > 0 ==> r == Here(c, source, index)
    ensures budget.remaining > 0 ==> AllHopeless(c, source, index, newDead)
  {
    newDead := dead;
    var k := 0;
    while k < |CANDIDATES|
      invariant 0 <= k <= |CANDIDATES|
      invariant old(budget.remaining) >= budget.remaining >= -k
      invariant budget.remaining > 0 ==> Pick(c, source, index, 0) == Pick(c, source, index, k)
      invariant budget.remaining > 0 ==> AllHopeless(c, source, index, newDead)
    {
      assert CANDIDATES[k].marker != CodeMark;
      var close;
      close, newDead := TrySpan(c, source, index, CANDIDATES[k], newDead, budget);
      if close >= 0 {
        r := Spans(CANDIDATES[k], close);
        if budget.remaining > 0 { PickedReads(c, source, index, r); }
        return;
      }
      k := k + 1;
    }
    r := Advances(index + 1);
    if budget.remaining > 0 { PickedReads(c, source, index, r); }
  }

  /** What is read so far and the plain reading of the rest make the plain reading. */
  ghost predicate Continues(c: Classes, source: string, rs: seq<Reading>, nodes: seq<Node>, parts: seq<Part>,
                            textStart: nat,
                            index: nat, depth: nat)
    requires Sound(source, rs) && textStart <= index <= |source| && depth < MAX_DEPTH
  {
    nodes == Deepened(c, parts, depth) && parts + Parts(source, rs, textStart, index) == Parts(source, rs, 0, 0)
  }

  lemma DeepenedSpan(c: Classes, parts: seq<Part>, words: string, d: Delimiter, content: string, depth: nat)
    requires depth < MAX_DEPTH
    ensures Deepened(c, parts + Worded(words) + [Enclosed(d, content)], depth) ==
      Deepened(c, parts, depth) + Pending(words) + [Span(d, Inside(c, content, d, depth))]
  {
    var longer := parts + Worded(words) + [Enclosed(d, content)];
    assert longer[..|longer| - 1] == parts + Worded(words);
    DeepenedWords(c, parts, words, depth);
  }

  lemma DeepenedWords(c: Classes, parts: seq<Part>, words: string, depth: nat)
    requires depth < MAX_DEPTH
    ensures Deepened(c, parts + Worded(words), depth) == Deepened(c, parts, depth) + Pending(words)
  {
    if words == "" {
      assert parts + Worded(words) == parts;
    } else {
      assert (parts + Worded(words))[..|parts|] == parts;
    }
  }

  lemma PartsOfSpan(source: string, rs: seq<Reading>, parts: seq<Part>, textStart: nat, index: nat, d: Delimiter,
                    close: nat,
                    longer: seq<Part>, whole: seq<Part>)
    requires Sound(source, rs) && textStart <= index < |source| && rs[index] == Spans(d, close)
    requires index + d.size <= close && close + d.size <= |source|
    requires parts + Parts(source, rs, textStart, index) == whole
    requires longer == SpanAdded(source, parts, textStart, index, d, close)
    ensures longer + Parts(source, rs, close + d.size, close + d.size) == whole
  {
    var words, content := source[textStart..index], source[index + d.size..close];
    var rest := Parts(source, rs, close + d.size, close + d.size);
    PartsStep(source, rs, textStart, index, d, close, rest, Parts(source, rs, textStart, index));
    Regroup(parts, Worded(words), [Enclosed(d, content)], rest);
  }

  lemma NodesOfSpan(c: Classes, source: string, nodes: seq<Node>, parts: seq<Part>, textStart: nat, index: nat,
                    depth: nat,
                    d: Delimiter, close: nat, inner: seq<Node>, more: seq<Node>, longer: seq<Part>)
    requires textStart <= index && index + d.size <= close <= |source| && depth < MAX_DEPTH
    requires nodes == Deepened(c, parts, depth) && inner == Inside(c, source[index + d.size..close], d, depth)
    requires more == nodes + Pending(source[textStart..index]) + [Span(d, inner)]
    requires longer == SpanAdded(source, parts, textStart, index, d, close)
    ensures more == Deepened(c, longer, depth)
  {
    DeepenedSpan(c, parts, source[textStart..index], d, source[index + d.size..close], depth);
  }

  function SpanAdded(source: string, parts: seq<Part>, textStart: nat, index: nat, d: Delimiter, close: nat): seq<Part>
    requires textStart <= index && index + d.size <= close <= |source|
  {
    parts + Worded(source[textStart..index]) + [Enclosed(d, source[index + d.size..close])]
  }

  lemma AllHopelessLater(c: Classes, source: string, index: nat, later: nat, dead: set<Delimiter>)
    requires AllHopeless(c, source, index, dead) && index <= later
    ensures AllHopeless(c, source, later, dead)
  {
    forall d | d in dead ensures Hopeless(c, source, later, d) {
      assert Hopeless(c, source, index, d);
    }
  }

  method ReadHere(c: Classes, source: string, index: nat, dead: set<Delimiter>, budget: Budget)
    returns (r: Reading, newDead: set<Delimiter>)
    requires index < |source| && budget.remaining >= 0
    requires budget.remaining > 0 ==> AllHopeless(c, source, index, dead)
    modifies budget
    ensures old(budget.remaining) >= budget.remaining >= -7
    ensures Opens(source, index, r)
    ensures budget.remaining > 0 ==> r == Here(c, source, index)
    ensures budget.remaining > 0 ==> AllHopeless(c, source, index, newDead)
  {
    if Tick(source, index) {
      r, newDead := ReadTicks(c, source, index, dead, budget);
    } else {
      r, newDead := ReadCandidates(c, source, index, dead, budget);
    }
  }

  /** While the budget lasts: the plain reading goes on from here, and dead delimiters are
      hopeless. */
  ghost predicate OnTrack(c: Classes, source: string, left: int, nodes: seq<Node>, parts: seq<Part>, textStart: nat,
                          index: nat,
                          depth: nat, dead: set<Delimiter>)
    requires textStart <= index <= |source| && depth < MAX_DEPTH
  {
    left > 0 ==>
      Continues(c, source, Readings(c, source), nodes, parts, textStart, index, depth)
        && AllHopeless(c, source, index, dead)
  }

  lemma AdvanceOnTrack(c: Classes, source: string, nodes: seq<Node>, parts: seq<Part>, textStart: nat, index: nat,
                       next: nat,
                       depth: nat, dead: set<Delimiter>)
    requires textStart <= index < |source| && depth < MAX_DEPTH
    requires Continues(c, source, Readings(c, source), nodes, parts, textStart, index, depth)
    requires Here(c, source, index) == Advances(next) && index < next <= |source| && AllHopeless(c, source, index, dead)
    ensures OnTrack(c, source, 1, nodes, parts, textStart, next, depth, dead)
  {
    AllHopelessLater(c, source, index, next, dead);
    AdvanceParts(source, Readings(c, source), textStart, index, next);
  }

  lemma AdvanceParts(source: string, rs: seq<Reading>, textStart: nat, index: nat, next: nat)
    requires Sound(source, rs) && textStart <= index < |source| && rs[index] == Advances(next)
        && index < next <= |source|
    ensures Parts(source, rs, textStart, index) == Parts(source, rs, textStart, next)
  {
  }

  lemma SpanOnTrack(c: Classes, source: string, nodes: seq<Node>, parts: seq<Part>, textStart: nat, index: nat,
                    depth: nat,
                    d: Delimiter, close: nat, inner: seq<Node>, more: seq<Node>, dead: set<Delimiter>, left: int)
    requires textStart <= index < |source| && depth < MAX_DEPTH
    requires Continues(c, source, Readings(c, source), nodes, parts, textStart, index, depth)
    requires Here(c, source, index) == Spans(d, close) && Opens(source, index, Spans(d, close))
        && AllHopeless(c, source, index, dead)
    requires inner == Inside(c, source[index + d.size..close], d, depth)
    requires more == nodes + Pending(source[textStart..index]) + [Span(d, inner)]
    ensures OnTrack(c, source, left, more, SpanAdded(source, parts, textStart, index, d, close),
                    close + d.size, close + d.size, depth, dead)
  {
    var rs, longer := Readings(c, source), SpanAdded(source, parts, textStart, index, d, close);
    AllHopelessLater(c, source, index, close + d.size, dead);
    PartsOfSpan(source, rs, parts, textStart, index, d, close, longer, Parts(source, rs, 0, 0));
    NodesOfSpan(c, source, nodes, parts, textStart, index, depth, d, close, inner, more, longer);
  }

  /** One round: a span taken in, or characters passed over. */
  method ReadOn(c: Classes, source: string, styles: set<Style>, budget: Budget, depth: nat, tokens: seq<Token>,
                ghost nodes: seq<Node>, ghost parts: seq<Part>, textStart: nat, index: nat, dead: set<Delimiter>)
    returns (longer: seq<Token>, ghost more: seq<Node>, ghost moreParts: seq<Part>, newStart: nat, next: nat,
      newDead: set<Delimiter>)
    requires depth < MAX_DEPTH && textStart <= index < |source| && budget.remaining >= 0
    requires Stands(tokens, nodes, styles, source, textStart)
    requires OnTrack(c, source, budget.remaining, nodes, parts, textStart, index, depth, dead)
    modifies budget
    ensures old(budget.remaining) >= budget.remaining > Floor(depth)
    ensures newStart <= next <= |source| && index < next && Stands(longer, more, styles, source, newStart)
    ensures OnTrack(c, source, budget.remaining, more, moreParts, newStart, next, depth, newDead)
    decreases MAX_DEPTH - depth, 3
  {
    var r;
    r, newDead := ReadHere(c, source, index, dead, budget);
    if r.Advances? {
      longer, more, moreParts, newStart, next := tokens, nodes, parts, textStart, r.next;
      if budget.remaining > 0 { AdvanceOnTrack(c, source, nodes, parts, textStart, index, next, depth, newDead); }
    } else {
      longer, more, moreParts, next :=
        TakeSpan(c, source, styles, budget, depth, tokens, nodes, parts, textStart, index, r.d, r.close, newDead);
      newStart := next;
    }
  }

  method TakeSpan(c: Classes, source: string, styles: set<Style>, budget: Budget, depth: nat, tokens: seq<Token>,
                  ghost nodes: seq<Node>, ghost parts: seq<Part>, textStart: nat, index: nat, d: Delimiter, close: nat,
                  ghost dead: set<Delimiter>)
    returns (longer: seq<Token>, ghost more: seq<Node>, ghost moreParts: seq<Part>, next: nat)
    requires depth < MAX_DEPTH && textStart <= index < |source| && Opens(source, index, Spans(d, close))
    requires Stands(tokens, nodes, styles, source, textStart) && budget.remaining >= -7
    requires budget.remaining > 0 ==> Here(c, source, index) == Spans(d, close)
    requires OnTrack(c, source, budget.remaining, nodes, parts, textStart, index, depth, dead)
    modifies budget
    ensures old(budget.remaining) >= budget.remaining > Floor(depth)
    ensures next == close + d.size && Stands(longer, more, styles, source, next)
    ensures OnTrack(c, source, budget.remaining, more, moreParts, next, next, depth, dead)
    decreases MAX_DEPTH - depth, 2
  {
    next, moreParts := close + d.size, SpanAdded(source, parts, textStart, index, d, close);
    ghost var inner;
    longer, more, inner := PushDelimited(c, source, styles, budget, depth, tokens, nodes, textStart, index, d, close);
    if budget.remaining > 0 {
      SpanOnTrack(c, source, nodes, parts, textStart, index, depth, d, close, inner, more, dead, budget.remaining);
    }
  }

  method ParseInline(c: Classes, source: string, styles: set<Style>, budget: Budget, depth: nat)
    returns (tokens: seq<Token>, ghost nodes: seq<Node>)
    requires depth <= MAX_DEPTH
    modifies budget
    ensures Spends(old(budget.remaining), budget.remaining, depth)
    ensures tokens == TokensOf(nodes, styles) && SourceOf(nodes) == source
    ensures budget.remaining > 0 ==> nodes == Parsed(c, source, depth)
    decreases MAX_DEPTH - depth, 4
  {
    if depth >= MAX_DEPTH || budget.remaining <= 0 {
      tokens, nodes := AddText([], source, styles), Pending(source);
      PendingSpells(source);
      if source != "" { assert nodes[..0] == []; }
      return;
    }
    tokens, nodes := [], [];
    ghost var parts: seq<Part> := [];
    var dead: set<Delimiter> := {};
    var textStart: nat, index: nat := 0, 0;
    while index < |source|
      invariant textStart <= index <= |source|
      invariant Stands(tokens, nodes, styles, source, textStart)
      invariant old(budget.remaining) >= budget.remaining > Floor(depth)
      invariant OnTrack(c, source, budget.remaining, nodes, parts, textStart, index, depth, dead)
    {
      budget.remaining := budget.remaining - 1;
      if budget.remaining < 0 { break; }
      tokens, nodes, parts, textStart, index, dead :=
        ReadOn(c, source, styles, budget, depth, tokens, nodes, parts, textStart, index, dead);
    }
    AddPending(tokens, nodes, styles, source, textStart, |source|);
    assert source[textStart..|source|] == source[textStart..];
    tokens := AddText(tokens, source[textStart..], styles);
    nodes := nodes + Pending(source[textStart..]);
    DeepenedWords(c, parts, source[textStart..], depth);
    assert source[..|source|] == source;
  }

  // ---------------------------------------------------------------- whole lines

  const STEPS_PER_CHARACTER := 32

  predicate IsBlank(x: Option<char>) { x == Some(' ') || x == Some('\t') }

  function BlanksEnd(source: string, i: nat): (r: nat)
    requires i <= |source|
    ensures i <= r <= |source|
    decreases |source| - i
  {
    if IsBlank(At(source, i)) then BlanksEnd(source, i + 1) else i
  }

  /** The level of a heading and the length of its prefix. */
  function HeadingOf(source: string): (r: Option<(nat, nat)>)
    ensures r.Some? ==> 1 <= r.value.0 <= 6 && r.value.0 < r.value.1 <= |source|
  {
    var level := RunEnd(source, 0, '#');
    if 1 <= level <= 6 && IsBlank(At(source, level)) then Some((level, BlanksEnd(source, level + 1))) else None
  }

  /** The tokens of a line read without budget or shortcuts. */
  function LineTokens(c: Classes, source: string): seq<Token> {
    match HeadingOf(source)
    case None => TokensOf(Parsed(c, source, 0), {})
    case Some((level, prefix)) =>
      [Mark(source[..prefix], HeadingMark)] + TokensOf(Parsed(c, source[prefix..], 0), {Heading(level)})
  }

  /** What follows a line's heading prefix. */
  function RestOf(source: string): string {
    if HeadingOf(source).Some? then source[HeadingOf(source).value.1..] else source
  }

  /** Tokenizes a line. Its tokens spell the line whatever the budget; it takes at most 32
      steps a character and 40 more; and while the budget lasts, the tokens are those of the
      plain reading. */
  method ParseLine(c: Classes, source: string) returns (tokens: seq<Token>, steps: nat)
    ensures TextOf(tokens) == source
    ensures steps <= STEPS_PER_CHARACTER * |source| + 40
    ensures steps < STEPS_PER_CHARACTER * |RestOf(source)| ==> tokens == LineTokens(c, source)
  {
    var heading := HeadingOf(source);
    if heading.None? {
      tokens, steps := ParseFresh(c, source, {});
    } else {
      var prefix := heading.value.1;
      var rest, mark := source[prefix..], [Mark(source[..prefix], HeadingMark)];
      tokens, steps := ParseFresh(c, rest, {Heading(heading.value.0)});
      HeadingSpells(source, prefix, tokens);
      tokens := mark + tokens;
    }
  }

  lemma HeadingSpells(source: string, prefix: nat, tokens: seq<Token>)
    requires prefix <= |source| && TextOf(tokens) == source[prefix..]
    ensures TextOf([Mark(source[..prefix], HeadingMark)] + tokens) == source
  {
    var mark := [Mark(source[..prefix], HeadingMark)];
    assert mark[..0] == [] && TextOf(mark) == source[..prefix];
    TextOfAppend(mark, tokens);
    assert source[..prefix] + source[prefix..] == source;
  }

  /** Tokenizes text on a budget of its own. */
  method ParseFresh(c: Classes, text: string, styles: set<Style>) returns (tokens: seq<Token>, steps: nat)
    ensures TextOf(tokens) == text && steps <= STEPS_PER_CHARACTER * |text| + 40
    ensures steps < STEPS_PER_CHARACTER * |text| ==> tokens == TokensOf(Parsed(c, text, 0), styles)
  {
    var budget := new Budget(STEPS_PER_CHARACTER * |text|);
    ghost var nodes;
    tokens, nodes := ParseInline(c, text, styles, budget, 0);
    steps := STEPS_PER_CHARACTER * |text| - budget.remaining;
    TokensSpellSource(nodes, styles);
  }

  const INLINE_CACHE_LIMIT := 4096

  /** Lines read before, forgotten oldest first. */
  class InlineCache {
    const classes: Classes
    var lines: map<string, seq<Token>>
    var order: seq<string>

    constructor (classes: Classes)
      ensures Valid() && this.classes == classes
    {
      this.classes, lines, order := classes, map[], [];
    }

    /** Each cached line is listed once and spelled by its tokens. */
    ghost predicate Valid()
      reads this
    {
      && |order| <= INLINE_CACHE_LIMIT
      && (forall i, j :: 0 <= i < j < |order| ==> order[i] != order[j])
      && (forall s :: s in lines <==> s in order)
      && (forall s :: s in lines ==> TextOf(lines[s]) == s)
    }

    method ParseInlineMarkdown(source: string) returns (tokens: seq<Token>)
      requires Valid()
      modifies this
      ensures Valid() && TextOf(tokens) == source && source in lines && lines[source] == tokens
      ensures source in old(lines) ==> lines == old(lines) && tokens == old(lines)[source]
      ensures forall s :: s in lines && s != source ==> s in old(lines) && lines[s] == old(lines)[s]
    {
      if source in lines { return lines[source]; }
      var steps;
      tokens, steps := ParseLine(classes, source);
      if |order| >= INLINE_CACHE_LIMIT {
        lines, order := lines - {order[0]}, order[1..];
      }
      lines, order := lines[source := tokens], order + [source];
    }
  }
}
