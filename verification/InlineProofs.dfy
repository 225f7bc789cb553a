/** Tokens lose nothing, and a delimiter found unclosed stays unclosed. */
module InlineProofs {
  import opened Wrappers
  import opened Sequences
  import opened InlineSpec

  // ---------------------------------------------------------------- a place where a span may close

  /** `p` is a place where a search for `d` from `start` may end. */
  ghost predicate Good(c: Classes, source: string, start: nat, p: nat, d: Delimiter) {
    && start <= p && StartsAt(source, p, d) && CanClose(c, source, p, d)
    && match d.marker
       case CodeMark => Run(source, p, d.ch) == d.size && At(source, p - 1) != Some(d.ch)
       case StrikethroughMark => true
       case _ =>
         && Run(source, p, d.ch) == d.size
         && (d.marker == EmphasisMark && d.size == 1 ==>
               p == start || At(source, p - 1) != Some(d.ch) || IsSpace(c, At(source, p + 1)))
  }

  /** A code search that starts here starts outside every run long enough to match. */
  ghost predicate Outside(source: string, start: nat, d: Delimiter) {
    d.marker == CodeMark && start <= |source| && At(source, start - 1) == Some(d.ch) ==>
      Run(source, start, d.ch) < d.size
  }

  /** The first place where the delimiter stands from `start` on. */
  ghost predicate Hit(source: string, start: nat, i: nat, d: Delimiter) {
    && start <= i && IndexOf(source, d, start) == Some(i) && StartsAt(source, i, d)
    && (i > start || d.marker == CodeMark ==> At(source, i - 1) != Some(d.ch))
  }

  lemma IsHit(source: string, start: nat, d: Delimiter, i: nat)
    requires Outside(source, start, d) && IndexOf(source, d, start) == Some(i)
    ensures Hit(source, start, i, d)
  {
    if i > start && source[i - 1] == d.ch { IndexOfFirst(source, d, start, i - 1); }
  }

  lemma AfterSkip(c: Classes, source: string, start: nat, i: nat, d: Delimiter, p: nat)
    requires Hit(source, start, i, d) && Good(c, source, start, p, d)
    requires SkipsRun(c, source, i, Run(source, i, d.ch), d)
    ensures Good(c, source, i + Run(source, i, d.ch), p, d) && Outside(source, i + Run(source, i, d.ch), d)
  {
    var end := i + Run(source, i, d.ch);
    RunAt(source, i, d.ch, end);
    IndexOfFirst(source, d, start, p);
    if p < end {
      RunAt(source, i, d.ch, p);
      if p > i { RunAt(source, i, d.ch, p - 1); }
    }
  }

  lemma AfterRefusal(c: Classes, source: string, start: nat, i: nat, d: Delimiter, p: nat)
    requires Hit(source, start, i, d) && Good(c, source, start, p, d)
    requires !SkipsRun(c, source, i, Run(source, i, d.ch), d)
        && !CanClose(c, source, CloseAt(d, i, Run(source, i, d.ch)), d)
    ensures Good(c, source, i + 1, p, d) && Outside(source, i + 1, d)
  {
    IndexOfFirst(source, d, start, p);
    RunAt(source, i, d.ch, i + 1);
  }

  /** A search finds a close whenever there is a place for one. */
  lemma {:induction false} ClosingComplete(c: Classes, source: string, start: nat, d: Delimiter, p: nat)
    requires Outside(source, start, d) && Good(c, source, start, p, d)
    ensures Closing(c, source, start, d).Some?
    decreases |source| - start
  {
    IndexOfFirst(source, d, start, p);
    var i := IndexOf(source, d, start).value;
    IsHit(source, start, d, i);
    if SkipsRun(c, source, i, Run(source, i, d.ch), d) {
      AfterSkip(c, source, start, i, d, p);
      ClosingComplete(c, source, i + Run(source, i, d.ch), d, p);
    } else if !CanClose(c, source, CloseAt(d, i, Run(source, i, d.ch)), d) {
      AfterRefusal(c, source, start, i, d, p);
      ClosingComplete(c, source, i + 1, d, p);
    }
  }

  lemma HitIsGood(c: Classes, source: string, start: nat, i: nat, d: Delimiter)
    requires Hit(source, start, i, d) && !SkipsRun(c, source, i, Run(source, i, d.ch), d)
    requires CanClose(c, source, CloseAt(d, i, Run(source, i, d.ch)), d)
    ensures Good(c, source, start, CloseAt(d, i, Run(source, i, d.ch)), d)
  {
    RunAt(source, i, d.ch, CloseAt(d, i, Run(source, i, d.ch)));
  }

  lemma BeforeSkip(c: Classes, source: string, start: nat, i: nat, d: Delimiter, p: nat)
    requires Hit(source, start, i, d) && Good(c, source, i + Run(source, i, d.ch), p, d)
    ensures Good(c, source, start, p, d)
  {
    RunAt(source, i, d.ch, i + Run(source, i, d.ch));
  }

  lemma BeforeRefusal(c: Classes, source: string, start: nat, i: nat, d: Delimiter, p: nat)
    requires Hit(source, start, i, d) && !SkipsRun(c, source, i, Run(source, i, d.ch), d)
        && Good(c, source, i + 1, p, d)
    ensures Good(c, source, start, p, d)
  {
    RunAt(source, i, d.ch, i + 1);
  }

  lemma OutsideNext(c: Classes, source: string, i: nat, d: Delimiter)
    requires StartsAt(source, i, d)
    ensures Outside(source, i + Run(source, i, d.ch), d)
    ensures !SkipsRun(c, source, i, Run(source, i, d.ch), d) ==> Outside(source, i + 1, d)
  {
    RunAt(source, i, d.ch, i + 1);
    RunAt(source, i, d.ch, i + Run(source, i, d.ch));
  }

  /** What a search finds is a place for a close. */
  lemma {:induction false} ClosingGood(c: Classes, source: string, start: nat, d: Delimiter, p: nat)
    requires Outside(source, start, d) && Closing(c, source, start, d) == Some(p)
    ensures Good(c, source, start, p, d)
    decreases |source| - start
  {
    var i := IndexOf(source, d, start).value;
    IsHit(source, start, d, i);
    OutsideNext(c, source, i, d);
    if SkipsRun(c, source, i, Run(source, i, d.ch), d) {
      ClosingGood(c, source, i + Run(source, i, d.ch), d, p);
      BeforeSkip(c, source, start, i, d, p);
    } else if CanClose(c, source, CloseAt(d, i, Run(source, i, d.ch)), d) {
      HitIsGood(c, source, start, i, d);
    } else {
      ClosingGood(c, source, i + 1, d, p);
      BeforeRefusal(c, source, start, i, d, p);
    }
  }

  /** A search that failed once finds nothing beyond its own start from any later place. */
  lemma FailsLater(c: Classes, source: string, start: nat, later: nat, d: Delimiter, p: nat)
    requires start <= later && Outside(source, start, d) && Outside(source, later, d)
    requires Closing(c, source, start, d).None? && Closing(c, source, later, d) == Some(p)
    ensures p <= later
  {
    ClosingGood(c, source, later, d, p);
    if p > later { ClosingComplete(c, source, start, d, p); }
  }

  /** A delimiter whose search failed once spans nothing from any later place, so there is
      no use in searching for it again. */
  lemma DeadStaysDead(c: Classes, source: string, index: nat, later: nat, d: Delimiter)
    requires index <= later <= |source|
    requires Outside(source, index + d.size, d) && Outside(source, later + d.size, d)
    requires Closing(c, source, index + d.size, d).None?
    ensures Found(c, source, later, d).None?
  {
    if Closing(c, source, later + d.size, d).Some? {
      FailsLater(c, source, index + d.size, later + d.size, d, Closing(c, source, later + d.size, d).value);
    }
  }

  // ---------------------------------------------------------------- nothing is lost

  lemma {:induction false} SourceOfAppend(a: seq<Node>, b: seq<Node>)
    ensures SourceOf(a + b) == SourceOf(a) + SourceOf(b)
  {
    if b == [] {
      assert a + b == a;
    } else {
      SourceOfAppend(a, b[..|b| - 1]);
      assert (a + b)[..|a + b| - 1] == a + b[..|b| - 1];
      Associates(SourceOf(a), SourceOf(b[..|b| - 1]), SourceOfNode(b[|b| - 1]));
    }
  }

  lemma {:induction false} TextOfAppend(a: seq<Token>, b: seq<Token>)
    ensures TextOf(a + b) == TextOf(a) + TextOf(b)
  {
    if b == [] {
      assert a + b == a;
    } else {
      TextOfAppend(a, b[..|b| - 1]);
      assert (a + b)[..|a + b| - 1] == a + b[..|b| - 1];
      Associates(TextOf(a), TextOf(b[..|b| - 1]), b[|b| - 1].text);
    }
  }

  lemma {:induction false} TokensOfAppend(a: seq<Node>, b: seq<Node>, styles: set<Style>)
    ensures TokensOf(a + b, styles) == TokensOf(a, styles) + TokensOf(b, styles)
  {
    if b == [] {
      assert a + b == a;
    } else {
      TokensOfAppend(a, b[..|b| - 1], styles);
      assert (a + b)[..|a + b| - 1] == a + b[..|b| - 1];
      Associates(TokensOf(a, styles), TokensOf(b[..|b| - 1], styles), TokensOfNode(b[|b| - 1], styles));
    }
  }

  /** The tokens of any nodes spell their source. */
  lemma {:induction false} TokensSpellSource(nodes: seq<Node>, styles: set<Style>)
    ensures TextOf(TokensOf(nodes, styles)) == SourceOf(nodes)
    decreases nodes, 0
  {
    if nodes != [] {
      TokensSpellSource(nodes[..|nodes| - 1], styles);
      NodeSpellsSource(nodes[|nodes| - 1], styles);
      TextOfAppend(TokensOf(nodes[..|nodes| - 1], styles), TokensOfNode(nodes[|nodes| - 1], styles));
    }
  }

  lemma {:induction false} NodeSpellsSource(node: Node, styles: set<Style>)
    ensures TextOf(TokensOfNode(node, styles)) == SourceOfNode(node)
    decreases node, 1
  {
    match node
    case Plain(text) =>
      assert TokensOfNode(node, styles)[..0] == [];
    case Span(d, inner) =>
      TokensSpellSource(inner, styles + d.styles);
      var mark := [Mark(Spelling(d), d.marker)];
      assert mark[..0] == [] && TextOf(mark) == Spelling(d);
      TextOfAppend(mark, TokensOf(inner, styles + d.styles));
      TextOfAppend(mark + TokensOf(inner, styles + d.styles), mark);
  }

  lemma PendingSpells(text: string)
    ensures SourceOf(Pending(text)) == text
  {
    if text != "" { assert [Plain(text)][..0] == []; }
  }

  lemma Slices<T>(s: seq<T>, i: nat, j: nat, k: nat)
    requires i <= j <= k <= |s|
    ensures s[i..j] + s[j..k] == s[i..k]
  {
  }

  lemma SpelledThere(source: string, i: nat, d: Delimiter)
    requires StartsAt(source, i, d)
    ensures source[i..i + d.size] == Spelling(d)
  {
    forall k | 0 <= k < d.size ensures source[i..i + d.size][k] == Spelling(d)[k] {
      RunAt(source, i, d.ch, i + k);
    }
  }

  /** A delimiter, what it encloses and the delimiter again are one stretch of the line. */
  lemma SpanInPlace(source: string, from: nat, index: nat, d: Delimiter, close: nat)
    requires from <= index && StartsAt(source, index, d) && StartsAt(source, close, d) && index + d.size <= close
    ensures source[from..index] + (Spelling(d) + source[index + d.size..close] + Spelling(d))
        == source[from..close + d.size]
  {
    SpelledThere(source, index, d);
    SpelledThere(source, close, d);
    Slices(source, index, index + d.size, close);
    Slices(source, index, close, close + d.size);
    Slices(source, from, index, close + d.size);
  }

  // ---------------------------------------------------------------- the plain reading loses nothing

  /** What parts spell. */
  function Spelled(parts: seq<Part>): string {
    if parts == [] then "" else SpelledPart(parts[0]) + Spelled(parts[1..])
  }

  function SpelledPart(part: Part): string {
    match part
    case Words(text) => text
    case Enclosed(d, content) => Spelling(d) + content + Spelling(d)
  }

  lemma SpelledSpan(words: string, d: Delimiter, content: string, rest: seq<Part>)
    ensures Spelled(Worded(words) + [Enclosed(d, content)] + rest)
        == words + ((Spelling(d) + content + Spelling(d)) + Spelled(rest))
  {
    var span := [Enclosed(d, content)] + rest;
    assert span[1..] == rest && Spelled(span) == (Spelling(d) + content + Spelling(d)) + Spelled(rest);
    if words == "" {
      assert Worded(words) + [Enclosed(d, content)] + rest == span;
    } else {
      assert Worded(words) + [Enclosed(d, content)] + rest == [Words(words)] + span;
      assert ([Words(words)] + span)[1..] == span;
    }
  }

  lemma LineFrom(source: string, from: nat, index: nat, d: Delimiter, close: nat)
    requires from <= index && StartsAt(source, index, d) && StartsAt(source, close, d) && index + d.size <= close
    ensures source[from..index] + ((Spelling(d) + source[index + d.size..close] + Spelling(d)) +
        source[close + d.size..]) == source[from..]
  {
    SpanInPlace(source, index, index, d, close);
    assert source[index..index] == [];
    SliceToEnd(source, index, close + d.size);
    SliceToEnd(source, from, index);
  }

  lemma SliceToEnd<T>(s: seq<T>, i: nat, j: nat)
    requires i <= j <= |s|
    ensures s[i..j] + s[j..] == s[i..]
  {
  }

  lemma PartsStep(source: string, rs: seq<Reading>, textStart: nat, index: nat, d: Delimiter, close: nat,
                  rest: seq<Part>, whole: seq<Part>)
    requires Sound(source, rs) && textStart <= index < |source| && rs[index] == Spans(d, close)
    requires Opens(source, index, rs[index]) && rest == Parts(source, rs, close + d.size, close + d.size)
    requires whole == Parts(source, rs, textStart, index)
    ensures whole == Worded(source[textStart..index]) + [Enclosed(d, source[index + d.size..close])] + rest
  {
  }

  lemma SpanKeepsSource(source: string, rs: seq<Reading>, textStart: nat, index: nat, d: Delimiter, close: nat,
                        rest: seq<Part>, whole: seq<Part>)
    requires Sound(source, rs) && textStart <= index < |source| && rs[index] == Spans(d, close)
    requires Opens(source, index, rs[index]) && rest == Parts(source, rs, close + d.size, close + d.size)
    requires whole == Parts(source, rs, textStart, index) && Spelled(rest) == source[close + d.size..]
    ensures Spelled(whole) == source[textStart..]
  {
    var words, content := source[textStart..index], source[index + d.size..close];
    PartsStep(source, rs, textStart, index, d, close, rest, whole);
    SpelledSpan(words, d, content, rest);
    LineFrom(source, textStart, index, d, close);
  }

  lemma {:induction false} WholeKeepsSource(source: string, rs: seq<Reading>, textStart: nat, index: nat,
                                            whole: seq<Part>)
    requires Sound(source, rs) && textStart <= index <= |source| && whole == Parts(source, rs, textStart, index)
    ensures Spelled(whole) == source[textStart..]
    decreases |source| - index
  {
    if index < |source| {
      assert Opens(source, index, rs[index]);
      match rs[index]
      case Advances(next) => WholeKeepsSource(source, rs, textStart, next, whole);
      case Spans(d, close) =>
        var rest := Parts(source, rs, close + d.size, close + d.size);
        WholeKeepsSource(source, rs, close + d.size, close + d.size, rest);
        SpanKeepsSource(source, rs, textStart, index, d, close, rest, whole);
    }
  }

  /** The parts of a line keep every character in its place. */
  lemma PartsKeepSource(source: string, rs: seq<Reading>, textStart: nat, index: nat)
    requires Sound(source, rs) && textStart <= index <= |source|
    ensures Spelled(Parts(source, rs, textStart, index)) == source[textStart..]
  {
    WholeKeepsSource(source, rs, textStart, index, Parts(source, rs, textStart, index));
  }
}
