/** Inline Markdown: delimiters, where they may open and close, and the plain reading of a
    line without budget or shortcuts. */
module InlineSpec {
  import opened Wrappers

  datatype Style = Heading(level: nat) | Strong | Emphasis | Code | Strikethrough
  datatype Marker = HeadingMark | StrongMark | EmphasisMark | CodeMark | StrikethroughMark
  datatype Token = Text(text: string, styles: set<Style>) | Mark(text: string, marker: Marker)
  /** A delimiter is one character some times over. */
  datatype Delimiter = Delimiter(ch: char, size: nat, marker: Marker, styles: set<Style>)

  function Spelling(d: Delimiter): string { seq(d.size, _ => d.ch) }

  /** The character classes of the runtime's regular expressions. */
  datatype Classes = Classes(space: char -> bool, word: char -> bool)

  const MAX_DEPTH := 32

  /** The delimiters tried at a position that starts no code span, in this order. */
  const CANDIDATES: seq<Delimiter> := [
    Delimiter('*', 3, EmphasisMark, {Strong, Emphasis}),
    Delimiter('_', 3, EmphasisMark, {Strong, Emphasis}),
    Delimiter('~', 2, StrikethroughMark, {Strikethrough}),
    Delimiter('*', 2, StrongMark, {Strong}),
    Delimiter('_', 2, StrongMark, {Strong}),
    Delimiter('*', 1, EmphasisMark, {Emphasis}),
    Delimiter('_', 1, EmphasisMark, {Emphasis})
  ]

  function CodeDelimiter(n: nat): Delimiter { Delimiter('`', n, CodeMark, {Code}) }

  function At(source: string, i: int): Option<char> {
    if 0 <= i < |source| then Some(source[i]) else None
  }

  predicate IsSpace(c: Classes, x: Option<char>) { x.None? || c.space(x.value) }

  predicate IsWord(c: Classes, x: Option<char>) { x.Some? && c.word(x.value) }

  function Slashes(source: string, index: nat): nat
    requires index <= |source|
  {
    if index > 0 && source[index - 1] == '\\' then 1 + Slashes(source, index - 1) else 0
  }

  predicate IsEscaped(source: string, index: nat)
    requires index <= |source|
  {
    Slashes(source, index) % 2 == 1
  }

  predicate Underscored(source: string, index: nat, d: Delimiter) {
    (d.marker == EmphasisMark || d.marker == StrongMark) && At(source, index) == Some('_')
  }

  predicate CanOpen(c: Classes, source: string, index: nat, d: Delimiter)
    requires index <= |source|
  {
    if IsEscaped(source, index) then false
    else if d.marker == CodeMark then true
    else if IsSpace(c, At(source, index + d.size)) then false
    else if Underscored(source, index, d) then !IsWord(c, At(source, index - 1))
        || !IsWord(c, At(source, index + d.size))
    else true
  }

  predicate CanClose(c: Classes, source: string, index: nat, d: Delimiter)
    requires index <= |source|
  {
    if IsEscaped(source, index) then false
    else if d.marker == CodeMark then true
    else if IsSpace(c, At(source, index - 1)) then false
    else if Underscored(source, index, d) then !IsWord(c, At(source, index - 1))
        || !IsWord(c, At(source, index + d.size))
    else true
  }

  /** How long the run of `x` that starts at `i` is. */
  function Run(source: string, i: nat, x: char): (n: nat)
    requires i <= |source|
    ensures i + n <= |source|
    decreases |source| - i
  {
    if i < |source| && source[i] == x then 1 + Run(source, i + 1, x) else 0
  }

  function RunEnd(source: string, i: nat, x: char): (r: nat)
    requires i <= |source|
    ensures i <= r <= |source|
  {
    i + Run(source, i, x)
  }

  lemma {:induction false} RunAt(source: string, i: nat, x: char, k: nat)
    requires i <= |source| && i <= k <= i + Run(source, i, x)
    ensures Run(source, k, x) == Run(source, i, x) - (k - i)
    ensures At(source, k) == Some(x) <==> k < i + Run(source, i, x)
    decreases |source| - i
  {
    if i < k { RunAt(source, i + 1, x, k); }
  }

  predicate StartsAt(source: string, i: nat, d: Delimiter) {
    0 < d.size && i < |source| && Run(source, i, d.ch) >= d.size
  }

  /** The first place from `from` on where the delimiter stands. */
  function IndexOf(source: string, d: Delimiter, from: nat): (r: Option<nat>)
    ensures r.Some? ==> from <= r.value && StartsAt(source, r.value, d)
    decreases |source| - from
  {
    if from >= |source| then None
    else if StartsAt(source, from, d) then Some(from)
    else IndexOf(source, d, from + 1)
  }

  lemma {:induction false} IndexOfFirst(source: string, d: Delimiter, from: nat, p: nat)
    requires from <= p && StartsAt(source, p, d)
    ensures IndexOf(source, d, from).Some? && IndexOf(source, d, from).value <= p
    decreases p - from
  {
    if !StartsAt(source, from, d) { IndexOfFirst(source, d, from + 1, p); }
  }

  /** Where a span opened before `start` closes. */
  function Closing(c: Classes, source: string, start: nat, d: Delimiter): (r: Option<nat>)
    ensures r.Some? ==> start <= r.value && StartsAt(source, r.value, d)
    decreases |source| - start
  {
    match IndexOf(source, d, start)
    case None => None
    case Some(i) =>
      var run := Run(source, i, d.ch);
      if SkipsRun(c, source, i, run, d) then Closing(c, source, i + run, d)
      else
        var close := CloseAt(d, i, run);
        RunAt(source, i, d.ch, close);
        if CanClose(c, source, close, d) then Some(close) else Closing(c, source, i + 1, d)
  }

  /** A run that cannot close: of the wrong length for code, or longer than a single
      emphasis delimiter and followed by text. */
  predicate SkipsRun(c: Classes, source: string, i: nat, run: nat, d: Delimiter) {
    || (d.marker == CodeMark && run != d.size)
    || (d.marker == EmphasisMark && d.size == 1 && run > 1 && !IsSpace(c, At(source, i + run)))
  }

  /** Code and strikethrough close where a run begins, the others where it ends. */
  function CloseAt(d: Delimiter, i: nat, run: nat): nat
    requires d.size <= run
  {
    if d.marker == CodeMark || d.marker == StrikethroughMark then i else i + run - d.size
  }

  // ---------------------------------------------------------------- the plain reading

  datatype Node = Plain(text: string) | Span(delimiter: Delimiter, inner: seq<Node>)

  /** What a place of the line reads as: a span, or text up to the next place to look. */
  datatype Reading = Spans(d: Delimiter, close: nat) | Advances(next: nat)

  predicate Opens(source: string, index: nat, r: Reading) {
    match r
    case Spans(d, close) => StartsAt(source, index, d) && StartsAt(source, close, d) && close > index + d.size
    case Advances(next) => index < next <= |source|
  }

  /** Where the span that `d` opens at `index` closes, if it opens, closes and holds something. */
  function Found(c: Classes, source: string, index: nat, d: Delimiter): (r: Option<nat>)
    requires index <= |source|
    ensures r.Some? ==> Opens(source, index, Spans(d, r.value))
  {
    if StartsAt(source, index, d) && CanOpen(c, source, index, d) then
      match Closing(c, source, index + d.size, d)
      case Some(close) => if close > index + d.size then Some(close) else None
      case None => None
    else None
  }

  /** The first candidate from number `k` on that spans something at `index`. */
  function Pick(c: Classes, source: string, index: nat, k: nat): (r: Option<(Delimiter, nat)>)
    requires index <= |source| && k <= |CANDIDATES|
    ensures r.Some? ==> Opens(source, index, Spans(r.value.0, r.value.1))
    decreases |CANDIDATES| - k
  {
    if k == |CANDIDATES| then None
    else
      match Found(c, source, index, CANDIDATES[k])
      case Some(close) => Some((CANDIDATES[k], close))
      case None => Pick(c, source, index, k + 1)
  }

  function Pending(text: string): seq<Node> {
    if text == "" then [] else [Plain(text)]
  }

  predicate Tick(source: string, index: nat)
    requires index < |source|
  {
    source[index] == '`' && !IsEscaped(source, index)
  }

  function Here(c: Classes, source: string, index: nat): (r: Reading)
    requires index < |source|
    ensures Opens(source, index, r)
  {
    if Tick(source, index) then
      var n := Run(source, index, '`');
      match Found(c, source, index, CodeDelimiter(n))
      case Some(close) => Spans(CodeDelimiter(n), close)
      case None => Advances(index + n)
    else
      match Pick(c, source, index, 0)
      case Some((d, close)) => Spans(d, close)
      case None => Advances(index + 1)
  }

  /** A line on one level: words, and spans with what they enclose still unread. */
  datatype Part = Words(text: string) | Enclosed(d: Delimiter, content: string)

  function Worded(text: string): seq<Part> { if text == "" then [] else [Words(text)] }

  /** What every place of a line reads as. */
  function Readings(c: Classes, source: string): (rs: seq<Reading>)
    ensures Sound(source, rs)
  {
    seq(|source|, i requires 0 <= i < |source| => Here(c, source, i))
  }

  ghost predicate Sound(source: string, rs: seq<Reading>) {
    |rs| == |source| && forall i :: 0 <= i < |rs| ==> Opens(source, i, rs[i])
  }

  /** The parts of the line from `textStart` on, when text up to `index` is known plain. */
  function Parts(source: string, rs: seq<Reading>, textStart: nat, index: nat): seq<Part>
    requires Sound(source, rs) && textStart <= index <= |source|
    decreases |source| - index
  {
    if index == |source| then Worded(source[textStart..])
    else
      match rs[index]
      case Advances(next) => Parts(source, rs, textStart, next)
      case Spans(d, close) =>
        Worded(source[textStart..index]) + [Enclosed(d, source[index + d.size..close])] +
        Parts(source, rs, close + d.size, close + d.size)
  }

  /** Code is taken as it is; anything else is read in turn. */
  function Inside(c: Classes, content: string, d: Delimiter, depth: nat): seq<Node>
    requires depth < MAX_DEPTH
    decreases MAX_DEPTH - depth, 0
  {
    if d.marker == CodeMark then Pending(content) else Parsed(c, content, depth + 1)
  }

  function Deepened(c: Classes, parts: seq<Part>, depth: nat): seq<Node>
    requires depth < MAX_DEPTH
    decreases MAX_DEPTH - depth, 1, |parts|
  {
    if parts == [] then []
    else Deepened(c, parts[..|parts| - 1], depth) + [DeepenedPart(c, parts[|parts| - 1], depth)]
  }

  function DeepenedPart(c: Classes, part: Part, depth: nat): Node
    requires depth < MAX_DEPTH
    decreases MAX_DEPTH - depth, 1, 0
  {
    match part
    case Words(text) => Plain(text)
    case Enclosed(d, content) => Span(d, Inside(c, content, d, depth))
  }

  function Parsed(c: Classes, source: string, depth: nat): seq<Node>
    requires depth <= MAX_DEPTH
    decreases MAX_DEPTH - depth, 2
  {
    if depth == MAX_DEPTH then Pending(source) else Deepened(c, Parts(source, Readings(c, source), 0, 0), depth)
  }

  /** The token stream of nodes: delimiters stay in it, and text carries the styles of all
      spans around it. */
  function TokensOf(nodes: seq<Node>, styles: set<Style>): seq<Token> {
    if nodes == [] then []
    else TokensOf(nodes[..|nodes| - 1], styles) + TokensOfNode(nodes[|nodes| - 1], styles)
  }

  function TokensOfNode(node: Node, styles: set<Style>): seq<Token> {
    match node
    case Plain(text) => [Text(text, styles)]
    case Span(d, inner) =>
      [Mark(Spelling(d), d.marker)] + TokensOf(inner, styles + d.styles) + [Mark(Spelling(d), d.marker)]
  }

  function SourceOf(nodes: seq<Node>): string {
    if nodes == [] then ""
    else SourceOf(nodes[..|nodes| - 1]) + SourceOfNode(nodes[|nodes| - 1])
  }

  function SourceOfNode(node: Node): string {
    match node
    case Plain(text) => text
    case Span(d, inner) => Spelling(d) + SourceOf(inner) + Spelling(d)
  }

  function TextOf(tokens: seq<Token>): string {
    if tokens == [] then "" else TextOf(tokens[..|tokens| - 1]) + tokens[|tokens| - 1].text
  }
}
