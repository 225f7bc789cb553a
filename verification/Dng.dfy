/** The walk through a TIFF container that finds its largest JPEG preview. */
module Dng {

  type Byte = x: nat | x < 256
  type Bytes = seq<Byte>

  datatype Error = TooSmall | BadByteOrder | BadHeader | NoJpeg
  datatype Result = Ok(jpeg: Bytes) | Err(error: Error)

  const MAX_DIRECTORIES := 128
  const MAX_ENTRIES := 4096
  const MAX_VALUES := 100_000

  /** A file, by byte order. */
  datatype File = File(bytes: Bytes, little: bool)

  predicate Holds(f: File, offset: nat, size: nat) { offset + size <= |f.bytes| }

  function U16(f: File, offset: nat): nat
    requires Holds(f, offset, 2)
  {
    var first: nat, second: nat := f.bytes[offset], f.bytes[offset + 1];
    if f.little then first + 256 * second else 256 * first + second
  }

  function U32(f: File, offset: nat): nat
    requires Holds(f, offset, 4)
  {
    if f.little then U16(f, offset) + 65536 * U16(f, offset + 2) else 65536 * U16(f, offset) + U16(f, offset + 2)
  }

  // ---------------------------------------------------------------- one JPEG

  /** A byte, 0 past the end. */
  function ByteAt(jpeg: Bytes, i: nat): nat { if i < |jpeg| then jpeg[i] else 0 }

  function BigEndian(jpeg: Bytes, i: nat): nat { 256 * ByteAt(jpeg, i) + ByteAt(jpeg, i + 1) }

  function PastFill(jpeg: Bytes, i: nat): (r: nat)
    requires i <= |jpeg|
    ensures i <= r <= |jpeg| && (r < |jpeg| ==> jpeg[r] != 0xff)
    decreases |jpeg| - i
  {
    if i < |jpeg| && jpeg[i] == 0xff then PastFill(jpeg, i + 1) else i
  }

  predicate IsFrame(marker: nat) { 0xc0 <= marker <= 0xcf && marker != 0xc4 && marker != 0xc8 && marker != 0xcc }

  /** Width and height from the first frame header from `offset` on. */
  function SizeFrom(jpeg: Bytes, offset: nat): (nat, nat)
    decreases |jpeg| - offset
  {
    if offset + 8 >= |jpeg| then (0, 0)
    else if jpeg[offset] != 0xff then SizeFrom(jpeg, offset + 1)
    else
      var at := PastFill(jpeg, offset);
      if at < |jpeg| && (jpeg[at] == 0xd8 || jpeg[at] == 0xd9 || jpeg[at] == 0x01) then SizeFrom(jpeg, at + 1)
      else if at + 3 > |jpeg| then (0, 0)
      else
        var length := BigEndian(jpeg, at + 1);
        if length < 2 || at + 1 + length > |jpeg| then (0, 0)
        else if IsFrame(jpeg[at]) then (BigEndian(jpeg, at + 6), BigEndian(jpeg, at + 4))
        else SizeFrom(jpeg, at + 1 + length)
  }

  method JpegDimensions(jpeg: Bytes) returns (width: nat, height: nat)
    ensures (width, height) == SizeFrom(jpeg, 2)
  {
    var offset := 2;
    while offset + 8 < |jpeg|
      invariant 2 <= offset && SizeFrom(jpeg, offset) == SizeFrom(jpeg, 2)
      decreases |jpeg| - offset
    {
      if jpeg[offset] != 0xff {
        offset := offset + 1;
        continue;
      }
      ghost var entry := offset;
      while offset < |jpeg| && jpeg[offset] == 0xff
        invariant entry <= offset <= |jpeg| && PastFill(jpeg, offset) == PastFill(jpeg, entry)
      {
        offset := offset + 1;
      }
      var marker := ByteAt(jpeg, offset);
      offset := offset + 1;
      if offset <= |jpeg| && (marker == 0xd8 || marker == 0xd9 || marker == 0x01) { continue; }
      if offset + 2 > |jpeg| { break; }
      var length := BigEndian(jpeg, offset);
      if length < 2 || offset + length > |jpeg| { break; }
      if IsFrame(marker) {
        return BigEndian(jpeg, offset + 5), BigEndian(jpeg, offset + 3);
      }
      offset := offset + length;
    }
    return 0, 0;
  }

  // ---------------------------------------------------------------- one directory

  function TypeSize(kind: nat): nat {
    match kind
    case 1 => 1
    case 2 => 1
    case 3 => 2
    case 4 => 4
    case 5 => 8
    case 7 => 1
    case 9 => 4
    case 10 => 8
    case _ => 0
  }

  predicate Readable(kind: nat) { kind in {1, 3, 4, 7} }

  function ValueAt(f: File, kind: nat, offset: nat): nat
    requires Readable(kind) && Holds(f, offset, TypeSize(kind))
  {
    if kind == 3 then U16(f, offset) else if kind == 4 then U32(f, offset) else f.bytes[offset]
  }

  lemma ValueInside(f: File, kind: nat, start: nat, count: nat, i: nat)
    requires i < count && start + count * TypeSize(kind) <= |f.bytes|
    ensures 0 <= i * TypeSize(kind) && Holds(f, start + i * TypeSize(kind), TypeSize(kind))
  {
    assert (i + 1) * TypeSize(kind) <= count * TypeSize(kind);
    assert (i + 1) * TypeSize(kind) == i * TypeSize(kind) + TypeSize(kind);
  }

  /** The values side by side from `start` on. */
  function Stretch(f: File, kind: nat, start: nat, count: nat): seq<nat>
    requires Readable(kind) && start + count * TypeSize(kind) <= |f.bytes|
  {
    seq(count, i requires 0 <= i < count =>
      ValueInside(f, kind, start, count, i);
      ValueAt(f, kind, start + i * TypeSize(kind)))
  }

  /** The values an entry declares, none if its type is unknown or they lie outside the file. */
  function Values(f: File, entry: nat): seq<nat>
    requires Holds(f, entry, 12)
  {
    var kind, count := U16(f, entry + 2), U32(f, entry + 4);
    var size := TypeSize(kind);
    if size == 0 || count > MAX_VALUES then []
    else
      var start := if count * size <= 4 then entry + 8 else U32(f, entry + 8);
      if start + count * size > |f.bytes| || !Readable(kind) then [] else Stretch(f, kind, start, count)
  }

  method ReadValues(f: File, kind: nat, start: nat, count: nat) returns (values: seq<nat>)
    requires start + count * TypeSize(kind) <= |f.bytes|
    ensures values == if Readable(kind) then Stretch(f, kind, start, count) else []
  {
    values := [];
    for i := 0 to count
      invariant values == if Readable(kind) then Stretch(f, kind, start, count)[..i] else []
    {
      ValueInside(f, kind, start, count, i);
      var offset := start + i * TypeSize(kind);
      if kind == 1 || kind == 7 { values := values + [f.bytes[offset]]; }
      else if kind == 3 { values := values + [U16(f, offset)]; }
      else if kind == 4 { values := values + [U32(f, offset)]; }
    }
  }

  method ValuesAt(f: File, entry: nat) returns (values: seq<nat>)
    requires Holds(f, entry, 12)
    ensures values == Values(f, entry)
  {
    var kind, count := U16(f, entry + 2), U32(f, entry + 4);
    var size := TypeSize(kind);
    if size == 0 || count > MAX_VALUES { return []; }
    var length := count * size;
    var start := if length <= 4 then entry + 8 else U32(f, entry + 8);
    if start + length > |f.bytes| { return []; }
    values := ReadValues(f, kind, start, count);
  }

  /** A directory stands here whole. */
  predicate IsDirectory(f: File, d: nat) {
    Holds(f, d, 2) && U16(f, d) <= MAX_ENTRIES && Holds(f, d, 2 + U16(f, d) * 12 + 4)
  }

  /** The tags of the first `n` entries; of one tag the last entry counts. */
  function Tags(f: File, d: nat, n: nat): map<nat, seq<nat>>
    requires IsDirectory(f, d) && n <= U16(f, d)
  {
    if n == 0 then map[] else Tags(f, d, n - 1)[U16(f, d + 2 + (n - 1) * 12) := Values(f, d + 2 + (n - 1) * 12)]
  }

  function Tag(tags: map<nat, seq<nat>>, tag: nat): seq<nat> { if tag in tags then tags[tag] else [] }

  datatype Candidate = Candidate(offset: nat, length: nat)

  predicate IsJpeg(f: File, c: Candidate) {
    c.length >= 4 && Holds(f, c.offset, c.length) && f.bytes[c.offset] == 0xff && f.bytes[c.offset + 1] == 0xd8
  }

  /** The candidates that offsets and lengths declare pair by pair. */
  function Pairs(f: File, offsets: seq<nat>, lengths: seq<nat>, n: nat): seq<Candidate>
    requires n <= |offsets| && n <= |lengths|
  {
    if n == 0 then []
    else
      var c := Candidate(offsets[n - 1], lengths[n - 1]);
      Pairs(f, offsets, lengths, n - 1) + if IsJpeg(f, c) then [c] else []
  }

  function Min(a: nat, b: nat): nat { if a <= b then a else b }

  function Paired(f: File, offsets: seq<nat>, lengths: seq<nat>): seq<Candidate> {
    Pairs(f, offsets, lengths, Min(|offsets|, |lengths|))
  }

  /** Everything a directory declares: previews, then strips, then tiles. */
  function Declared(f: File, d: nat): seq<Candidate>
    requires IsDirectory(f, d)
  {
    var tags := Tags(f, d, U16(f, d));
    Paired(f, Tag(tags, 513), Tag(tags, 514)) + Paired(f, Tag(tags, 273), Tag(tags, 279)) +
    Paired(f, Tag(tags, 324), Tag(tags, 325))
  }

  function Positive(values: seq<nat>): seq<nat> {
    if values == [] then []
    else Positive(values[..|values| - 1]) + if values[|values| - 1] > 0 then [values[|values| - 1]] else []
  }

  /** The directories it links to: its children, then the next one. */
  function Links(f: File, d: nat): seq<nat>
    requires IsDirectory(f, d)
  {
    var tags := Tags(f, d, U16(f, d));
    Positive(Tag(tags, 330) + Tag(tags, 34665)) + Positive([U32(f, d + 2 + U16(f, d) * 12)])
  }

  method ReadTags(f: File, d: nat) returns (tags: map<nat, seq<nat>>)
    requires IsDirectory(f, d)
    ensures tags == Tags(f, d, U16(f, d))
  {
    tags := map[];
    for i := 0 to U16(f, d)
      invariant tags == Tags(f, d, i)
    {
      var entry := d + 2 + i * 12;
      var values := ValuesAt(f, entry);
      tags := tags[U16(f, entry) := values];
    }
  }

  method AddCandidates(f: File, offsets: seq<nat>, lengths: seq<nat>, candidates: seq<Candidate>)
    returns (more: seq<Candidate>)
    ensures more == candidates + Paired(f, offsets, lengths)
  {
    more := candidates;
    for i := 0 to Min(|offsets|, |lengths|)
      invariant more == candidates + Pairs(f, offsets, lengths, i)
    {
      var c := Candidate(offsets[i], lengths[i]);
      if c.length < 4 || c.offset + c.length > |f.bytes| || f.bytes[c.offset] != 0xff
          || f.bytes[c.offset + 1] != 0xd8 {
        continue;
      }
      more := more + [c];
    }
  }

  // ---------------------------------------------------------------- the walk

  predicate Enterable(f: File, d: nat) { d > 0 && Holds(f, d, 2) }

  function LinksOf(f: File, d: nat): seq<nat> { if IsDirectory(f, d) then Links(f, d) else [] }

  function DeclaredBy(f: File, d: nat): seq<Candidate> { if IsDirectory(f, d) then Declared(f, d) else [] }

  /** A chain of links from the first directory on. */
  ghost predicate IsPath(f: File, first: nat, path: seq<nat>) {
    && path != [] && path[0] == first
    && (forall k :: 0 <= k < |path| ==> Enterable(f, path[k]))
    && (forall k :: 0 <= k < |path| - 1 ==> path[k + 1] in LinksOf(f, path[k]))
  }

  ghost predicate Reachable(f: File, first: nat, d: nat) {
    exists path :: IsPath(f, first, path) && path[|path| - 1] == d
  }

  lemma ReachesNext(f: File, first: nat, d: nat, next: nat)
    requires Reachable(f, first, d) && next in LinksOf(f, d) && Enterable(f, next)
    ensures Reachable(f, first, next)
  {
    var path :| IsPath(f, first, path) && path[|path| - 1] == d;
    var longer := path + [next];
    assert forall k :: 0 <= k < |path| ==> longer[k] == path[k];
    assert IsPath(f, first, longer) && longer[|longer| - 1] == next;
  }

  lemma ReachesFirst(f: File, first: nat)
    requires Enterable(f, first)
    ensures Reachable(f, first, first)
  {
    assert IsPath(f, first, [first]);
  }

  /** Every link from a visited directory leads to one visited or waiting. */
  ghost predicate Closed(f: File, first: nat, visited: set<nat>, queue: seq<nat>) {
    && (Enterable(f, first) ==> first in visited || first in queue)
    && (forall d, next :: d in visited && next in LinksOf(f, d) && Enterable(f, next) ==>
      next in visited || next in queue)
  }

  ghost predicate AllReached(f: File, first: nat, visited: set<nat>, queue: seq<nat>) {
    && (forall d :: d in visited ==> Enterable(f, d) && Reachable(f, first, d))
    && (forall d :: d in queue && Enterable(f, d) ==> Reachable(f, first, d))
  }

  /** The candidates are those of the directories visited. */
  ghost predicate Collected(f: File, visited: set<nat>, candidates: seq<Candidate>) {
    && (forall c :: c in candidates ==> exists d :: d in visited && c in DeclaredBy(f, d))
    && (forall d, c :: d in visited && c in DeclaredBy(f, d) ==> c in candidates)
  }

  lemma {:induction false} ClosedHoldsPath(f: File, first: nat, visited: set<nat>, path: seq<nat>)
    requires Closed(f, first, visited, []) && IsPath(f, first, path)
    ensures path[|path| - 1] in visited
  {
    if |path| > 1 {
      var init := path[..|path| - 1];
      assert IsPath(f, first, init);
      ClosedHoldsPath(f, first, visited, init);
      assert path[|path| - 2 + 1] in LinksOf(f, path[|path| - 2]);
    }
  }

  method PushPositive(queue: seq<nat>, values: seq<nat>) returns (longer: seq<nat>)
    ensures longer == queue + Positive(values)
  {
    longer := queue;
    for i := 0 to |values|
      invariant longer == queue + Positive(values[..i])
    {
      assert values[..i + 1][..i] == values[..i];
      if values[i] > 0 { longer := longer + [values[i]]; }
    }
    assert values[..|values|] == values;
  }

  method AddDeclared(f: File, tags: map<nat, seq<nat>>, candidates: seq<Candidate>) returns (more: seq<Candidate>)
    ensures more == candidates + (Paired(f, Tag(tags, 513), Tag(tags, 514)) +
        Paired(f, Tag(tags, 273), Tag(tags, 279)) +
                                  Paired(f, Tag(tags, 324), Tag(tags, 325)))
  {
    more := AddCandidates(f, Tag(tags, 513), Tag(tags, 514), candidates);
    more := AddCandidates(f, Tag(tags, 273), Tag(tags, 279), more);
    more := AddCandidates(f, Tag(tags, 324), Tag(tags, 325), more);
  }

  /** What one directory adds to the walk. */
  method Enter(f: File, d: nat, queue: seq<nat>, candidates: seq<Candidate>)
    returns (longer: seq<nat>, more: seq<Candidate>)
    requires Holds(f, d, 2)
    ensures longer == queue + LinksOf(f, d) && more == candidates + DeclaredBy(f, d)
  {
    var count := U16(f, d);
    if count > MAX_ENTRIES || d + 2 + count * 12 + 4 > |f.bytes| { return queue + [], candidates + []; }
    var tags := ReadTags(f, d);
    more := AddDeclared(f, tags, candidates);
    longer := PushPositive(queue, Tag(tags, 330) + Tag(tags, 34665));
    longer := PushPositive(longer, [U32(f, d + 2 + count * 12)]);
  }

  /** Directories visited from the first on, at most 128 of them; when fewer, all that can be
      reached. The candidates are theirs. */
  ghost predicate Walked(f: File, first: nat, visited: set<nat>, candidates: seq<Candidate>) {
    && |visited| <= MAX_DIRECTORIES
    && (forall d :: d in visited ==> Reachable(f, first, d))
    && (|visited| < MAX_DIRECTORIES ==> forall d :: Reachable(f, first, d) ==> d in visited)
    && Collected(f, visited, candidates)
  }

  lemma SkipKeeps(f: File, first: nat, seen: set<nat>, queue: seq<nat>)
    requires queue != [] && (!Enterable(f, queue[0]) || queue[0] in seen)
    requires Closed(f, first, seen, queue) && AllReached(f, first, seen, queue)
    ensures Closed(f, first, seen, queue[1..]) && AllReached(f, first, seen, queue[1..])
  {
    assert queue == [queue[0]] + queue[1..];
  }

  lemma EnterKeepsClosed(f: File, first: nat, seen: set<nat>, queue: seq<nat>)
    requires queue != [] && Closed(f, first, seen, queue)
    ensures Closed(f, first, seen + {queue[0]}, queue[1..] + LinksOf(f, queue[0]))
  {
    assert queue == [queue[0]] + queue[1..];
    forall d, next | d in seen + {queue[0]} && next in LinksOf(f, d) && Enterable(f, next)
      ensures next in seen + {queue[0]} || next in queue[1..] + LinksOf(f, queue[0])
    {
      if d != queue[0] { assert next in seen || next in queue; }
    }
  }

  lemma EnterKeepsReached(f: File, first: nat, seen: set<nat>, queue: seq<nat>)
    requires queue != [] && Enterable(f, queue[0]) && AllReached(f, first, seen, queue)
    ensures AllReached(f, first, seen + {queue[0]}, queue[1..] + LinksOf(f, queue[0]))
  {
    assert Reachable(f, first, queue[0]);
    forall next | next in LinksOf(f, queue[0]) && Enterable(f, next) ensures Reachable(f, first, next) {
      ReachesNext(f, first, queue[0], next);
    }
    assert forall d :: d in queue[1..] ==> d in queue;
  }

  lemma ClosedHoldsAll(f: File, first: nat, visited: set<nat>)
    requires Closed(f, first, visited, [])
    ensures forall d :: Reachable(f, first, d) ==> d in visited
  {
    forall d | Reachable(f, first, d) ensures d in visited {
      var path :| IsPath(f, first, path) && path[|path| - 1] == d;
      ClosedHoldsPath(f, first, visited, path);
    }
  }

  /** What is still declared by the directories a walk has yet to visit, first come first. */
  function Declarations(f: File, queue: seq<nat>, seen: set<nat>): seq<Candidate>
    decreases MAX_DIRECTORIES - |seen|, |queue|
  {
    if queue == [] || |seen| >= MAX_DIRECTORIES then []
    else if !Enterable(f, queue[0]) || queue[0] in seen then Declarations(f, queue[1..], seen)
    else DeclaredBy(f, queue[0]) + Declarations(f, queue[1..] + LinksOf(f, queue[0]), seen + {queue[0]})
  }

  lemma DeclarationsEnter(f: File, queue: seq<nat>, seen: set<nat>, found: seq<Candidate>, all: seq<Candidate>,
                          rest: seq<Candidate>)
    requires queue != [] && |seen| < MAX_DIRECTORIES && Enterable(f, queue[0]) && queue[0] !in seen
    requires found + Declarations(f, queue, seen) == all
    requires rest == Declarations(f, queue[1..] + LinksOf(f, queue[0]), seen + {queue[0]})
    ensures found + DeclaredBy(f, queue[0]) + rest == all
  {
    assert found + (DeclaredBy(f, queue[0]) + rest) == found + DeclaredBy(f, queue[0]) + rest;
  }

  lemma DeclarationsSkip(f: File, queue: seq<nat>, seen: set<nat>, found: seq<Candidate>, all: seq<Candidate>)
    requires queue != [] && |seen| < MAX_DIRECTORIES && (!Enterable(f, queue[0]) || queue[0] in seen)
    requires found + Declarations(f, queue, seen) == all
    ensures found + Declarations(f, queue[1..], seen) == all
  {
  }

  method Walk(f: File, first: nat) returns (ghost visited: set<nat>, candidates: seq<Candidate>)
    ensures Walked(f, first, visited, candidates) && candidates == Declarations(f, [first], {})
  {
    var queue, seen: set<nat> := [first], {};
    candidates := [];
    ghost var all := Declarations(f, [first], {});
    if Enterable(f, first) { ReachesFirst(f, first); }
    while queue != [] && |seen| < MAX_DIRECTORIES
      invariant |seen| <= MAX_DIRECTORIES
      invariant Closed(f, first, seen, queue)
      invariant AllReached(f, first, seen, queue)
      invariant Collected(f, seen, candidates)
      invariant candidates + Declarations(f, queue, seen) == all
      decreases MAX_DIRECTORIES - |seen|, |queue|
    {
      var d := queue[0];
      if d == 0 || d + 2 > |f.bytes| || d in seen {
        SkipKeeps(f, first, seen, queue);
        DeclarationsSkip(f, queue, seen, candidates, all);
        queue := queue[1..];
        continue;
      }
      EnterKeepsClosed(f, first, seen, queue);
      EnterKeepsReached(f, first, seen, queue);
      CollectedMore(f, seen, candidates, d);
      DeclarationsEnter(f, queue, seen, candidates, all, Declarations(f, queue[1..] + LinksOf(f, d), seen + {d}));
      seen := seen + {d};
      queue, candidates := Enter(f, d, queue[1..], candidates);
    }
    visited := seen;
    if queue == [] { ClosedHoldsAll(f, first, visited); }
  }

  lemma CollectedMore(f: File, visited: set<nat>, candidates: seq<Candidate>, d: nat)
    requires Collected(f, visited, candidates)
    ensures Collected(f, visited + {d}, candidates + DeclaredBy(f, d))
  {
    forall c | c in candidates + DeclaredBy(f, d) ensures exists e :: e in visited + {d} && c in DeclaredBy(f, e) {
      if c in DeclaredBy(f, d) { assert d in visited + {d}; }
    }
  }

  // ---------------------------------------------------------------- the largest preview

  function Jpeg(f: File, c: Candidate): Bytes
    requires IsJpeg(f, c)
  {
    f.bytes[c.offset..c.offset + c.length]
  }

  function Area(f: File, c: Candidate): nat
    requires IsJpeg(f, c)
  {
    SizeFrom(Jpeg(f, c), 2).0 * SizeFrom(Jpeg(f, c), 2).1
  }

  /** No smaller than another candidate: by area, then by length. */
  predicate AtLeast(f: File, c: Candidate, d: Candidate)
    requires IsJpeg(f, c) && IsJpeg(f, d)
  {
    Area(f, c) > Area(f, d) || (Area(f, c) == Area(f, d) && c.length >= d.length)
  }

  lemma {:induction false} PairsAreJpegs(f: File, offsets: seq<nat>, lengths: seq<nat>, n: nat)
    requires n <= |offsets| && n <= |lengths|
    ensures forall c :: c in Pairs(f, offsets, lengths, n) ==> IsJpeg(f, c)
  {
    if n > 0 { PairsAreJpegs(f, offsets, lengths, n - 1); }
  }

  lemma DeclaredAreJpegs(f: File, d: nat)
    ensures forall c :: c in DeclaredBy(f, d) ==> IsJpeg(f, c)
  {
    if IsDirectory(f, d) {
      var tags := Tags(f, d, U16(f, d));
      PairsAreJpegs(f, Tag(tags, 513), Tag(tags, 514), Min(|Tag(tags, 513)|, |Tag(tags, 514)|));
      PairsAreJpegs(f, Tag(tags, 273), Tag(tags, 279), Min(|Tag(tags, 273)|, |Tag(tags, 279)|));
      PairsAreJpegs(f, Tag(tags, 324), Tag(tags, 325), Min(|Tag(tags, 324)|, |Tag(tags, 325)|));
    }
  }

  /** The first of the candidates that no other is larger than. */
  ghost predicate IsLargest(f: File, candidates: seq<Candidate>, best: nat) {
    && best < |candidates| && (forall k :: 0 <= k < |candidates| ==> IsJpeg(f, candidates[k]))
    && (forall k :: 0 <= k < |candidates| ==> AtLeast(f, candidates[best], candidates[k]))
    && (forall k :: 0 <= k < best ==> !AtLeast(f, candidates[k], candidates[best]))
  }

  method Largest(f: File, candidates: seq<Candidate>) returns (best: nat)
    requires candidates != [] && forall k :: 0 <= k < |candidates| ==> IsJpeg(f, candidates[k])
    ensures IsLargest(f, candidates, best)
  {
    best := 0;
    var bestArea := AreaOf(f, candidates[0]);
    for i := 1 to |candidates|
      invariant best < i && bestArea == Area(f, candidates[best])
      invariant forall k :: 0 <= k < i ==> AtLeast(f, candidates[best], candidates[k])
      invariant forall k :: 0 <= k < best ==> !AtLeast(f, candidates[k], candidates[best])
    {
      var area := AreaOf(f, candidates[i]);
      if area > bestArea || (area == bestArea && candidates[i].length > candidates[best].length) {
        best, bestArea := i, area;
      }
    }
  }

  method AreaOf(f: File, c: Candidate) returns (area: nat)
    requires IsJpeg(f, c)
    ensures area == Area(f, c)
  {
    var width, height := JpegDimensions(Jpeg(f, c));
    area := width * height;
  }

  function FileOf(bytes: Bytes): File
    requires |bytes| >= 2
  {
    File(bytes, bytes[0] == 0x49)
  }

  predicate HasOrder(bytes: Bytes)
    requires |bytes| >= 2
  {
    (bytes[0] == 0x49 && bytes[1] == 0x49) || (bytes[0] == 0x4d && bytes[1] == 0x4d)
  }

  lemma CollectedAreJpegs(f: File, visited: set<nat>, candidates: seq<Candidate>)
    requires Collected(f, visited, candidates)
    ensures forall k :: 0 <= k < |candidates| ==> IsJpeg(f, candidates[k])
  {
    forall k | 0 <= k < |candidates| ensures IsJpeg(f, candidates[k]) {
      assert candidates[k] in candidates;
      var d :| d in visited && candidates[k] in DeclaredBy(f, d);
      DeclaredAreJpegs(f, d);
    }
  }

  lemma StartsLikeJpeg(f: File, c: Candidate)
    requires IsJpeg(f, c)
    ensures |Jpeg(f, c)| == c.length && Jpeg(f, c)[..2] == [0xff, 0xd8]
  {
  }

  /** The largest preview that any directory of the walk declares, as a slice of the file. */
  method ExtractDngJpeg(bytes: Bytes)
    returns (r: Result, ghost visited: set<nat>, ghost candidates: seq<Candidate>, ghost best: nat)
    ensures |bytes| < 16 <==> r == Err(TooSmall)
    ensures |bytes| >= 16 && !HasOrder(bytes) <==> r == Err(BadByteOrder)
    ensures |bytes| >= 16 && HasOrder(bytes) && U16(FileOf(bytes), 2) != 42 <==> r == Err(BadHeader)
    ensures r.Ok? || r == Err(NoJpeg) ==>
      var f := FileOf(bytes);
      Walked(f, U32(f, 4), visited, candidates) && candidates == Declarations(f, [U32(f, 4)], {})
    ensures r == Err(NoJpeg) ==> candidates == []
    ensures r.Ok? ==> IsLargest(FileOf(bytes), candidates, best) && r.jpeg == Jpeg(FileOf(bytes), candidates[best])
    ensures r.Ok? ==> r.jpeg[..2] == [0xff, 0xd8]
  {
    visited, candidates, best := {}, [], 0;
    if |bytes| < 16 { return Err(TooSmall), visited, candidates, best; }
    if !HasOrder(bytes) { return Err(BadByteOrder), visited, candidates, best; }
    var f := FileOf(bytes);
    if U16(f, 2) != 42 { return Err(BadHeader), visited, candidates, best; }
    var found;
    visited, found := Walk(f, U32(f, 4));
    candidates := found;
    if found == [] { return Err(NoJpeg), visited, candidates, best; }
    CollectedAreJpegs(f, visited, found);
    var largest := Largest(f, found);
    best := largest;
    StartsLikeJpeg(f, found[largest]);
    r := Ok(Jpeg(f, found[largest]));
  }
}
