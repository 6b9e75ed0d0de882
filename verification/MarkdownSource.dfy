/**
 Mapping normalised inline text back to the Markdown source it came from
 (workspace_zulip_bridge/markdown_conversion.py). Tokens and their line maps are inputs.
 */
module MarkdownSource {
  import opened Catalogs

  // ------------------------------------------------------------------ lines

  predicate LineBreak(c: char) {
    c in {'\n', '\r', '\U{0B}', '\U{0C}', '\U{1C}', '\U{1D}', '\U{1E}', '\U{85}', '\U{2028}', '\U{2029}'}
  }

  /** The length of the first line with its ending. */
  function FirstLine(s: string): (n: nat)
    requires s != []
    ensures 0 < n <= |s|
  {
    if LineBreak(s[0]) then if s[0] == '\r' && |s| > 1 && s[1] == '\n' then 2 else 1
    else if |s| == 1 then 1
    else 1 + FirstLine(s[1..])
  }

  /** All lines, each with its ending. */
  function SplitLines(s: string): seq<string> {
    if s == [] then [] else
    var n := FirstLine(s);
    [s[..n]] + SplitLines(s[n..])
  }

  function Join(lines: seq<string>): string {
    if lines == [] then [] else lines[0] + Join(lines[1..])
  }

  /** One line: it ends with a line break unless it is the last, and has none before that. */
  predicate IsLine(line: string, last: bool) {
    && line != []
    && (!last ==> LineBreak(line[|line| - 1]))
    && (forall i :: 0 <= i < |line| - 1 && LineBreak(line[i]) ==> i == |line| - 2 && line[i..] == "\r\n")
  }

  lemma {:induction false} FirstLineIsLine(s: string)
    requires s != []
    ensures IsLine(s[..FirstLine(s)], FirstLine(s) == |s|)
    ensures s[FirstLine(s) - 1] == '\r' && FirstLine(s) < |s| ==> s[FirstLine(s)] != '\n'
  {
    if !LineBreak(s[0]) && |s| > 1 {
      var rest := s[1..];
      var n := FirstLine(rest);
      FirstLineIsLine(rest);
      var line := s[..n + 1];
      assert line == [s[0]] + rest[..n];
      forall i | 0 <= i < |line| - 1 && LineBreak(line[i]) ensures i == |line| - 2 && line[i..] == "\r\n" {
        assert line[i] == rest[..n][i - 1];
        assert line[i..] == rest[..n][i - 1..];
      }
    } else {
      var n := FirstLine(s);
      if n == 2 { assert s[..2] == "\r\n"; }
    }
  }

  /** The text is cut after every line break, a carriage return and its line feed together. */
  lemma {:induction false} SplitLinesAreLines(s: string)
    ensures forall i :: 0 <= i < |SplitLines(s)| ==> IsLine(SplitLines(s)[i], i == |SplitLines(s)| - 1)
    decreases |s|
  {
    if s != [] {
      var n := FirstLine(s);
      FirstLineIsLine(s);
      SplitLinesAreLines(s[n..]);
      var lines := SplitLines(s);
      assert lines == [s[..n]] + SplitLines(s[n..]);
      forall i | 0 <= i < |lines| ensures IsLine(lines[i], i == |lines| - 1) {
        if i > 0 { assert lines[i] == SplitLines(s[n..])[i - 1]; }
      }
    }
  }

  lemma {:induction false} JoinSplitLines(s: string)
    ensures Join(SplitLines(s)) == s
    decreases |s|
  {
    if s != [] {
      var n := FirstLine(s);
      JoinSplitLines(s[n..]);
      assert SplitLines(s)[1..] == SplitLines(s[n..]);
    }
  }

  datatype Source = Source(content: string, lines: seq<string>, offsets: seq<nat>) {
    /** Every line stands at its offset, in order, and together they are the content. */
    ghost predicate Valid() {
      && |offsets| == |lines|
      && (forall i :: 0 <= i < |lines| ==> LineAt(i))
      && (forall i, j :: 0 <= i < j < |lines| ==> End(i) <= offsets[j])
    }

    /** The lines are the whole content, each offset the length of what comes before. */
    ghost predicate Contiguous() {
      && |offsets| == |lines| && Join(lines) == content
      && forall i :: 0 <= i < |lines| ==> offsets[i] == |Join(lines[..i])|
    }

    ghost function End(i: nat): nat
      requires i < |lines| && i < |offsets|
    {
      offsets[i] + |lines[i]|
    }

    ghost predicate LineAt(i: nat)
      requires i < |lines| && i < |offsets|
    {
      PlacedAt(content, lines[i], offsets[i])
    }

    function Offset(line: nat): nat {
      if line < |offsets| then offsets[line] else |content|
    }

    /** The source range of a block of lines. */
    function LineRange(first: nat, last: nat): (nat, nat) {
      (Offset(first), Offset(last))
    }
  }

  lemma LineRangeInBounds(source: Source, first: nat, last: nat)
    requires source.Valid() && first <= last
    ensures var (start, end) := source.LineRange(first, last); start <= end <= |source.content|
  {
    if last < |source.lines| { assert source.LineAt(last); }
    if first < |source.lines| { assert source.LineAt(first); }
    if first < last < |source.lines| { assert source.End(first) <= source.offsets[last]; }
  }

  /** The first `n` lines, as far as there are any. */
  function Upto(lines: seq<string>, n: nat): seq<string> {
    if n < |lines| then lines[..n] else lines
  }

  lemma {:induction false} JoinConcat(a: seq<string>, b: seq<string>)
    ensures Join(a + b) == Join(a) + Join(b)
  {
    if a == [] {
      assert a + b == b;
    } else {
      JoinConcat(a[1..], b);
      assert (a + b)[1..] == a[1..] + b;
    }
  }

  lemma OffsetIsLength(source: Source, n: nat)
    requires source.Contiguous()
    ensures source.Offset(n) == |Join(Upto(source.lines, n))|
  {
  }

  lemma Middle(whole: string, head: string, middle: string, tail: string)
    requires whole == head + middle + tail
    ensures whole[|head|..|head + middle|] == middle
  {
  }

  /** A line range is exactly the lines it names. */
  lemma LineRangeIsLines(source: Source, first: nat, last: nat)
    requires source.Contiguous() && first <= last
    ensures var (start, end) := source.LineRange(first, last);
      && start <= end <= |source.content|
      && source.content[start..end] == Join(Upto(source.lines, last)[|Upto(source.lines, first)|..])
  {
    var head, upto := Upto(source.lines, first), Upto(source.lines, last);
    var middle, tail := upto[|head|..], source.lines[|upto|..];
    OffsetIsLength(source, first);
    OffsetIsLength(source, last);
    assert upto == head + middle && source.lines == upto + tail;
    JoinConcat(head, middle);
    JoinConcat(upto, tail);
    Middle(source.content, Join(head), Join(middle), Join(tail));
  }

  lemma OffsetAfter(source: Source, line: nat)
    requires source.Valid() && line < |source.lines|
    ensures source.End(line) <= source.Offset(line + 1)
  {
    assert source.LineAt(line);
  }

  /** `part` stands in `text` at `offset`. */
  predicate PlacedAt(text: string, part: string, offset: nat) {
    offset + |part| <= |text| && forall i :: 0 <= i < |part| ==> text[offset + i] == part[i]
  }

  method FromContent(content: string) returns (source: Source)
    ensures source.Valid() && source.Contiguous() && source.content == content && source.lines == SplitLines(content)
  {
    var lines := SplitLines(content);
    JoinSplitLines(content);
    var offsets := Offsets(content, lines);
    source := Source(content, lines, offsets);
  }

  method Offsets(content: string, lines: seq<string>) returns (offsets: seq<nat>)
    requires Join(lines) == content
    ensures Source(content, lines, offsets).Valid() && Source(content, lines, offsets).Contiguous()
  {
    offsets := [];
    var offset: nat := 0;
    assert lines[0..] == lines && content[0..] == content;
    for i := 0 to |lines|
      invariant |offsets| == i && offset <= |content| && content[offset..] == Join(lines[i..])
      invariant Placed(content, lines, offsets, offset)
      invariant offset == |Join(lines[..i])| && forall j :: 0 <= j < i ==> offsets[j] == |Join(lines[..j])|
    {
      assert lines[i..][1..] == lines[i + 1..];
      NextLength(lines, i);
      JoinHead(content, offset, lines[i..]);
      offsets := offsets + [offset];
      offset := offset + |lines[i]|;
    }
  }

  lemma NextLength(lines: seq<string>, i: nat)
    requires i < |lines|
    ensures |Join(lines[..i + 1])| == |Join(lines[..i])| + |lines[i]|
  {
    assert lines[..i + 1] == lines[..i] + [lines[i]];
    JoinConcat(lines[..i], [lines[i]]);
    assert Join([lines[i]]) == lines[i] + Join([lines[i]][1..]);
  }

  /** The first lines stand at their offsets, in order, all before `end`. */
  ghost predicate Placed(content: string, lines: seq<string>, offsets: seq<nat>, end: nat) {
    && |offsets| <= |lines|
    && (forall i :: 0 <= i < |offsets| ==> PlacedAt(content, lines[i], offsets[i]) && offsets[i] + |lines[i]| <= end)
    && (forall i, j :: 0 <= i < j < |offsets| ==> offsets[i] + |lines[i]| <= offsets[j])
  }

  lemma JoinHead(content: string, offset: nat, lines: seq<string>)
    requires lines != [] && offset <= |content| && content[offset..] == Join(lines)
    ensures PlacedAt(content, lines[0], offset)
    ensures content[offset + |lines[0]|..] == Join(lines[1..])
  {
    var n := |lines[0]|;
    assert content[offset..][..n] == lines[0] && content[offset..][n..] == Join(lines[1..]);
    assert content[offset..][..n] == content[offset..offset + n];
    assert content[offset..][n..] == content[offset + n..];
  }

  /** The length of a line without its ending. */
  function BodyLength(line: string): (n: nat)
    ensures n <= |line|
  {
    if |line| >= 2 && line[|line| - 2..] == "\r\n" then |line| - 2
    else if |line| >= 1 && line[|line| - 1] in {'\n', '\r'} then |line| - 1
    else |line|
  }

  /** A line is its body and one ending: CRLF, LF, CR, or none of them. */
  lemma BodyAndEnding(line: string)
    ensures var n := BodyLength(line);
      && (line[n..] == "\r\n" || line[n..] == "\n" || line[n..] == "\r" || line[n..] == "")
      && (line[n..] == "" ==> n == 0 || (line[n - 1] != '\n' && line[n - 1] != '\r'))
      && (line[n..] == "\n" ==> n == 0 || line[n - 1] != '\r')
  {
    var n := BodyLength(line);
    if |line| >= 2 { assert line[|line| - 2..] == [line[|line| - 2], line[|line| - 1]]; }
  }

  /** The body of a split line has neither line feeds nor carriage returns in it. */
  lemma BodyHasNoBreaks(line: string, last: bool, i: nat)
    requires IsLine(line, last) && i < |line|
    ensures line[i] == '\n' || line[i] == '\r' ==> BodyLength(line) <= i
  {
    BodyAndEnding(line);
    if i < |line| - 1 && LineBreak(line[i]) {
      assert line[i..] == line[|line| - 2..];
    }
  }

  // ------------------------------------------------------------------ searching

  /** The last place where `part` occurs in `body`, looking at `from` and before. */
  function LastMatch(body: string, part: string, from: nat): Option<nat> {
    if PlacedAt(body, part, from) then Some(from)
    else if from == 0 then None
    else LastMatch(body, part, from - 1)
  }

  /** It is the last one, and there is one whenever the part occurs at all. */
  lemma {:induction false} LastMatchIsLast(body: string, part: string, from: nat)
    ensures var r := LastMatch(body, part, from);
      && (r.Some? ==> r.value <= from && PlacedAt(body, part, r.value))
      && (forall i :: 0 <= i <= from && PlacedAt(body, part, i) ==> r.Some? && i <= r.value)
  {
    if !PlacedAt(body, part, from) && from > 0 { LastMatchIsLast(body, part, from - 1); }
  }

  function LineEnd(content: string, at: nat): (r: nat)
    requires at <= |content|
    ensures at <= r <= |content| && (r == |content| || content[r] == '\n')
    decreases |content| - at
  {
    if at == |content| || content[at] == '\n' then at else LineEnd(content, at + 1)
  }

  /** A line of text ends at its first line feed. */
  lemma {:induction false} LineEndIsFirst(content: string, at: nat, i: nat)
    requires at <= |content| && at <= i < LineEnd(content, at)
    ensures content[i] != '\n'
    decreases |content| - at
  {
    if at < i { LineEndIsFirst(content, at + 1, i); }
  }

  // ------------------------------------------------------------------ inline boundaries

  /** Below `end`, boundaries are in bounds, monotone, and lead to the same characters. */
  ghost predicate SoundUpTo(content: string, source: string, b: seq<Option<nat>>, end: nat) {
    && |b| == |content| + 1 && end <= |b|
    && (forall i :: 0 <= i < end && b[i].Some? ==> b[i].value <= |source|)
    && (forall i, j :: 0 <= i < j < end && b[i].Some? && b[j].Some? ==> b[i].value <= b[j].value)
    && (forall i :: 0 <= i < end && i < |content| && b[i].Some? && content[i] != '\n' ==> SameCharacter(content, source, b, i))
  }

  ghost predicate SameCharacter(content: string, source: string, b: seq<Option<nat>>, i: nat)
    requires i < |content| && |b| == |content| + 1 && b[i].Some?
  {
    b[i].value < |source| && source[b[i].value] == content[i] && b[i + 1] == Some(b[i].value + 1)
  }

  ghost predicate Sound(content: string, source: string, b: seq<Option<nat>>) {
    |b| == |content| + 1 && SoundUpTo(content, source, b, |content| + 1)
  }

  /** A span inside one line of inline text slices the source to the same text. */
  lemma {:induction false} SpanSlices(content: string, source: string, b: seq<Option<nat>>, start: nat, end: nat)
    requires Sound(content, source, b) && start <= end < |b| && b[start].Some?
    requires forall i :: start <= i < end ==> content[i] != '\n'
    ensures b[end] == Some(b[start].value + (end - start)) && b[end].value <= |source|
    ensures source[b[start].value..b[end].value] == content[start..end]
    decreases end - start
  {
    if start < end {
      assert SameCharacter(content, source, b, start);
      SpanSlices(content, source, b, start + 1, end);
      HeadAndRest(content, start, end);
      HeadAndRest(source, b[start].value, b[end].value);
    }
  }

  lemma HeadAndRest(s: string, start: nat, end: nat)
    requires start < end <= |s|
    ensures s[start..end] == [s[start]] + s[start + 1..end]
  {
  }

  /** The span of inline positions in the source, if both ends are mapped. */
  function AbsoluteSpan(b: seq<Option<nat>>, start: int, end: int): (r: Option<(nat, nat)>) {
    if start < 0 || end < start || end >= |b| then None
    else if b[start].None? || b[end].None? then None
    else Some((b[start].value, b[end].value))
  }

  /**
   A span exists exactly when it is an ordered range of the text whose ends are both mapped. Inside one
   line it slices the source to exactly that part of the text.
   */
  lemma AbsoluteSpanExact(content: string, source: string, b: seq<Option<nat>>, start: int, end: int)
    requires Sound(content, source, b)
    ensures AbsoluteSpan(b, start, end).Some? <==> 0 <= start <= end < |b| && b[start].Some? && b[end].Some?
    ensures AbsoluteSpan(b, start, end).Some? ==>
      var (first, last) := AbsoluteSpan(b, start, end).value;
      && Some(first) == b[start] && Some(last) == b[end] && first <= last <= |source|
      && ((forall i :: start <= i < end ==> content[i] != '\n') ==> source[first..last] == content[start..end])
  {
    if AbsoluteSpan(b, start, end).Some? && forall i :: start <= i < end ==> content[i] != '\n' {
      SpanSlices(content, source, b, start, end);
    }
  }

  /** A span is always a valid range of the source. */
  lemma AbsoluteSpanInBounds(content: string, source: string, b: seq<Option<nat>>, start: int, end: int)
    requires Sound(content, source, b) && AbsoluteSpan(b, start, end).Some?
    ensures var (first, last) := AbsoluteSpan(b, start, end).value; first <= last <= |source|
  {
  }

  /** The last occurrence of `part` in a line, its ending aside. */
  function Search(source: Source, part: string, line: nat): Option<nat>
    requires line < |source.lines|
  {
    var body := source.lines[line][..BodyLength(source.lines[line])];
    LastMatch(body, part, |body|)
  }

  /** The first line from `line` on that contains `part`. */
  function NextLine(source: Source, part: string, line: nat, endLine: nat): (r: Option<nat>)
    requires endLine <= |source.lines|
    ensures r.Some? ==> line <= r.value < endLine && Search(source, part, r.value).Some?
    decreases endLine - line
  {
    if line >= endLine then None
    else if Search(source, part, line).Some? then Some(line)
    else NextLine(source, part, line + 1, endLine)
  }

  predicate Contains(source: Source, part: string, line: nat)
    requires line < |source.lines|
  {
    var body := source.lines[line][..BodyLength(source.lines[line])];
    exists i :: 0 <= i <= |body| && PlacedAt(body, part, i)
  }

  /** The search finds the first line of the block whose body contains the part, and its last occurrence there. */
  lemma {:induction false} NextLineIsFirst(source: Source, part: string, line: nat, endLine: nat)
    requires endLine <= |source.lines|
    ensures var r := NextLine(source, part, line, endLine);
      && (r.Some? <==> exists l :: line <= l < endLine && Contains(source, part, l))
      && (r.Some? ==> Contains(source, part, r.value) && forall l :: line <= l < r.value ==> !Contains(source, part, l))
    decreases endLine - line
  {
    if line < endLine {
      var body := source.lines[line][..BodyLength(source.lines[line])];
      LastMatchIsLast(body, part, |body|);
      assert Search(source, part, line).Some? <==> Contains(source, part, line);
      NextLineIsFirst(source, part, line + 1, endLine);
    }
  }

  /** Where boundary `i` of the text leads, the lines before `at` being matched before `line`. */
  function BoundaryAt(content: string, source: Source, endLine: nat, at: nat, line: nat, i: nat): Option<nat>
    requires endLine <= |source.lines| && |source.offsets| == |source.lines| && at <= |content|
    decreases |content| - at
  {
    if at == |content| then Some(source.Offset(line)) else
    var stop := LineEnd(content, at);
    var found := NextLine(source, content[at..stop], line, endLine);
    if found.None? then None
    else if i <= stop then
      Some(source.offsets[found.value] + Search(source, content[at..stop], found.value).value + (if i > at then i - at else 0))
    else if stop < |content| then BoundaryAt(content, source, endLine, stop + 1, found.value + 1, i)
    else None
  }

  /** Line `at` is the first to contain `part`, last at `position`. */
  ghost predicate Located(source: Source, part: string, line: nat, endLine: nat, at: nat, position: nat) {
    && endLine <= |source.lines| && |source.offsets| == |source.lines|
    && NextLine(source, part, line, endLine) == Some(at) && Search(source, part, at) == Some(position)
    && PlacedAt(source.content, part, source.offsets[at] + position)
    && source.offsets[at] + position + |part| <= source.End(at)
  }

  method FindLine(source: Source, part: string, line: nat, endLine: nat) returns (at: nat, position: Option<nat>)
    requires source.Valid() && endLine <= |source.lines|
    ensures position.None? ==> NextLine(source, part, line, endLine) == None
    ensures position.Some? ==> Located(source, part, line, endLine, at, position.value)
  {
    at, position := line, None;
    while at < endLine
      invariant position.None? && NextLine(source, part, line, endLine) == NextLine(source, part, at, endLine)
      decreases endLine - at
    {
      var body := source.lines[at][..BodyLength(source.lines[at])];
      position := LastMatch(body, part, |body|);
      LastMatchIsLast(body, part, |body|);
      if position.Some? {
        assert source.LineAt(at);
        PlacedInLine(source.content, source.lines[at], source.offsets[at], part, position.value, |body|);
        return;
      }
      at := at + 1;
    }
  }

  lemma PlacedInLine(content: string, line: string, offset: nat, part: string, position: nat, body: nat)
    requires PlacedAt(content, line, offset) && body <= |line| && PlacedAt(line[..body], part, position)
    ensures PlacedAt(content, part, offset + position)
  {
    forall i | 0 <= i < |part| ensures content[offset + position + i] == part[i] {
      assert line[..body][position + i] == part[i] && content[offset + (position + i)] == line[position + i];
    }
  }

  /** Everything mapped so far lies before `limit`. */
  ghost predicate Before(b: seq<Option<nat>>, end: nat, limit: nat) {
    forall i :: 0 <= i < end && i < |b| && b[i].Some? ==> b[i].value <= limit
  }

  /** The positions of one line of text lead to consecutive source positions; the rest is as before. */
  ghost predicate Filled(before: seq<Option<nat>>, after: seq<Option<nat>>, at: nat, stop: nat, absolute: nat) {
    && at <= stop < |before| && |after| == |before|
    && (forall i :: at <= i <= stop ==> after[i] == Some(absolute + (i - at)))
    && (forall i :: (0 <= i < at || stop < i < |after|) ==> after[i] == before[i])
  }

  method FillLine(b: array<Option<nat>>, at: nat, stop: nat, absolute: nat)
    requires at <= stop < b.Length
    modifies b
    ensures Filled(old(b[..]), b[..], at, stop, absolute)
  {
    for index := 0 to stop - at + 1
      invariant forall i :: at <= i < at + index ==> b[i] == Some(absolute + (i - at))
      invariant forall i :: (0 <= i < at || at + index <= i < b.Length) ==> b[i] == old(b[i])
    {
      b[at + index] := Some(absolute + index);
    }
  }

  lemma LineMapped(content: string, source: string, before: seq<Option<nat>>, after: seq<Option<nat>>, at: nat, stop: nat, absolute: nat)
    requires SoundUpTo(content, source, before, at) && Before(before, at, absolute)
    requires at <= stop <= |content| && (stop == |content| || content[stop] == '\n')
    requires at == 0 || content[at - 1] == '\n'
    requires PlacedAt(source, content[at..stop], absolute) && Filled(before, after, at, stop, absolute)
    ensures SoundUpTo(content, source, after, stop + 1) && Before(after, stop + 1, absolute + (stop - at))
  {
    forall i | 0 <= i < stop + 1 && i < |content| && after[i].Some? && content[i] != '\n'
      ensures SameCharacter(content, source, after, i)
    {
      if i < at {
        assert SameCharacter(content, source, before, i);
      } else {
        assert content[at..stop][i - at] == source[absolute + (i - at)];
      }
    }
  }

  lemma RestUnmapped(content: string, source: string, b: seq<Option<nat>>, end: nat)
    requires SoundUpTo(content, source, b, end) && forall i :: end <= i < |b| ==> b[i].None?
    ensures Sound(content, source, b)
  {
  }

  /** The lines of the text before `at` are mapped, all before source line `line`. */
  ghost predicate Mapped(content: string, source: Source, b: seq<Option<nat>>, at: nat, line: nat) {
    && at <= |content| && (at == 0 || content[at - 1] == '\n')
    && SoundUpTo(content, source.content, b, at) && Before(b, at, source.Offset(line))
    && forall i :: at <= i < |b| ==> b[i].None?
  }

  lemma MappedIsSound(content: string, source: Source, b: seq<Option<nat>>, at: nat, line: nat)
    requires Mapped(content, source, b, at, line)
    ensures Sound(content, source.content, b)
  {
    RestUnmapped(content, source.content, b, at);
  }

  lemma NextLineMapped(content: string, source: Source, before: seq<Option<nat>>, after: seq<Option<nat>>,
                       endLine: nat, at: nat, stop: nat, line: nat, found: nat, position: nat)
    requires source.Valid() && Mapped(content, source, before, at, line) && at <= stop <= |content|
    requires stop == LineEnd(content, at) && Located(source, content[at..stop], line, endLine, found, position)
    requires Filled(before, after, at, stop, source.offsets[found] + position)
    ensures Sound(content, source.content, after)
    ensures stop < |content| ==> Mapped(content, source, after, stop + 1, found + 1)
  {
    LineRangeInBounds(source, line, found);
    LineMapped(content, source.content, before, after, at, stop, source.offsets[found] + position);
    RestUnmapped(content, source.content, after, stop + 1);
    OffsetAfter(source, found);
  }

  /** From `at` on, the boundaries are those the text and the source determine. */
  ghost predicate Exact(content: string, source: Source, endLine: nat, at: nat, line: nat, b: seq<Option<nat>>)
    requires endLine <= |source.lines| && |source.offsets| == |source.lines| && at <= |content|
  {
    |b| == |content| + 1 && forall i :: at <= i < |b| ==> b[i] == BoundaryAt(content, source, endLine, at, line, i)
  }

  /** The boundaries between `at` and `next` are exact, and the rest continues from there. */
  ghost predicate Continues(content: string, source: Source, endLine: nat, at: nat, line: nat, next: nat, nextLine: nat, b: seq<Option<nat>>)
    requires endLine <= |source.lines| && |source.offsets| == |source.lines| && at <= |content|
  {
    && at <= next <= |content| && |b| == |content| + 1
    && (forall i :: at <= i < next ==> b[i] == BoundaryAt(content, source, endLine, at, line, i))
    && (forall i :: next <= i <= |content| ==>
          BoundaryAt(content, source, endLine, at, line, i) == BoundaryAt(content, source, endLine, next, nextLine, i))
  }

  lemma LineBoundaries(content: string, source: Source, endLine: nat, at: nat, line: nat, stop: nat, found: nat, position: nat,
                       before: seq<Option<nat>>, b: seq<Option<nat>>)
    requires at < |content| && |b| == |content| + 1
    requires stop == LineEnd(content, at) && Located(source, content[at..stop], line, endLine, found, position)
    requires Filled(before, b, at, stop, source.offsets[found] + position)
    ensures stop == |content| ==> Exact(content, source, endLine, at, line, b)
    ensures stop < |content| ==> Continues(content, source, endLine, at, line, stop + 1, found + 1, b)
  {
  }

  /** Map the line of text that starts at `at`; done when it was the last, or was not found. */
  method MapLine(content: string, source: Source, endLine: nat, b: array<Option<nat>>, at: nat, line: nat)
    returns (done: bool, next: nat, nextLine: nat)
    requires source.Valid() && endLine <= |source.lines| && Mapped(content, source, b[..], at, line)
    modifies b
    ensures Sound(content, source.content, b[..])
    ensures forall i :: 0 <= i < at ==> b[i] == old(b[i])
    ensures done ==> Exact(content, source, endLine, at, line, b[..])
    ensures !done ==> at < next && Mapped(content, source, b[..], next, nextLine)
    ensures !done ==> Continues(content, source, endLine, at, line, next, nextLine, b[..])
  {
    done, next, nextLine := true, at, line;
    if at == |content| {
      MapEnd(content, source, endLine, b, line);
    } else {
      done, next, nextLine := MapText(content, source, endLine, b, at, line);
    }
  }

  method MapText(content: string, source: Source, endLine: nat, b: array<Option<nat>>, at: nat, line: nat)
    returns (done: bool, next: nat, nextLine: nat)
    requires source.Valid() && endLine <= |source.lines| && Mapped(content, source, b[..], at, line) && at < |content|
    modifies b
    ensures Sound(content, source.content, b[..])
    ensures forall i :: 0 <= i < at ==> b[i] == old(b[i])
    ensures done ==> Exact(content, source, endLine, at, line, b[..])
    ensures !done ==> at < next && Mapped(content, source, b[..], next, nextLine)
    ensures !done ==> Continues(content, source, endLine, at, line, next, nextLine, b[..])
  {
    var stop := LineEnd(content, at);
    var found, position := FindLine(source, content[at..stop], line, endLine);
    done, next, nextLine := true, at, line;
    if position.None? {
      MappedIsSound(content, source, b[..], at, line);
      Unfound(content, source, endLine, at, line, b[..]);
    } else {
      done, next, nextLine := MapFound(content, source, endLine, b, at, stop, line, found, position.value);
    }
  }

  method MapFound(content: string, source: Source, endLine: nat, b: array<Option<nat>>, at: nat, stop: nat, line: nat, found: nat, position: nat)
    returns (done: bool, next: nat, nextLine: nat)
    requires source.Valid() && endLine <= |source.lines| && Mapped(content, source, b[..], at, line) && at < |content|
    requires stop == LineEnd(content, at) && Located(source, content[at..stop], line, endLine, found, position)
    modifies b
    ensures Sound(content, source.content, b[..])
    ensures forall i :: 0 <= i < at ==> b[i] == old(b[i])
    ensures done ==> Exact(content, source, endLine, at, line, b[..])
    ensures !done ==> at < next && Mapped(content, source, b[..], next, nextLine)
    ensures !done ==> Continues(content, source, endLine, at, line, next, nextLine, b[..])
  {
    ghost var before := b[..];
    FillLine(b, at, stop, source.offsets[found] + position);
    NextLineMapped(content, source, before, b[..], endLine, at, stop, line, found, position);
    LineBoundaries(content, source, endLine, at, line, stop, found, position, before, b[..]);
    done, next, nextLine := stop == |content|, stop + 1, found + 1;
  }

  /** Text that ends with a line break leads to the start of the next source line. */
  method MapEnd(content: string, source: Source, endLine: nat, b: array<Option<nat>>, line: nat)
    requires source.Valid() && endLine <= |source.lines| && Mapped(content, source, b[..], |content|, line)
    modifies b
    ensures Sound(content, source.content, b[..]) && Exact(content, source, endLine, |content|, line, b[..])
    ensures forall i :: 0 <= i < |content| ==> b[i] == old(b[i])
  {
    LineRangeInBounds(source, line, line);
    var at := |content|;
    ghost var before := b[..];
    b[at] := Some(source.Offset(line));  // nothing was mapped here before
    LastBoundary(content, source.content, before, b[..], source.Offset(line));
  }

  lemma LastBoundary(content: string, source: string, before: seq<Option<nat>>, after: seq<Option<nat>>, last: nat)
    requires SoundUpTo(content, source, before, |content|) && Before(before, |content|, last) && last <= |source|
    requires content == [] || content[|content| - 1] == '\n'
    requires |after| == |before| && (forall i :: 0 <= i < |content| ==> after[i] == before[i]) && after[|content|] == Some(last)
    ensures Sound(content, source, after)
  {
    forall i | 0 <= i < |content| && after[i].Some? && content[i] != '\n' ensures SameCharacter(content, source, after, i) {
      assert SameCharacter(content, source, before, i);
    }
  }

  lemma Unfound(content: string, source: Source, endLine: nat, at: nat, line: nat, b: seq<Option<nat>>)
    requires endLine <= |source.lines| && |source.offsets| == |source.lines| && at < |content| && |b| == |content| + 1
    requires NextLine(source, content[at..LineEnd(content, at)], line, endLine).None?
    requires forall i :: at <= i < |b| ==> b[i].None?
    ensures Exact(content, source, endLine, at, line, b)
  {
  }

  /**
   Map the boundaries of normalised inline text back to the source. Each line of the text is looked
   for in the next source line that contains it, at its last occurrence; the first line that is not
   found leaves the rest unmapped. Whatever is mapped is sound.
   */
  method InlineBoundaries(content: string, lineMap: Option<(nat, nat)>, source: Source) returns (b: array<Option<nat>>)
    requires source.Valid()
    ensures fresh(b) && Sound(content, source.content, b[..])
    ensures lineMap.None? ==> forall i :: 0 <= i < b.Length ==> b[i].None?
    ensures lineMap.Some? ==>
      Exact(content, source, if lineMap.value.1 < |source.lines| then lineMap.value.1 else |source.lines|, 0, lineMap.value.0, b[..])
  {
    b := new Option<nat>[|content| + 1](_ => None);
    if lineMap.None? { return; }
    var line, at: nat, done := lineMap.value.0, 0, false;
    var endLine := if lineMap.value.1 < |source.lines| then lineMap.value.1 else |source.lines|;
    while !done
      invariant Sound(content, source.content, b[..])
      invariant !done ==> Mapped(content, source, b[..], at, line)
      invariant done ==> Exact(content, source, endLine, 0, lineMap.value.0, b[..])
      invariant !done ==> Continues(content, source, endLine, 0, lineMap.value.0, at, line, b[..])
      decreases !done, |content| - at
    {
      ghost var start := b[..];
      done, at, line := MapLine(content, source, endLine, b, at, line);
    }
  }
}
