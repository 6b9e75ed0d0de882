/**
 Selecting source edits and splicing them into the text
 (workspace_zulip_bridge/markdown_conversion.py, _select_edits and the splice loops).
 */
module MarkdownEdits {
  import opened Catalogs

  /** An edit without replacement keeps its source range verbatim. */
  datatype Edit = Edit(start: nat, end: nat, replacement: Option<string>, priority: int)

  // ------------------------------------------------------------------ the order of edits

  /** `a` sorts no later than `b`: by start, then higher priority, then longer. */
  predicate NoLater(a: Edit, b: Edit) {
    || a.start < b.start
    || (a.start == b.start && a.priority > b.priority)
    || (a.start == b.start && a.priority == b.priority && a.end as int - a.start >= b.end as int - b.start)
  }

  predicate Ordered(edits: seq<Edit>) {
    forall i, j :: 0 <= i < j < |edits| ==> NoLater(edits[i], edits[j])
  }

  /** Insert after the edits that sort no later, so equal ones keep their order. */
  function Insert(edits: seq<Edit>, e: Edit): seq<Edit> {
    if edits == [] || NoLater(edits[|edits| - 1], e) then edits + [e]
    else Insert(edits[..|edits| - 1], e) + [edits[|edits| - 1]]
  }

  function SortEdits(edits: seq<Edit>): seq<Edit> {
    if edits == [] then [] else Insert(SortEdits(edits[..|edits| - 1]), edits[|edits| - 1])
  }

  lemma {:induction false} InsertContents(edits: seq<Edit>, e: Edit)
    ensures multiset(Insert(edits, e)) == multiset(edits) + multiset{e}
  {
    if edits != [] && !NoLater(edits[|edits| - 1], e) {
      InsertContents(edits[..|edits| - 1], e);
      assert edits == edits[..|edits| - 1] + [edits[|edits| - 1]];
    }
  }

  lemma OrderedAppend(edits: seq<Edit>, e: Edit)
    requires Ordered(edits) && forall x :: x in edits ==> NoLater(x, e)
    ensures Ordered(edits + [e])
  {
  }

  lemma AllNoLater(edits: seq<Edit>, e: Edit)
    requires Ordered(edits) && edits != [] && NoLater(edits[|edits| - 1], e)
    ensures forall x :: x in edits ==> NoLater(x, e)
  {
    forall x | x in edits ensures NoLater(x, e) {
      var i :| 0 <= i < |edits| && edits[i] == x;
      if i < |edits| - 1 { assert NoLater(edits[i], edits[|edits| - 1]); }
    }
  }

  lemma {:induction false} InsertOrdered(edits: seq<Edit>, e: Edit)
    requires Ordered(edits)
    ensures Ordered(Insert(edits, e))
  {
    if edits != [] && !NoLater(edits[|edits| - 1], e) {
      var init, last := edits[..|edits| - 1], edits[|edits| - 1];
      InsertOrdered(init, e);
      InsertContents(init, e);
      forall x | x in Insert(init, e) ensures NoLater(x, last) {
        assert x in multiset(Insert(init, e));
        if x != e {
          assert x in init;
          var j :| 0 <= j < |init| && init[j] == x;
          assert NoLater(edits[j], edits[|edits| - 1]);
        }
      }
      OrderedAppend(Insert(init, e), last);
    } else {
      if edits != [] { AllNoLater(edits, e); }
      OrderedAppend(edits, e);
    }
  }

  lemma {:induction false} SortFacts(edits: seq<Edit>)
    ensures Ordered(SortEdits(edits)) && multiset(SortEdits(edits)) == multiset(edits)
  {
    if edits != [] {
      var init, last := edits[..|edits| - 1], edits[|edits| - 1];
      SortFacts(init);
      InsertOrdered(SortEdits(init), last);
      InsertContents(SortEdits(init), last);
      assert edits == init + [last];
    }
  }

  // ------------------------------------------------------------------ selection

  /** Well-formed edits that follow each other without overlap. */
  predicate Disjoint(selected: seq<Edit>) {
    && (forall i :: 0 <= i < |selected| ==> selected[i].start <= selected[i].end)
    && (forall i, j :: 0 <= i < j < |selected| ==> selected[i].end <= selected[j].start)
  }

  /** Of two edits with one start the higher priority wins, and of those the longer. */
  predicate Precedes(a: Edit, b: Edit) {
    a.start == b.start ==> a.priority > b.priority || (a.priority == b.priority && a.end >= b.end)
  }

  /** The edit `e` starts inside a selected edit that takes precedence over it. */
  ghost predicate Shadowed(e: Edit, selected: seq<Edit>) {
    exists i :: 0 <= i < |selected| && selected[i].start <= e.start < selected[i].end && Precedes(selected[i], e)
  }

  ghost predicate Accounted(edits: seq<Edit>, selected: seq<Edit>) {
    forall i :: 0 <= i < |edits| ==> edits[i].end < edits[i].start || edits[i] in selected || Shadowed(edits[i], selected)
  }

  lemma StillShadowed(e: Edit, selected: seq<Edit>, more: Edit)
    requires Shadowed(e, selected)
    ensures Shadowed(e, selected + [more])
  {
    var i :| 0 <= i < |selected| && selected[i].start <= e.start < selected[i].end && Precedes(selected[i], e);
    assert (selected + [more])[i] == selected[i];
  }

  /** What is selected from the edits looked at so far. */
  ghost predicate SelectedFrom(edits: seq<Edit>, selected: seq<Edit>) {
    && Disjoint(selected) && multiset(selected) <= multiset(edits) && Accounted(edits, selected)
    && (selected == [] || selected[|selected| - 1] in edits)
  }

  lemma Dropped(edits: seq<Edit>, selected: seq<Edit>, e: Edit)
    requires Ordered(edits + [e]) && SelectedFrom(edits, selected)
    requires e.end < e.start || (selected != [] && e.start < selected[|selected| - 1].end)
    ensures SelectedFrom(edits + [e], selected)
  {
    if e.end >= e.start {
      var last := selected[|selected| - 1];
      var i :| 0 <= i < |edits| && edits[i] == last;
      assert NoLater((edits + [e])[i], (edits + [e])[|edits|]);
      assert Shadowed(e, selected);
    }
  }

  lemma Taken(edits: seq<Edit>, selected: seq<Edit>, e: Edit)
    requires SelectedFrom(edits, selected)
    requires e.end >= e.start && (selected == [] || e.start >= selected[|selected| - 1].end)
    ensures SelectedFrom(edits + [e], selected + [e])
  {
    forall i | 0 <= i < |edits| && Shadowed(edits[i], selected) ensures Shadowed(edits[i], selected + [e]) {
      StillShadowed(edits[i], selected, e);
    }
    DisjointAppend(selected, e);
  }

  lemma DisjointAppend(selected: seq<Edit>, e: Edit)
    requires Disjoint(selected) && e.start <= e.end && (selected == [] || selected[|selected| - 1].end <= e.start)
    ensures Disjoint(selected + [e])
  {
    forall i | 0 <= i < |selected| ensures selected[i].end <= e.start {
      if i < |selected| - 1 { assert selected[i].end <= selected[|selected| - 1].start; }
    }
  }

  lemma PrefixOrdered(edits: seq<Edit>, i: nat)
    requires Ordered(edits) && i < |edits|
    ensures edits[..i + 1] == edits[..i] + [edits[i]] && Ordered(edits[..i] + [edits[i]])
  {
    var prefix := edits[..i] + [edits[i]];
    assert forall j :: 0 <= j <= i ==> prefix[j] == edits[j];
  }

  method SelectOrdered(edits: seq<Edit>) returns (selected: seq<Edit>)
    requires Ordered(edits)
    ensures SelectedFrom(edits, selected)
  {
    selected := [];
    for i := 0 to |edits|
      invariant SelectedFrom(edits[..i], selected)
    {
      var e := edits[i];
      PrefixOrdered(edits, i);
      if e.end < e.start || (selected != [] && e.start < selected[|selected| - 1].end) {
        Dropped(edits[..i], selected, e);
      } else {
        Taken(edits[..i], selected, e);
        selected := selected + [e];
      }
    }
    assert edits[..|edits|] == edits;
  }

  /**
   The selection is ascending and disjoint, taken from the given edits, and drops a well-formed
   edit only if it starts inside a selected one that precedes it.
   */
  method SelectEdits(edits: seq<Edit>) returns (selected: seq<Edit>)
    ensures Disjoint(selected) && multiset(selected) <= multiset(edits) && Accounted(edits, selected)
  {
    SortFacts(edits);
    var sorted := SortEdits(edits);
    selected := SelectOrdered(sorted);
    forall i | 0 <= i < |edits| ensures edits[i].end < edits[i].start || edits[i] in selected || Shadowed(edits[i], selected) {
      assert edits[i] in multiset(edits);
      assert edits[i] in sorted;
      var j :| 0 <= j < |sorted| && sorted[j] == edits[i];
    }
  }

  // ------------------------------------------------------------------ splicing

  /** A stretch of source between edits, or the range of an edit. */
  datatype Piece = Gap(text: string) | Span(text: string, replacement: Option<string>)

  function Rendered(p: Piece, transform: string -> string): string {
    match p
    case Gap(text) => transform(text)
    case Span(text, replacement) => if replacement.Some? then replacement.value else text
  }

  function Render(pieces: seq<Piece>, transform: string -> string): string {
    if pieces == [] then [] else Render(pieces[..|pieces| - 1], transform) + Rendered(pieces[|pieces| - 1], transform)
  }

  /** The source text a sequence of pieces stands for. */
  function Covered(pieces: seq<Piece>): string {
    if pieces == [] then [] else Covered(pieces[..|pieces| - 1]) + pieces[|pieces| - 1].text
  }

  predicate InBounds(content: string, edits: seq<Edit>) {
    forall i :: 0 <= i < |edits| ==> edits[i].start <= |content| && edits[i].end <= |content|
  }

  /** The pieces before the last gap: a gap and a span for each edit. */
  function Pieces(content: string, selected: seq<Edit>): seq<Piece>
    requires Disjoint(selected) && InBounds(content, selected)
  {
    if selected == [] then [] else
    var init, last := selected[..|selected| - 1], selected[|selected| - 1];
    Pieces(content, init) + [Gap(content[Cursor(init)..last.start]), Span(content[last.start..last.end], last.replacement)]
  }

  function Cursor(selected: seq<Edit>): nat {
    if selected == [] then 0 else selected[|selected| - 1].end
  }

  function AllPieces(content: string, selected: seq<Edit>): seq<Piece>
    requires Disjoint(selected) && InBounds(content, selected)
  {
    Pieces(content, selected) + [Gap(content[Cursor(selected)..])]
  }

  lemma RenderAppend(pieces: seq<Piece>, a: Piece, b: Piece, transform: string -> string)
    ensures Render(pieces + [a, b], transform) == Render(pieces, transform) + Rendered(a, transform) + Rendered(b, transform)
  {
    assert (pieces + [a, b])[..|pieces| + 1] == pieces + [a];
    assert (pieces + [a])[..|pieces|] == pieces;
  }

  lemma CoveredAppend(pieces: seq<Piece>, a: Piece, b: Piece)
    ensures Covered(pieces + [a, b]) == Covered(pieces) + a.text + b.text
  {
    assert (pieces + [a, b])[..|pieces| + 1] == pieces + [a];
    assert (pieces + [a])[..|pieces|] == pieces;
  }

  lemma Adjacent(content: string, a: nat, b: nat, c: nat)
    requires a <= b <= c <= |content|
    ensures content[..a] + content[a..b] + content[b..c] == content[..c]
  {
  }

  lemma CursorBefore(selected: seq<Edit>)
    requires Disjoint(selected) && selected != []
    ensures Cursor(selected[..|selected| - 1]) <= selected[|selected| - 1].start <= selected[|selected| - 1].end
  {
  }

  /** The pieces up to the cursor cover the source up to the cursor, once and in order. */
  lemma {:induction false} PiecesCover(content: string, selected: seq<Edit>)
    requires Disjoint(selected) && InBounds(content, selected)
    ensures Cursor(selected) <= |content| && Covered(Pieces(content, selected)) == content[..Cursor(selected)]
  {
    if selected != [] {
      var init, last := selected[..|selected| - 1], selected[|selected| - 1];
      PiecesCover(content, init);
      CursorBefore(selected);
      CoveredAppend(Pieces(content, init), Gap(content[Cursor(init)..last.start]), Span(content[last.start..last.end], last.replacement));
      Adjacent(content, Cursor(init), last.start, last.end);
    }
  }

  /** The output stands for the whole source exactly once. */
  lemma AllPiecesCover(content: string, selected: seq<Edit>)
    requires Disjoint(selected) && InBounds(content, selected)
    ensures Covered(AllPieces(content, selected)) == content
  {
    PiecesCover(content, selected);
    var pieces := Pieces(content, selected);
    assert AllPieces(content, selected)[..|pieces|] == pieces;
    assert content[..Cursor(selected)] + content[Cursor(selected)..] == content;
  }

  /** Each selected edit is one span: verbatim if it has no replacement. */
  lemma {:induction false} EditIsSpan(content: string, selected: seq<Edit>, i: nat)
    requires Disjoint(selected) && InBounds(content, selected) && i < |selected|
    ensures |Pieces(content, selected)| == 2 * |selected|
    ensures Pieces(content, selected)[2 * i + 1] == Span(content[selected[i].start..selected[i].end], selected[i].replacement)
  {
    var init := selected[..|selected| - 1];
    if i < |init| {
      EditIsSpan(content, init, i);
    } else if init != [] {
      EditIsSpan(content, init, 0);
    }
  }

  /** Pieces that render to their own text render together to the source. */
  lemma {:induction false} IdentityRender(pieces: seq<Piece>, transform: string -> string)
    requires forall i :: 0 <= i < |pieces| ==> Rendered(pieces[i], transform) == pieces[i].text
    ensures Render(pieces, transform) == Covered(pieces)
  {
    if pieces != [] { IdentityRender(pieces[..|pieces| - 1], transform); }
  }

  lemma PrefixOf(selected: seq<Edit>, i: nat)
    requires i < |selected|
    ensures |selected[..i + 1]| == i + 1 && selected[..i + 1][..i] == selected[..i] && selected[..i + 1][i] == selected[i]
  {
  }

  lemma NextPieces(content: string, selected: seq<Edit>, i: nat, transform: string -> string)
    requires Disjoint(selected) && InBounds(content, selected) && i < |selected|
    ensures var init, e := selected[..i], selected[i];
      && Cursor(init) <= e.start && Cursor(selected[..i + 1]) == e.end
      && Render(Pieces(content, selected[..i + 1]), transform) == Render(Pieces(content, init), transform)
           + transform(content[Cursor(init)..e.start])
           + (if e.replacement.None? then content[e.start..e.end] else e.replacement.value)
  {
    var init, e := selected[..i], selected[i];
    PrefixOf(selected, i);
    CursorBefore(selected[..i + 1]);
    RenderAppend(Pieces(content, init), Gap(content[Cursor(init)..e.start]), Span(content[e.start..e.end], e.replacement), transform);
  }

  lemma LastGap(content: string, selected: seq<Edit>, transform: string -> string)
    requires Disjoint(selected) && InBounds(content, selected)
    ensures Render(AllPieces(content, selected), transform)
      == Render(Pieces(content, selected), transform) + transform(content[Cursor(selected)..])
  {
    var pieces := Pieces(content, selected);
    assert AllPieces(content, selected)[..|pieces|] == pieces;
  }

  /** Splice the selected edits into the text, transforming everything between them. */
  method Splice(content: string, selected: seq<Edit>, transform: string -> string) returns (r: string)
    requires Disjoint(selected) && InBounds(content, selected)
    ensures r == Render(AllPieces(content, selected), transform)
  {
    r := [];
    var cursor := 0;
    for i := 0 to |selected|
      invariant cursor == Cursor(selected[..i]) <= |content| && r == Render(Pieces(content, selected[..i]), transform)
    {
      var e := selected[i];
      NextPieces(content, selected, i, transform);
      r := r + transform(content[cursor..e.start]);
      r := r + if e.replacement.None? then content[e.start..e.end] else e.replacement.value;
      cursor := e.end;
    }
    assert selected[..|selected|] == selected;
    LastGap(content, selected, transform);
    r := r + transform(content[cursor..]);
  }

  /** Select and splice, as a conversion does with the edits it collected. */
  method ApplyEdits(content: string, edits: seq<Edit>, transform: string -> string) returns (r: string, selected: seq<Edit>)
    requires InBounds(content, edits)
    ensures Disjoint(selected) && InBounds(content, selected) && Accounted(edits, selected)
    ensures r == Render(AllPieces(content, selected), transform) && Covered(AllPieces(content, selected)) == content
    ensures (forall s :: transform(s) == s)
      && (forall e :: e in edits && e.replacement.Some? && e.start <= e.end ==> e.replacement.value == content[e.start..e.end])
      ==> r == content
  {
    selected := SelectEdits(edits);
    forall i | 0 <= i < |selected| ensures selected[i] in edits {
      assert selected[i] in multiset(selected);
      assert selected[i] in multiset(edits);
    }
    r := Splice(content, selected, transform);
    AllPiecesCover(content, selected);
    if (forall s :: transform(s) == s)
      && (forall e :: e in edits && e.replacement.Some? && e.start <= e.end ==> e.replacement.value == content[e.start..e.end])
    {
      IdentityPieces(content, selected, transform);
      IdentityRender(AllPieces(content, selected), transform);
    }
  }

  lemma {:induction false} IdentityPieces(content: string, selected: seq<Edit>, transform: string -> string)
    requires Disjoint(selected) && InBounds(content, selected)
    requires forall s :: transform(s) == s
    requires forall e :: e in selected && e.replacement.Some? && e.start <= e.end ==> e.replacement.value == content[e.start..e.end]
    ensures forall i :: 0 <= i < |Pieces(content, selected)| ==>
      Rendered(Pieces(content, selected)[i], transform) == Pieces(content, selected)[i].text
  {
    if selected != [] {
      var init, last := selected[..|selected| - 1], selected[|selected| - 1];
      IdentityPieces(content, init, transform);
      assert last in selected;
    }
  }
}
