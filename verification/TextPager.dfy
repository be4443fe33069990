/** The bounded pager of ios/App/StyleLibraryView.swift over Unicode scalar values. */
module TextPager {
  type Scalar = x: nat | x < 0xD800 || 0xE000 <= x < 0x110000

  type Text = seq<Scalar>

  const LIMIT := 1200
  const LINES := 24
  const SUMMARY_LINES := 2
  const ELLIPSIS: Scalar := 0x2026

  // The length of a scalar in UTF-16.
  function Size(c: Scalar): nat {
    if c > 0xffff then 2 else 1
  }

  predicate IsBreak(c: Scalar) {
    c in {0x0a, 0x0b, 0x0c, 0x0d, 0x85, 0x2028, 0x2029}
  }

  function Units(t: Text): nat {
    if t == [] then 0 else Units(t[..|t| - 1]) + Size(t[|t| - 1])
  }

  function Breaks(t: Text): nat {
    if t == [] then 0 else Breaks(t[..|t| - 1]) + if IsBreak(t[|t| - 1]) then 1 else 0
  }

  // A page holds at most `limit` units and nothing after its `lines`-th break; with no more than one line
  // asked for, nothing after the first.
  predicate Fits(page: Text, limit: int, lines: int) {
    page == [] || (Units(page) <= limit && Breaks(page[..|page| - 1]) < if lines > 1 then lines else 1)
  }

  // ---- one page ----

  // The end of the longest page that starts at `start`, given that it is at least at `end`.
  function Grow(t: Text, start: nat, end: nat, limit: int, lines: int): (r: nat)
    requires start <= end <= |t|
    ensures end <= r <= |t|
    decreases |t| - end
  {
    if end < |t| && Fits(t[start..end + 1], limit, lines) then Grow(t, start, end + 1, limit, lines) else end
  }

  function PageEnd(t: Text, start: nat, limit: int, lines: int): (r: nat)
    requires start <= |t|
    ensures start <= r <= |t|
  {
    Grow(t, start, start, limit, lines)
  }

  lemma Shorter(t: Text, start: nat, end: nat)
    requires start <= end < |t|
    ensures t[start..end + 1][..end - start] == t[start..end] && t[start..end + 1][end - start] == t[end]
  {}

  /** The loop of `page`: it stops at the end of the text, at the unit limit or after the last line break. */
  method Page(t: Text, start: nat, limit: int, lines: int) returns (text: Text, end: nat, hasNext: bool)
    requires start <= |t|
    ensures end == PageEnd(t, start, limit, lines)
    ensures text == t[start..end] && (hasNext <==> end < |t|)
  {
    end := start;
    var units, breaks := 0, 0;
    while end < |t|
      invariant start <= end <= |t|
      invariant units == Units(t[start..end]) && breaks == Breaks(t[start..end])
      invariant breaks < if lines > 1 then lines else 1
      invariant PageEnd(t, start, limit, lines) == Grow(t, start, end, limit, lines)
      decreases |t| - end
    {
      var size := if t[end] > 0xffff then 2 else 1;
      Shorter(t, start, end);
      if units + size > limit { break; }
      units := units + size;
      end := end + 1;
      if t[end - 1] in {0x0a, 0x0b, 0x0c, 0x0d, 0x85, 0x2028, 0x2029} {
        breaks := breaks + 1;
        if breaks >= lines {
          if end < |t| { Shorter(t, start, end); }
          break;
        }
      }
    }
    text := t[start..end];
    hasNext := end < |t|;
  }

  lemma {:induction false} UnitsConcat(a: Text, b: Text)
    ensures Units(a + b) == Units(a) + Units(b) && Breaks(a + b) == Breaks(a) + Breaks(b)
  {
    if b == [] {
      assert a + b == a;
    } else {
      assert (a + b)[..|a + b| - 1] == a + b[..|b| - 1];
      UnitsConcat(a, b[..|b| - 1]);
    }
  }

  lemma PieceIsSmaller(t: Text, from: nat, to: nat)
    requires from <= to <= |t|
    ensures Units(t[from..to]) <= Units(t) && Breaks(t[from..to]) <= Breaks(t)
  {
    hide Units, Breaks;
    assert t == t[..from] + t[from..];
    UnitsConcat(t[..from], t[from..]);
    assert t[from..] == t[from..to] + t[to..];
    UnitsConcat(t[from..to], t[to..]);
  }

  // Any piece of a page is a page.
  lemma PiecesFit(page: Text, from: nat, to: nat, limit: int, lines: int)
    requires Fits(page, limit, lines) && from <= to <= |page|
    ensures Fits(page[from..to], limit, lines)
  {
    if from < to {
      PieceIsSmaller(page, from, to);
      PieceIsSmaller(page[..|page| - 1], from, to - 1);
      assert page[from..to][..to - from - 1] == page[from..to - 1];
      assert page[..|page| - 1][from..to - 1] == page[from..to - 1];
    }
  }

  lemma GrowIsLongest(t: Text, start: nat, from: nat, limit: int, lines: int, end: nat)
    requires start <= from <= end <= |t| && Fits(t[start..from], limit, lines)
    ensures Fits(t[start..end], limit, lines) <==> end <= Grow(t, start, from, limit, lines)
    decreases |t| - from
  {
    if from < |t| && Fits(t[start..from + 1], limit, lines) {
      if end > from {
        GrowIsLongest(t, start, from + 1, limit, lines, end);
      }
    } else if end > from && Fits(t[start..end], limit, lines) {
      PiecesFit(t[start..end], 0, from + 1 - start, limit, lines);
      assert t[start..end][0..from + 1 - start] == t[start..from + 1];
    }
  }

  /** A page is as long as the bounds allow: a piece that starts where the page starts fits the bounds
      exactly when it does not end beyond the page. */
  lemma PageIsLongest(t: Text, start: nat, limit: int, lines: int, end: nat)
    requires start <= end <= |t|
    ensures Fits(t[start..end], limit, lines) <==> end <= PageEnd(t, start, limit, lines)
  {
    assert t[start..start] == [];
    GrowIsLongest(t, start, start, limit, lines, end);
  }

  /** Paging gets stuck, showing an empty page with a next page, exactly at a scalar longer than the limit;
      so it never does when the limit is at least two. */
  lemma StuckIff(t: Text, start: nat, limit: int, lines: int)
    requires start < |t|
    ensures PageEnd(t, start, limit, lines) == start <==> Size(t[start]) > limit
  {
    PageIsLongest(t, start, limit, lines, start + 1);
    var page := t[start..start + 1];
    assert page[..|page| - 1] == [] && page[|page| - 1] == t[start];
    assert Units(page) == Size(t[start]);
  }

  // ---- all pages ----

  function Pages(t: Text, start: nat, limit: int, lines: int): seq<Text>
    requires start <= |t| && limit >= 2
    decreases |t| - start
  {
    if start == |t| then []
    else
      StuckIff(t, start, limit, lines);
      var end := PageEnd(t, start, limit, lines);
      [t[start..end]] + Pages(t, end, limit, lines)
  }

  function Concat(parts: seq<Text>): Text {
    if parts == [] then [] else parts[0] + Concat(parts[1..])
  }

  /** The pages of a text are not empty, fit the bounds, and give the text back. */
  lemma {:induction false} PagesPartition(t: Text, start: nat, limit: int, lines: int)
    requires start <= |t| && limit >= 2
    ensures Concat(Pages(t, start, limit, lines)) == t[start..]
    ensures forall p | p in Pages(t, start, limit, lines) :: p != [] && Fits(p, limit, lines)
    decreases |t| - start
  {
    if start == |t| {
      assert t[start..] == [];
    } else {
      StuckIff(t, start, limit, lines);
      var end := PageEnd(t, start, limit, lines);
      PageIsLongest(t, start, limit, lines, end);
      PagesPartition(t, end, limit, lines);
      var rest := Pages(t, end, limit, lines);
      assert ([t[start..end]] + rest)[1..] == rest;
      assert t[start..] == t[start..end] + t[end..];
    }
  }

  // Greedy paging from `b` needs no more pages than any split of the text from an earlier `a`.
  lemma {:induction false} GreedyStaysAhead(t: Text, a: nat, b: nat, parts: seq<Text>, limit: int, lines: int)
    requires a <= b <= |t| && limit >= 2 && Concat(parts) == t[a..]
    requires forall p | p in parts :: Fits(p, limit, lines)
    ensures |Pages(t, b, limit, lines)| <= |parts|
    decreases |parts|
  {
    if b < |t| {
      assert parts != [];
      var e := a + |parts[0]|;
      assert t[a..] == parts[0] + Concat(parts[1..]);
      assert e <= |t| && t[e..] == Concat(parts[1..]) && t[a..e] == parts[0];
      if e <= b {
        GreedyStaysAhead(t, e, b, parts[1..], limit, lines);
      } else {
        PiecesFit(parts[0], b - a, |parts[0]|, limit, lines);
        assert parts[0][b - a..|parts[0]|] == t[b..e];
        PageIsLongest(t, b, limit, lines, e);
        GreedyStaysAhead(t, e, PageEnd(t, b, limit, lines), parts[1..], limit, lines);
      }
    }
  }

  /** No split of the text into parts within the same bounds has fewer parts. */
  lemma NoSplitIsShorter(t: Text, parts: seq<Text>, limit: int, lines: int)
    requires limit >= 2 && Concat(parts) == t && forall p | p in parts :: Fits(p, limit, lines)
    ensures |Pages(t, 0, limit, lines)| <= |parts|
  {
    GreedyStaysAhead(t, 0, 0, parts, limit, lines);
  }

  // ---- the summary ----

  /** The summary is the whole text, or its longest beginning within the bounds and an ellipsis. */
  method Summary(t: Text, limit: int) returns (summary: Text)
    ensures Fits(t, limit, SUMMARY_LINES) ==> summary == t
    ensures !Fits(t, limit, SUMMARY_LINES) ==>
              exists end: nat ::
                && end < |t| && summary == t[..end] + [ELLIPSIS]
                && Fits(t[..end], limit, SUMMARY_LINES) && !Fits(t[..end + 1], limit, SUMMARY_LINES)
  {
    var text, end, hasNext := Page(t, 0, limit, SUMMARY_LINES);
    summary := text + if hasNext then [ELLIPSIS] else [];
    PageIsLongest(t, 0, limit, SUMMARY_LINES, |t|);
    PageIsLongest(t, 0, limit, SUMMARY_LINES, end);
    assert t[0..|t|] == t && t[0..end] == t[..end];
    if hasNext {
      PageIsLongest(t, 0, limit, SUMMARY_LINES, end + 1);
      assert t[0..end + 1] == t[..end + 1];
    }
  }

  // ---- the pager ----

  function Start(starts: seq<nat>): nat {
    if starts == [] then 0 else starts[|starts| - 1]
  }

  // Where the pages up to the one on screen start, the first page left out.
  ghost predicate IsTrail(t: Text, starts: seq<nat>): (b: bool)
    ensures b ==> Start(starts) <= |t|
  {
    starts == []
    || (&& IsTrail(t, starts[..|starts| - 1])
        && Start(starts) == PageEnd(t, Start(starts[..|starts| - 1]), LIMIT, LINES) && Start(starts) < |t|)
  }

  lemma {:induction false} PagesAlong(t: Text, starts: seq<nat>)
    requires IsTrail(t, starts)
    ensures Start(starts) <= |t| && |starts| <= |Pages(t, 0, LIMIT, LINES)|
    ensures Pages(t, 0, LIMIT, LINES)[|starts|..] == Pages(t, Start(starts), LIMIT, LINES)
  {
    if starts != [] {
      var before := starts[..|starts| - 1];
      PagesAlong(t, before);
      var here := Start(before);
      var rest := Pages(t, here, LIMIT, LINES);
      assert rest == [t[here..Start(starts)]] + Pages(t, Start(starts), LIMIT, LINES);
      assert Pages(t, 0, LIMIT, LINES)[|before|..][1..] == Pages(t, 0, LIMIT, LINES)[|starts|..];
    }
  }

  /** The page on screen is the one whose number is shown, and there is a next one exactly when it is not
      the last. */
  lemma PageOnScreen(t: Text, starts: seq<nat>)
    requires t != [] && IsTrail(t, starts)
    ensures Start(starts) < |t| && |starts| < |Pages(t, 0, LIMIT, LINES)|
    ensures var end := PageEnd(t, Start(starts), LIMIT, LINES);
            && t[Start(starts)..end] == Pages(t, 0, LIMIT, LINES)[|starts|]
            && (end < |t| <==> |starts| + 1 < |Pages(t, 0, LIMIT, LINES)|)
  {
    PagesAlong(t, starts);
    var here := Start(starts);
    StuckIff(t, here, LIMIT, LINES);
    var end := PageEnd(t, here, LIMIT, LINES);
    assert Pages(t, here, LIMIT, LINES) == [t[here..end]] + Pages(t, end, LIMIT, LINES);
    if end < |t| { StuckIff(t, end, LIMIT, LINES); }
  }

  class StylePagedText {
    const document: Text
    var starts: seq<nat>

    ghost predicate Valid()
      reads this
    {
      IsTrail(document, starts)
    }

    constructor (value: Text)
      ensures Valid() && document == value && starts == []
    {
      document, starts := value, [];
    }

    // The page on screen and the two buttons.
    method Current() returns (text: Text, end: nat, hasNext: bool, hasPrevious: bool)
      requires Valid()
      ensures Start(starts) <= |document|
      ensures end == PageEnd(document, Start(starts), LIMIT, LINES) && (hasNext <==> end < |document|)
      ensures document == [] ==> text == [] && !hasNext
      ensures document != [] ==>
                && |starts| < |Pages(document, 0, LIMIT, LINES)| && text == Pages(document, 0, LIMIT, LINES)[|starts|]
                && (hasNext <==> |starts| + 1 < |Pages(document, 0, LIMIT, LINES)|)
      ensures hasPrevious <==> starts != []
    {
      PagesAlong(document, starts);
      if document != [] { PageOnScreen(document, starts); }
      text, end, hasNext := Page(document, if starts == [] then 0 else starts[|starts| - 1], LIMIT, LINES);
      hasPrevious := starts != [];
    }

    // The button is disabled on the last page.
    method Next()
      requires Valid() && |starts| + 1 < |Pages(document, 0, LIMIT, LINES)|
      modifies this
      ensures Valid() && |starts| == |old(starts)| + 1 && old(starts) == starts[..|old(starts)|]
    {
      if document != [] { PageOnScreen(document, starts); }
      var _, end, _, _ := Current();
      starts := starts + [end];
      assert starts[..|starts| - 1] == old(starts);
    }

    // Undoes `Next`, and does nothing on the first page.
    method Previous()
      requires Valid()
      modifies this
      ensures Valid()
      ensures starts == if old(starts) == [] then [] else old(starts)[..|old(starts)| - 1]
    {
      if starts != [] { starts := starts[..|starts| - 1]; }
    }
  }
}
