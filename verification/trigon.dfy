// The triangle rasterisers. Each rejects a triangle whose first and third
// vertex share a row, sorts the vertices by y with three conditional swaps,
// and walks two bands: rows y1 .. y2 between the edges 1-2 and 1-3, then rows
// y2+1 .. y3 between the edges 1-3 and 2-3, calling a span drawer for every
// row. A flat band is drawn as the single span between its two vertices.
module Trigons {
  import opened FixedPoint
  import opened Surfaces
  import opened Scanline
  import opened Edges

  /** Three vertices, in the order a rasteriser holds them. */
  datatype Tri = Tri(v1: Vertex, v2: Vertex, v3: Vertex)

  predicate SortedTri(t: Tri)
  {
    t.v1.y <= t.v2.y <= t.v3.y
  }

  /** r holds the vertices of t in one of the six orders. */
  predicate Reorders(r: Tri, t: Tri)
  {
    || r == Tri(t.v1, t.v2, t.v3) || r == Tri(t.v1, t.v3, t.v2)
    || r == Tri(t.v2, t.v1, t.v3) || r == Tri(t.v2, t.v3, t.v1)
    || r == Tri(t.v3, t.v1, t.v2) || r == Tri(t.v3, t.v2, t.v1)
  }

  /** The three conditional swaps of the source: (1,2), (2,3), (1,2). Each
      swap moves a whole vertex, so the result is the same vertices with
      their attributes, ordered by y. */
  function SortedByY(t: Tri): (r: Tri)
    ensures SortedTri(r) && Reorders(r, t)
  {
    var p := SwapIfBelow(t.v1, t.v2);
    var q := SwapIfBelow(p.1, t.v3);
    var u := SwapIfBelow(p.0, q.0);
    Tri(u.0, u.1, q.1)
  }

  /** Sorting is a permutation of the vertices. */
  lemma SortedByYPermutes(t: Tri)
    ensures var r := SortedByY(t);
      multiset{r.v1, r.v2, r.v3} == multiset{t.v1, t.v2, t.v3}
  {
    var r := SortedByY(t);
    assert Reorders(r, t);
  }

  predicate Fit(ks: seq<Kind>, t: Tri)
  {
    Fits(ks, t.v1) && Fits(ks, t.v2) && Fits(ks, t.v3)
  }

  /** A sorted triangle that is not flat. */
  predicate Walkable(ks: seq<Kind>, w: Tri)
  {
    Fit(ks, w) && SortedTri(w) && w.v1.y < w.v3.y
  }

  /** Rows w1.y .. w2.y between the edges 1-2 (left) and 1-3 (right), both
      starting at vertex 1. */
  function UpperBand(ks: seq<Kind>, w: Tri): (r: seq<Span>)
    requires Walkable(ks, w)
    ensures |r| == if w.v1.y == w.v2.y then 1 else w.v2.y - w.v1.y + 1
  {
    if w.v1.y == w.v2.y then [FlatSpan(w.v1, w.v2)]
    else BandRows(ks, EdgeStart(ks, w.v1), EdgeStep(ks, w.v1, w.v2),
                  EdgeStart(ks, w.v1), EdgeStep(ks, w.v1, w.v3), w.v1.y, w.v2.y - w.v1.y + 1)
  }

  /** How many rows the long edge 1-3 has been stepped when the lower band
      starts: none when the upper band was flat, else one per upper row. */
  function LongEdgeOffset(w: Tri): int
  {
    if w.v1.y == w.v2.y then 0 else w.v2.y - w.v1.y + 1
  }

  /** Rows w2.y+1 .. w3.y between the edges 1-3 (left), carried on from the
      upper band, and 2-3 (right), starting at vertex 2. */
  function LowerBand(ks: seq<Kind>, w: Tri): (r: seq<Span>)
    requires Walkable(ks, w)
    ensures |r| == if w.v2.y == w.v3.y then 1 else w.v3.y - w.v2.y
  {
    if w.v2.y == w.v3.y then [FlatSpan(w.v2, w.v3)]
    else BandRows(ks, EdgeAt(ks, w.v1, w.v3, LongEdgeOffset(w)), EdgeStep(ks, w.v1, w.v3),
                  EdgeStart(ks, w.v2), EdgeStep(ks, w.v2, w.v3), w.v2.y + 1, w.v3.y - w.v2.y)
  }

  /** Row w1.y + j of a sloped upper band: the span between edge 1-2 and
      edge 1-3, each stepped j times. */
  lemma UpperRow(ks: seq<Kind>, w: Tri, j: int)
    requires Walkable(ks, w) && w.v1.y < w.v2.y && 0 <= j <= w.v2.y - w.v1.y
    ensures UpperBand(ks, w)[j] == RowSpan(ks, EdgeAt(ks, w.v1, w.v2, j), EdgeAt(ks, w.v1, w.v3, j), (w.v1.y + j) as Sint16)
  {
    var a0, as_, bs := EdgeStart(ks, w.v1), EdgeStep(ks, w.v1, w.v2), EdgeStep(ks, w.v1, w.v3);
    var y0, n := w.v1.y, w.v2.y - w.v1.y + 1;
    BandRowAt(ks, a0, as_, a0, bs, y0, n, j);
    assert UpperBand(ks, w)[j] == RowSpan(ks, Advance(a0, as_, j), Advance(a0, bs, j), (y0 + j) as Sint16);
  }

  /** Row w2.y + 1 + j of a sloped lower band: edge 1-3 has gone on from
      where the upper band left it. */
  lemma LowerRow(ks: seq<Kind>, w: Tri, j: int)
    requires Walkable(ks, w) && w.v2.y < w.v3.y && 0 <= j < w.v3.y - w.v2.y
    ensures LowerBand(ks, w)[j]
         == RowSpan(ks, EdgeAt(ks, w.v1, w.v3, LongEdgeOffset(w) + j), EdgeAt(ks, w.v2, w.v3, j), (w.v2.y + 1 + j) as Sint16)
  {
    var off, y0, n := LongEdgeOffset(w), w.v2.y + 1, w.v3.y - w.v2.y;
    assert LowerBand(ks, w) == BandRows(ks, EdgeAt(ks, w.v1, w.v3, off), EdgeStep(ks, w.v1, w.v3),
                                        EdgeStart(ks, w.v2), EdgeStep(ks, w.v2, w.v3), y0, n);
    CarriedEdgeRow(ks, w.v1, w.v3, off, EdgeStart(ks, w.v2), EdgeStep(ks, w.v2, w.v3), y0, n, j);
  }

  /** The span drawer calls of a triangle, in order: none exactly when the
      first and third vertex as given share a row. */
  function TrigonCalls(ks: seq<Kind>, t: Tri): (r: seq<Span>)
    requires Fit(ks, t)
    ensures r == [] <==> t.v1.y == t.v3.y
    ensures CarryAttrs(|ks|, r)
  {
    if t.v1.y == t.v3.y then []
    else
      var w := SortedByY(t);
      CarryAttrsConcat(|ks|, UpperBand(ks, w), LowerBand(ks, w));
      UpperBand(ks, w) + LowerBand(ks, w)
  }

  /** The rectangle reported as changed, computed on the sorted vertices:
      from the smallest to the largest x, and from the top to the bottom row. */
  function TrigonDirty(w: Tri): Rect
  {
    var xmin := Min(Min(w.v1.x, w.v2.x), w.v3.x);
    var xmax := Max(Max(w.v1.x, w.v2.x), w.v3.x);
    Rect(xmin, w.v1.y, xmax - xmin + 1, w.v3.y - w.v1.y + 1)
  }

  /** What a rasteriser reports: nothing for a rejected triangle. */
  function TrigonReport(t: Tri): Option<Rect>
  {
    if t.v1.y == t.v3.y then None else Some(TrigonDirty(SortedByY(t)))
  }

  // ---------------------------------------------------------------------
  // What the walk promises.

  /** The sorted triangle spans the rows from the smallest to the largest y
      of the vertices as given. */
  lemma SortedByYBounds(t: Tri)
    ensures SortedByY(t).v1.y == Min(Min(t.v1.y, t.v2.y), t.v3.y)
    ensures SortedByY(t).v3.y == Max(Max(t.v1.y, t.v2.y), t.v3.y)
    ensures Min(Min(SortedByY(t).v1.x, SortedByY(t).v2.x), SortedByY(t).v3.x) == Min(Min(t.v1.x, t.v2.x), t.v3.x)
    ensures Max(Max(SortedByY(t).v1.x, SortedByY(t).v2.x), SortedByY(t).v3.x) == Max(Max(t.v1.x, t.v2.x), t.v3.x)
  {
  }

  /** The row of each span of the two bands. */
  lemma BandRowNumbers(ks: seq<Kind>, w: Tri)
    requires Walkable(ks, w)
    ensures var u := UpperBand(ks, w);
      forall i | 0 <= i < |u| :: u[i].y == w.v1.y + i
    ensures var l := LowerBand(ks, w);
      forall i | 0 <= i < |l| :: l[i].y == if w.v2.y == w.v3.y then w.v2.y else w.v2.y + 1 + i
  {
  }

  /** The span drawer is called for every row from the top vertex to the
      bottom vertex and for no other row. */
  lemma TrigonRowsExact(ks: seq<Kind>, t: Tri, y: int)
    requires Fit(ks, t) && t.v1.y != t.v3.y
    ensures var w, spans := SortedByY(t), TrigonCalls(ks, t);
      (exists i | 0 <= i < |spans| :: spans[i].y == y) <==> w.v1.y <= y <= w.v3.y
  {
    var w := SortedByY(t);
    var u, l := UpperBand(ks, w), LowerBand(ks, w);
    assert TrigonCalls(ks, t) == u + l;
    BandRowNumbers(ks, w);
    RowsOfConcat(u, l, w.v1.y, w.v3.y);
    if w.v1.y <= y <= w.v3.y {
      if y <= w.v2.y {
        ConcatLeft(u, l, y - w.v1.y);
      } else {
        ConcatRight(u, l, y - w.v2.y - 1);
      }
    }
  }

  /** Two lists of spans on rows lo..hi give a list on rows lo..hi. */
  lemma RowsOfConcat(u: seq<Span>, l: seq<Span>, lo: int, hi: int)
    requires forall i | 0 <= i < |u| :: lo <= u[i].y <= hi
    requires forall i | 0 <= i < |l| :: lo <= l[i].y <= hi
    ensures forall i | 0 <= i < |u + l| :: lo <= (u + l)[i].y <= hi
  {
    forall i | 0 <= i < |u + l|
      ensures lo <= (u + l)[i].y <= hi
    {
      if i >= |u| {
        assert (u + l)[i] == l[i - |u|];
      }
    }
  }

  lemma ConcatLeft(u: seq<Span>, l: seq<Span>, i: int)
    requires 0 <= i < |u|
    ensures (u + l)[i] == u[i]
  {
  }

  lemma ConcatRight(u: seq<Span>, l: seq<Span>, i: int)
    requires 0 <= i < |l|
    ensures (u + l)[|u| + i] == l[i]
  {
  }

  /** Both ends of every span of the two bands lie within the vertices'
      x range, and each span's row within their y range. */
  lemma BandsInDirty(ks: seq<Kind>, w: Tri)
    requires Walkable(ks, w)
    ensures var u := UpperBand(ks, w);
      forall i | 0 <= i < |u| :: SpanInRect(u[i], TrigonDirty(w))
    ensures var l := LowerBand(ks, w);
      forall i | 0 <= i < |l| :: SpanInRect(l[i], TrigonDirty(w))
  {
    UpperInDirty(ks, w);
    LowerInDirty(ks, w);
  }

  lemma UpperInDirty(ks: seq<Kind>, w: Tri)
    requires Walkable(ks, w)
    ensures var u := UpperBand(ks, w);
      forall i | 0 <= i < |u| :: SpanInRect(u[i], TrigonDirty(w))
  {
    var u := UpperBand(ks, w);
    var r := TrigonDirty(w);
    if w.v1.y < w.v2.y {
      forall i | 0 <= i < |u|
        ensures SpanInRect(u[i], r)
      {
        UpperRowInDirty(ks, w, i);
      }
    }
  }

  lemma UpperRowInDirty(ks: seq<Kind>, w: Tri, j: int)
    requires Walkable(ks, w) && w.v1.y < w.v2.y && 0 <= j <= w.v2.y - w.v1.y
    ensures SpanInRect(UpperBand(ks, w)[j], TrigonDirty(w))
  {
    UpperRow(ks, w, j);
    RowSpanInRect(ks, w.v1, w.v2, j, w.v1, w.v3, j, (w.v1.y + j) as Sint16, TrigonDirty(w));
  }

  lemma LowerInDirty(ks: seq<Kind>, w: Tri)
    requires Walkable(ks, w)
    ensures var l := LowerBand(ks, w);
      forall i | 0 <= i < |l| :: SpanInRect(l[i], TrigonDirty(w))
  {
    var l := LowerBand(ks, w);
    var r := TrigonDirty(w);
    if w.v2.y < w.v3.y {
      forall i | 0 <= i < |l|
        ensures SpanInRect(l[i], r)
      {
        LowerRowInDirty(ks, w, i);
      }
    }
  }

  lemma LowerRowInDirty(ks: seq<Kind>, w: Tri, j: int)
    requires Walkable(ks, w) && w.v2.y < w.v3.y && 0 <= j < w.v3.y - w.v2.y
    ensures SpanInRect(LowerBand(ks, w)[j], TrigonDirty(w))
  {
    LowerRow(ks, w, j);
    RowSpanInRect(ks, w.v1, w.v3, LongEdgeOffset(w) + j, w.v2, w.v3, j, (w.v2.y + 1 + j) as Sint16, TrigonDirty(w));
  }

  /** Every span lies inside the rectangle the rasteriser reports. The edge
      steps are truncated toward zero, so no edge overshoots the vertex it
      runs to. */
  lemma TrigonSpansInDirty(ks: seq<Kind>, t: Tri)
    requires Fit(ks, t) && t.v1.y != t.v3.y
    ensures var spans := TrigonCalls(ks, t);
      forall i | 0 <= i < |spans| :: SpanInRect(spans[i], TrigonDirty(SortedByY(t)))
  {
    var w := SortedByY(t);
    var u, l := UpperBand(ks, w), LowerBand(ks, w);
    BandsInDirty(ks, w);
    var spans := u + l;
    assert TrigonCalls(ks, t) == spans;
    forall i | 0 <= i < |spans|
      ensures SpanInRect(spans[i], TrigonDirty(w))
    {
      if i >= |u| {
        assert spans[i] == l[i - |u|];
      }
    }
  }

  /** Drawing a triangle changes no pixel outside the rectangle it reports
      or outside the clip rectangle, and a rejected triangle changes none. */
  lemma TrigonStaysInDirty(tg: Target, s: seq<int>, ks: seq<Kind>, m: Mode, t: Tri, x: int, y: int)
    requires tg.Valid() && |s| == tg.pitch * tg.height
    requires Fit(ks, t) && |ks| == Arity(m) && (m.PreCalc? ==> PaletteTable(m.palettes))
    requires 0 <= x < tg.pitch && 0 <= y < tg.height
    ensures 0 <= y * tg.pitch + x < |s|
    ensures Paint(tg, s, TrigonCalls(ks, t), m)[y * tg.pitch + x] != s[y * tg.pitch + x] ==>
              TrigonReport(t).Some? && InRect(TrigonReport(t).value, x, y)
              && tg.clip.xmin <= x <= tg.clip.xmax && tg.clip.ymin <= y <= tg.clip.ymax
  {
    RowMajor(tg.pitch, tg.height, x, y);
    if t.v1.y != t.v3.y {
      TrigonSpansInDirty(ks, t);
      PaintStaysInRect(tg, s, TrigonCalls(ks, t), m, TrigonDirty(SortedByY(t)), x, y);
    }
  }

  /** The reported rectangle is at least one column wide and two rows high.
      Its width reaches 65536, which no Uint16 holds, exactly when the
      vertices span every Sint16 column, and its height exactly when they
      span every Sint16 row. */
  lemma TrigonReportSize(t: Tri)
    requires t.v1.y != t.v3.y
    ensures var r := TrigonReport(t).value;
      && 1 <= r.w <= 65536 && 2 <= r.h <= 65536
      && (r.w == 65536 <==> Min(Min(t.v1.x, t.v2.x), t.v3.x) == -32768 && Max(Max(t.v1.x, t.v2.x), t.v3.x) == 32767)
      && (r.h == 65536 <==> Min(Min(t.v1.y, t.v2.y), t.v3.y) == -32768 && Max(Max(t.v1.y, t.v2.y), t.v3.y) == 32767)
  {
  }

  /** A triangle across every column: numeric_cast throws, and a plain int
      argument wraps the width to 0. */
  lemma WideTrigonUpdate()
    ensures var t := Tri(Vertex(-32768, 0, []), Vertex(32767, 0, []), Vertex(0, 1, []));
      && TrigonReport(t) == Some(Rect(-32768, 0, 65536, 2))
      && Narrowed(TrigonReport(t), true) == CastFails
      && Narrowed(TrigonReport(t), false) == UpdateRect(-32768, 0, 0, 2)
  {
  }

  // ---------------------------------------------------------------------
  // The band loops as written count rows in a Sint16 y, so a loop whose
  // last row is 32767 never ends (see FixedPoint.RowCounter). The walk
  // below counts with an unbounded integer and draws each row once.

  /** For a sorted triangle whose bottom row is 32767, the row the loop
      bounded by that row starts on: the upper loop's y1 when vertex 2 lies
      on the bottom row (the lower band is then a single flat span), else
      the lower loop's y2 + 1. */
  function BottomLoopStart(w: Tri): int
  {
    if w.v2.y == w.v3.y then w.v1.y else w.v2.y + 1
  }

  /** A triangle that is not rejected and whose lowest vertex lies on row
      32767 enters a band loop bounded by 32767 (its start needs no wrap and
      lies on or above that row), and that loop's test holds on every turn
      while its counter comes back every 65536 turns: the rasteriser as
      written never returns. */
  lemma TrigonNeverReturns(t: Tri, k: nat)
    requires t.v1.y != t.v3.y && SortedByY(t).v3.y == 32767
    ensures var w := SortedByY(t);
      && (w.v2.y == w.v3.y ==> w.v1.y < w.v2.y)
      && -32768 <= BottomLoopStart(w) <= w.v3.y
      && RowCounter(BottomLoopStart(w) as Sint16, k) <= w.v3.y
      && RowCounter(BottomLoopStart(w) as Sint16, k + 65536) == RowCounter(BottomLoopStart(w) as Sint16, k)
  {
    var w := SortedByY(t);
    SortedByYBounds(t);
    CounterCycles(BottomLoopStart(w) as Sint16, k);
  }

  // ---------------------------------------------------------------------
  // The walk as the source writes it.

  /** The three conditional swaps, on locals. */
  method SortVertices(t: Tri) returns (w: Tri)
    ensures w == SortedByY(t)
  {
    var w1, w2, w3 := t.v1, t.v2, t.v3;
    w1, w2 := OrderPair(w1, w2);
    w2, w3 := OrderPair(w2, w3);
    w1, w2 := OrderPair(w1, w2);
    w := Tri(w1, w2, w3);
  }

  /** The upper band: the accumulators of edge 1-2 (left) and edge 1-3
      (right) start at vertex 1 and step once per row. Returns the spans and
      the edge 1-3 accumulators as the lower band inherits them. */
  method WalkUpper(ks: seq<Kind>, w: Tri) returns (spans: seq<Span>, b: seq<int>)
    requires Walkable(ks, w)
    ensures spans == UpperBand(ks, w)
    ensures b == EdgeAt(ks, w.v1, w.v3, LongEdgeOffset(w))
  {
    if w.v1.y == w.v2.y {
      spans := [FlatSpan(w.v1, w.v2)];
      b := EdgeStart(ks, w.v1);
      return;
    }
    var n := w.v2.y - w.v1.y + 1;
    var a;
    spans, a, b := WalkBand(ks, EdgeStart(ks, w.v1), EdgeStep(ks, w.v1, w.v2),
                            EdgeStart(ks, w.v1), EdgeStep(ks, w.v1, w.v3), w.v1.y, n);
  }

  /** The lower band: edge 1-3 carries on (left), edge 2-3 starts at vertex
      2 (right), one step each per row. */
  method WalkLower(ks: seq<Kind>, w: Tri, b0: seq<int>) returns (spans: seq<Span>)
    requires Walkable(ks, w)
    requires b0 == EdgeAt(ks, w.v1, w.v3, LongEdgeOffset(w))
    ensures spans == LowerBand(ks, w)
  {
    if w.v2.y == w.v3.y {
      return [FlatSpan(w.v2, w.v3)];
    }
    var n := w.v3.y - w.v2.y;
    var b, c;
    spans, b, c := WalkBand(ks, b0, EdgeStep(ks, w.v1, w.v3),
                            EdgeStart(ks, w.v2), EdgeStep(ks, w.v2, w.v3), w.v2.y + 1, n);
  }

  /** The span drawer calls of a triangle, computed as the source does. */
  method WalkTrigon(ks: seq<Kind>, t: Tri) returns (spans: seq<Span>)
    requires Fit(ks, t)
    ensures spans == TrigonCalls(ks, t)
  {
    if t.v1.y == t.v3.y {
      return [];
    }
    var w := SortVertices(t);
    var upper, b := WalkUpper(ks, w);
    var lower := WalkLower(ks, w, b);
    spans := upper + lower;
  }

  /** Rasterise a triangle with a span drawer: walk it, draw its spans, and
      hand the changed rectangle to sge_UpdateRect, through numeric_cast
      when `checked`. */
  method DrawTrigon(dest: Surface, ks: seq<Kind>, m: Mode, t: Tri, checked: bool) returns (update: Update)
    requires dest.Valid() && Fit(ks, t) && |ks| == Arity(m)
    requires m.PreCalc? ==> PaletteTable(m.palettes)
    modifies dest.pixels
    ensures dest.pixels[..] == Paint(dest.target, old(dest.pixels[..]), TrigonCalls(ks, t), m)
    ensures update == Narrowed(TrigonReport(t), checked)
  {
    var spans := WalkTrigon(ks, t);
    DrawSpans(dest, spans, m);
    var dirty := if t.v1.y == t.v3.y then None else Some(TrigonDirty(SortedByY(t)));
    update := Narrowed(dirty, checked);
  }

  // ---------------------------------------------------------------------
  // The entry points.

  /** The filled triangle hands its spans to the horizontal-line primitive,
      which is not part of this model: it returns those calls. */
  method FilledTrigon(x1: Sint16, y1: Sint16, x2: Sint16, y2: Sint16, x3: Sint16, y3: Sint16)
    returns (hlines: seq<Span>, update: Update)
    ensures var t := Tri(Vertex(x1, y1, []), Vertex(x2, y2, []), Vertex(x3, y3, []));
      hlines == TrigonCalls([], t) && update == Narrowed(TrigonReport(t), true)
  {
    var t := Tri(Vertex(x1, y1, []), Vertex(x2, y2, []), Vertex(x3, y3, []));
    hlines := WalkTrigon([], t);
    var dirty := if y1 == y3 then None else Some(TrigonDirty(SortedByY(t)));
    update := Narrowed(dirty, true);
  }

  function Rgb(c: (Uint8, Uint8, Uint8)): seq<int>
  {
    [c.0, c.1, c.2]
  }

  /** Gouraud-shaded triangle. The colours are pixel values of the
      destination, decoded by `getRGB` (SDL's colour lookup). */
  method FadedTrigon(dest: Surface, x1: Sint16, y1: Sint16, x2: Sint16, y2: Sint16, x3: Sint16, y3: Sint16,
                     c1: int, c2: int, c3: int, getRGB: int -> (Uint8, Uint8, Uint8))
    returns (update: Update)
    requires dest.Valid()
    modifies dest.pixels
    ensures var t := Tri(Vertex(x1, y1, Rgb(getRGB(c1))), Vertex(x2, y2, Rgb(getRGB(c2))), Vertex(x3, y3, Rgb(getRGB(c3))));
      dest.pixels[..] == Paint(dest.target, old(dest.pixels[..]), TrigonCalls(ColorKinds, t), Gouraud)
      && update == Narrowed(TrigonReport(t), false)
  {
    var t := Tri(Vertex(x1, y1, Rgb(getRGB(c1))), Vertex(x2, y2, Rgb(getRGB(c2))), Vertex(x3, y3, Rgb(getRGB(c3))));
    update := DrawTrigon(dest, ColorKinds, Gouraud, t, false);
  }

  method TexturedTrigon(dest: Surface, x1: Sint16, y1: Sint16, x2: Sint16, y2: Sint16, x3: Sint16, y3: Sint16,
                        source: Texture, sx1: Sint16, sy1: Sint16, sx2: Sint16, sy2: Sint16, sx3: Sint16, sy3: Sint16)
    returns (update: Update)
    requires dest.Valid()
    modifies dest.pixels
    ensures var t := Tri(Vertex(x1, y1, [sx1, sy1]), Vertex(x2, y2, [sx2, sy2]), Vertex(x3, y3, [sx3, sy3]));
      dest.pixels[..] == Paint(dest.target, old(dest.pixels[..]), TrigonCalls(TextureKinds, t), Textured(source))
      && update == Narrowed(TrigonReport(t), true)
  {
    var t := Tri(Vertex(x1, y1, [sx1, sy1]), Vertex(x2, y2, [sx2, sy2]), Vertex(x3, y3, [sx3, sy3]));
    update := DrawTrigon(dest, TextureKinds, Textured(source), t, true);
  }

  method FadedTexturedTrigon(dest: Surface, x1: Sint16, y1: Sint16, x2: Sint16, y2: Sint16, x3: Sint16, y3: Sint16,
                             source: Texture, sx1: Sint16, sy1: Sint16, sx2: Sint16, sy2: Sint16, sx3: Sint16, sy3: Sint16,
                             i1: int, i2: int, i3: int)
    returns (update: Update)
    requires dest.Valid()
    modifies dest.pixels
    ensures var t := Tri(Vertex(x1, y1, [sx1, sy1, i1]), Vertex(x2, y2, [sx2, sy2, i2]), Vertex(x3, y3, [sx3, sy3, i3]));
      dest.pixels[..] == Paint(dest.target, old(dest.pixels[..]), TrigonCalls(ShadedKinds, t), Shaded(source, NoKey))
      && update == Narrowed(TrigonReport(t), true)
  {
    var t := Tri(Vertex(x1, y1, [sx1, sy1, i1]), Vertex(x2, y2, [sx2, sy2, i2]), Vertex(x3, y3, [sx3, sy3, i3]));
    update := DrawTrigon(dest, ShadedKinds, Shaded(source, NoKey), t, true);
  }

  method FadedTexturedTrigonColorKeys(dest: Surface, x1: Sint16, y1: Sint16, x2: Sint16, y2: Sint16, x3: Sint16, y3: Sint16,
                                      source: Texture, sx1: Sint16, sy1: Sint16, sx2: Sint16, sy2: Sint16, sx3: Sint16, sy3: Sint16,
                                      i1: int, i2: int, i3: int, keys: seq<int>)
    returns (update: Update)
    requires dest.Valid()
    modifies dest.pixels
    ensures var t := Tri(Vertex(x1, y1, [sx1, sy1, i1]), Vertex(x2, y2, [sx2, sy2, i2]), Vertex(x3, y3, [sx3, sy3, i3]));
      dest.pixels[..] == Paint(dest.target, old(dest.pixels[..]), TrigonCalls(ShadedKinds, t), Shaded(source, KeyList(keys)))
      && update == Narrowed(TrigonReport(t), false)
  {
    var t := Tri(Vertex(x1, y1, [sx1, sy1, i1]), Vertex(x2, y2, [sx2, sy2, i2]), Vertex(x3, y3, [sx3, sy3, i3]));
    update := DrawTrigon(dest, ShadedKinds, Shaded(source, KeyList(keys)), t, false);
  }

  method PreCalcFadedTexturedTrigon(dest: Surface, x1: Sint16, y1: Sint16, x2: Sint16, y2: Sint16, x3: Sint16, y3: Sint16,
                                    source: Texture, sx1: Sint16, sy1: Sint16, sx2: Sint16, sy2: Sint16, sx3: Sint16, sy3: Sint16,
                                    i1: Uint16, i2: Uint16, i3: Uint16, palettes: seq<seq<Uint8>>)
    returns (update: Update)
    requires dest.Valid() && PaletteTable(palettes)
    modifies dest.pixels
    ensures var t := Tri(Vertex(x1, y1, [sx1, sy1, i1]), Vertex(x2, y2, [sx2, sy2, i2]), Vertex(x3, y3, [sx3, sy3, i3]));
      dest.pixels[..] == Paint(dest.target, old(dest.pixels[..]), TrigonCalls(PreCalcKinds, t), PreCalc(source, palettes, NoKey))
      && update == Narrowed(TrigonReport(t), true)
  {
    var t := Tri(Vertex(x1, y1, [sx1, sy1, i1]), Vertex(x2, y2, [sx2, sy2, i2]), Vertex(x3, y3, [sx3, sy3, i3]));
    update := DrawTrigon(dest, PreCalcKinds, PreCalc(source, palettes, NoKey), t, true);
  }

  method PreCalcFadedTexturedTrigonColorKeys(dest: Surface, x1: Sint16, y1: Sint16, x2: Sint16, y2: Sint16, x3: Sint16, y3: Sint16,
                                             source: Texture, sx1: Sint16, sy1: Sint16, sx2: Sint16, sy2: Sint16, sx3: Sint16, sy3: Sint16,
                                             i1: Uint16, i2: Uint16, i3: Uint16, palettes: seq<seq<Uint8>>, keys: seq<int>)
    returns (update: Update)
    requires dest.Valid() && PaletteTable(palettes)
    modifies dest.pixels
    ensures var t := Tri(Vertex(x1, y1, [sx1, sy1, i1]), Vertex(x2, y2, [sx2, sy2, i2]), Vertex(x3, y3, [sx3, sy3, i3]));
      dest.pixels[..] == Paint(dest.target, old(dest.pixels[..]), TrigonCalls(PreCalcKinds, t), PreCalc(source, palettes, KeyList(keys)))
      && update == Narrowed(TrigonReport(t), false)
  {
    var t := Tri(Vertex(x1, y1, [sx1, sy1, i1]), Vertex(x2, y2, [sx2, sy2, i2]), Vertex(x3, y3, [sx3, sy3, i3]));
    update := DrawTrigon(dest, PreCalcKinds, PreCalc(source, palettes, KeyList(keys)), t, false);
  }
}
