// The quad rasterisers. Each rejects a quad when, among the vertices as
// given, y1 = y3, y1 = y4 or y2 = y4; sorts the four vertices by y with six
// conditional swaps; and walks three bands: rows y1 .. y2 between the edges
// 1-2 and 1-3, rows y2+1 .. y3 between the edges 1-3 and 2-4, and rows
// y3+1 .. y4 between the edges 2-4 and 3-4. A flat upper or lower band is
// drawn as the single span between its two vertices.
//
// Texture coordinates travel down the edges with their x. The intensity of
// the shaded variants has accumulators of its own, set up as the source
// sets them up: along each band they step as the opposite edge does (see
// Mix), and edge 2-4's intensity step starts from vertex 1 (see Step24).
module Rects {
  import opened FixedPoint
  import opened Surfaces
  import opened Scanline
  import opened Edges
  import opened Trigons

  datatype Quad = Quad(v1: Vertex, v2: Vertex, v3: Vertex, v4: Vertex)

  predicate SortedQuad(q: Quad)
  {
    q.v1.y <= q.v2.y <= q.v3.y <= q.v4.y
  }

  /** The six conditional swaps of the source: (1,2), (2,3), (1,2) sort the
      first three vertices as the triangle rasterisers do, then (3,4),
      (2,3), (1,2) move the fourth up to its place. Each swap moves a whole
      vertex. */
  function SortQuad(q: Quad): (r: Quad)
    ensures SortedQuad(r)
  {
    var t := SortedByY(Tri(q.v1, q.v2, q.v3));
    InsertLast(t, q.v4)
  }

  /** Sorting is a permutation of the vertices. */
  lemma SortQuadPermutes(q: Quad)
    ensures var r := SortQuad(q);
      multiset{r.v1, r.v2, r.v3, r.v4} == multiset{q.v1, q.v2, q.v3, q.v4}
  {
    var t := SortedByY(Tri(q.v1, q.v2, q.v3));
    SortedByYPermutes(Tri(q.v1, q.v2, q.v3));
    InsertKeepsVertices(t, q.v4, InsertLast(t, q.v4));
  }

  /** Putting v in any of the four places keeps the same vertices. */
  lemma InsertKeepsVertices(t: Tri, v: Vertex, r: Quad)
    requires || r == Quad(t.v1, t.v2, t.v3, v) || r == Quad(t.v1, t.v2, v, t.v3)
             || r == Quad(t.v1, v, t.v2, t.v3) || r == Quad(v, t.v1, t.v2, t.v3)
    ensures multiset{r.v1, r.v2, r.v3, r.v4} == multiset{t.v1, t.v2, t.v3, v}
  {
  }

  /** Bubble v up past the sorted vertices below it: v lands in one of the
      four places and the others keep their order. */
  function InsertLast(t: Tri, v: Vertex): (r: Quad)
    requires SortedTri(t)
    ensures SortedQuad(r)
    ensures || r == Quad(t.v1, t.v2, t.v3, v) || r == Quad(t.v1, t.v2, v, t.v3)
            || r == Quad(t.v1, v, t.v2, t.v3) || r == Quad(v, t.v1, t.v2, t.v3)
  {
    var d := SwapIfBelow(t.v3, v);
    var e := SwapIfBelow(t.v2, d.0);
    var f := SwapIfBelow(t.v1, e.0);
    Quad(f.0, f.1, e.1, d.1)
  }

  /** The rejection test, on the vertices as given. */
  predicate Rejected(q: Quad)
  {
    q.v1.y == q.v3.y || q.v1.y == q.v4.y || q.v4.y == q.v2.y
  }

  /** A sorted quad whose two long edges, 1-3 and 2-4, both descend. */
  predicate Walkable(q: Quad)
  {
    SortedQuad(q) && q.v1.y < q.v3.y && q.v2.y < q.v4.y
  }

  /** The test rules out every quad whose long edges would be flat: three
      vertices on one row always include one of the three pairs tested, so
      neither divisor y3 - y1 nor y4 - y2 of the sorted quad is zero. */
  lemma AcceptedIsWalkable(q: Quad)
    requires !Rejected(q)
    ensures Walkable(SortQuad(q))
  {
    var t := SortedByY(Tri(q.v1, q.v2, q.v3));
    var w := InsertLast(t, q.v4);
    assert w == SortQuad(q);
    ReordersRows(t, Tri(q.v1, q.v2, q.v3));
    assert InsertedRows(w.v1.y, w.v2.y, w.v3.y, w.v4.y, t.v1.y, t.v2.y, t.v3.y, q.v4.y);
    ThreeOnARowRejected(q.v1.y, q.v2.y, q.v3.y, q.v4.y, t.v1.y, t.v2.y, t.v3.y, w.v1.y, w.v2.y, w.v3.y, w.v4.y);
  }

  /** (s1, s2, s3) is (y1, y2, y3) in some order. */
  predicate ReorderedRows(s1: int, s2: int, s3: int, y1: int, y2: int, y3: int)
  {
    || (s1, s2, s3) == (y1, y2, y3) || (s1, s2, s3) == (y1, y3, y2)
    || (s1, s2, s3) == (y2, y1, y3) || (s1, s2, s3) == (y2, y3, y1)
    || (s1, s2, s3) == (y3, y1, y2) || (s1, s2, s3) == (y3, y2, y1)
  }

  /** (p1, p2, p3, p4) is (s1, s2, s3) with y inserted in one of four places. */
  predicate InsertedRows(p1: int, p2: int, p3: int, p4: int, s1: int, s2: int, s3: int, y: int)
  {
    || (p1, p2, p3, p4) == (s1, s2, s3, y) || (p1, p2, p3, p4) == (s1, s2, y, s3)
    || (p1, p2, p3, p4) == (s1, y, s2, s3) || (p1, p2, p3, p4) == (y, s1, s2, s3)
  }

  lemma ReordersRows(r: Tri, t: Tri)
    requires Reorders(r, t)
    ensures ReorderedRows(r.v1.y, r.v2.y, r.v3.y, t.v1.y, t.v2.y, t.v3.y)
  {
  }

  /** The rows of the sorted vertices: three equal rows among y1..y4 always
      include one of the pairs the rejection test compares. */
  lemma ThreeOnARowRejected(y1: int, y2: int, y3: int, y4: int, s1: int, s2: int, s3: int,
                            p1: int, p2: int, p3: int, p4: int)
    requires ReorderedRows(s1, s2, s3, y1, y2, y3) && s1 <= s2 <= s3
    requires InsertedRows(p1, p2, p3, p4, s1, s2, s3, y4) && p1 <= p2 <= p3 <= p4
    requires !(y1 == y3 || y1 == y4 || y4 == y2)
    ensures p1 < p3 && p2 < p4
  {
  }

  // ---------------------------------------------------------------------
  // Vertex attributes: two texture coordinates, then, for the shaded
  // variants, one intensity whose kind is the single element of `ik`. Every
  // edge carries the accumulators x, sx, sy and, when shaded, i.

  predicate IntensityKinds(ik: seq<Kind>)
  {
    ik == [] || ik == [Wide] || ik == [Narrow]
  }

  /** The kinds of the attributes a quad's edges carry. */
  function RectKinds(ik: seq<Kind>): (r: seq<Kind>)
    ensures |r| == 2 + |ik|
  {
    TextureKinds + ik
  }

  predicate QFit(ik: seq<Kind>, q: Quad)
  {
    IntensityKinds(ik)
    && |q.v1.attrs| == 2 + |ik| && |q.v2.attrs| == 2 + |ik|
    && |q.v3.attrs| == 2 + |ik| && |q.v4.attrs| == 2 + |ik|
  }

  /** Accumulators whose x and texture coordinates come from s and whose
      intensity comes from t: the upper and lower bands pair the intensity
      of one edge with the position of the other. */
  function Mix(s: seq<int>, t: seq<int>): (r: seq<int>)
    requires 3 <= |s| == |t|
    ensures |r| == |s|
  {
    s[..3] + t[3..]
  }

  /** Vertex v carrying the intensity of vertex u. */
  function WithI(v: Vertex, u: Vertex): (r: Vertex)
    requires 2 <= |v.attrs| && 2 <= |u.attrs|
    ensures r.x == v.x && r.y == v.y
  {
    Vertex(v.x, v.y, v.attrs[..2] + u.attrs[2..])
  }

  /** The intensity handed to the span drawer from accumulators acc. */
  function HandOver(ik: seq<Kind>, acc: seq<int>): (r: seq<int>)
    requires IntensityKinds(ik) && |acc| == 3 + |ik|
    ensures |r| == |ik|
  {
    if ik == [] then [] else [KindOut(ik[0], acc[3])]
  }

  /** The step of edge 2-4. Its intensity step is computed from i2, which
      still holds vertex 1's intensity when the steps are set up, so it runs
      from j1 (not j2) to j4 over y4 - y2 rows, although i4 starts at j2. */
  function Step24(ik: seq<Kind>, w: Quad): (r: seq<int>)
    requires QFit(ik, w) && Walkable(w)
    ensures |r| == 3 + |ik|
  {
    EdgeStep(RectKinds(ik), WithI(w.v2, w.v1), w.v4)
  }

  /** The accumulators of edge 2-4 after k rows. */
  function Edge24At(ik: seq<Kind>, w: Quad, k: int): (r: seq<int>)
    requires QFit(ik, w) && Walkable(w)
    ensures |r| == 3 + |ik|
  {
    Advance(EdgeStart(RectKinds(ik), w.v2), Step24(ik, w), k)
  }

  // ---------------------------------------------------------------------
  // The three bands.

  /** How many rows edge 1-3 has been stepped when the middle band starts. */
  function LongEdgeOffset(w: Quad): int
  {
    if w.v1.y == w.v2.y then 0 else w.v2.y - w.v1.y + 1
  }

  /** Rows y1 .. y2. The left accumulators take x and the texture
      coordinates from edge 1-2 and the intensity from edge 1-3; the right
      ones the reverse. A flat upper band hands over i1 and i2, which both
      still hold j1. */
  function UpperBand(ik: seq<Kind>, w: Quad): (r: seq<Span>)
    requires QFit(ik, w) && Walkable(w)
    ensures |r| == if w.v1.y == w.v2.y then 1 else w.v2.y - w.v1.y + 1
    ensures CarryAttrs(2 + |ik|, r)
  {
    if w.v1.y == w.v2.y then [FlatSpan(w.v1, WithI(w.v2, w.v1))]
    else
      var rk := RectKinds(ik);
      var start, s12, s13 := EdgeStart(rk, w.v1), EdgeStep(rk, w.v1, w.v2), EdgeStep(rk, w.v1, w.v3);
      BandRows(rk, start, Mix(s12, s13), start, Mix(s13, s12), w.v1.y, w.v2.y - w.v1.y + 1)
  }

  /** Rows y2+1 .. y3 (none when y2 = y3): edge 1-3 carries on from the
      upper band (left), edge 2-4 starts at vertex 2 (right). */
  function MiddleBand(ik: seq<Kind>, w: Quad): (r: seq<Span>)
    requires QFit(ik, w) && Walkable(w)
    ensures |r| == w.v3.y - w.v2.y
    ensures CarryAttrs(2 + |ik|, r)
  {
    var rk := RectKinds(ik);
    BandRows(rk, EdgeAt(rk, w.v1, w.v3, LongEdgeOffset(w)), EdgeStep(rk, w.v1, w.v3),
             EdgeStart(rk, w.v2), Step24(ik, w), w.v2.y + 1, w.v3.y - w.v2.y)
  }

  /** Rows y3+1 .. y4. The left accumulators take x and the texture
      coordinates from edge 2-4, carried on from the middle band, and the
      intensity from edge 3-4; the right ones the reverse. A flat lower band
      hands over j3 and i4 as the middle band left it. */
  function LowerBand(ik: seq<Kind>, w: Quad): (r: seq<Span>)
    requires QFit(ik, w) && Walkable(w)
    ensures |r| == if w.v3.y == w.v4.y then 1 else w.v4.y - w.v3.y
    ensures CarryAttrs(2 + |ik|, r)
  {
    var c0 := Edge24At(ik, w, w.v3.y - w.v2.y);
    if w.v3.y == w.v4.y then
      [Span(w.v3.x, w.v4.x, w.v3.y, w.v3.attrs, w.v4.attrs[..2] + HandOver(ik, c0))]
    else
      var rk := RectKinds(ik);
      var start3, s24, s34 := EdgeStart(rk, w.v3), Step24(ik, w), EdgeStep(rk, w.v3, w.v4);
      BandRows(rk, Mix(c0, start3), Mix(s24, s34), Mix(start3, c0), Mix(s34, s24), w.v3.y + 1, w.v4.y - w.v3.y)
  }

  /** Row y1 + j of a sloped upper band: the left end has x and texture
      coordinates from edge 1-2 and i1 from edge 1-3, each stepped j times;
      the right end the reverse. */
  lemma UpperRow(ik: seq<Kind>, w: Quad, j: int)
    requires QFit(ik, w) && Walkable(w) && w.v1.y < w.v2.y && 0 <= j <= w.v2.y - w.v1.y
    ensures var rk := RectKinds(ik);
      var e12, e13 := EdgeAt(rk, w.v1, w.v2, j), EdgeAt(rk, w.v1, w.v3, j);
      UpperBand(ik, w)[j] == RowSpan(rk, Mix(e12, e13), Mix(e13, e12), (w.v1.y + j) as Sint16)
  {
    var rk := RectKinds(ik);
    var start, s12, s13 := EdgeStart(rk, w.v1), EdgeStep(rk, w.v1, w.v2), EdgeStep(rk, w.v1, w.v3);
    var y0, n := w.v1.y, w.v2.y - w.v1.y + 1;
    var l, r := Advance(start, Mix(s12, s13), j), Advance(start, Mix(s13, s12), j);
    BandRowAt(rk, start, Mix(s12, s13), start, Mix(s13, s12), y0, n, j);
    assert UpperBand(ik, w)[j] == RowSpan(rk, l, r, (y0 + j) as Sint16);
    UpperAccumulators(ik, w, j);
  }

  /** Row y2 + 1 + j: edge 1-3 stepped on from the upper band, and edge 2-4
      stepped j times. */
  lemma MiddleRow(ik: seq<Kind>, w: Quad, j: int)
    requires QFit(ik, w) && Walkable(w) && 0 <= j < w.v3.y - w.v2.y
    ensures var rk := RectKinds(ik);
      MiddleBand(ik, w)[j] == RowSpan(rk, EdgeAt(rk, w.v1, w.v3, LongEdgeOffset(w) + j), Edge24At(ik, w, j), (w.v2.y + 1 + j) as Sint16)
  {
    var rk := RectKinds(ik);
    var off, y0, n := LongEdgeOffset(w), w.v2.y + 1, w.v3.y - w.v2.y;
    var c0, cs := EdgeStart(rk, w.v2), Step24(ik, w);
    assert MiddleBand(ik, w) == BandRows(rk, EdgeAt(rk, w.v1, w.v3, off), EdgeStep(rk, w.v1, w.v3), c0, cs, y0, n);
    CarriedEdgeRow(rk, w.v1, w.v3, off, c0, cs, y0, n, j);
  }

  /** Row y3 + 1 + j of a sloped lower band: the left end has x and texture
      coordinates from edge 2-4 and i3 from edge 3-4; the right end the
      reverse. */
  lemma LowerRow(ik: seq<Kind>, w: Quad, j: int)
    requires QFit(ik, w) && Walkable(w) && w.v3.y < w.v4.y && 0 <= j < w.v4.y - w.v3.y
    ensures var rk := RectKinds(ik);
      var e24, e34 := Edge24At(ik, w, w.v3.y - w.v2.y + j), EdgeAt(rk, w.v3, w.v4, j);
      LowerBand(ik, w)[j] == RowSpan(rk, Mix(e24, e34), Mix(e34, e24), (w.v3.y + 1 + j) as Sint16)
  {
    var rk := RectKinds(ik);
    var c0, start3 := Edge24At(ik, w, w.v3.y - w.v2.y), EdgeStart(rk, w.v3);
    var s24, s34 := Step24(ik, w), EdgeStep(rk, w.v3, w.v4);
    var y0, n := w.v3.y + 1, w.v4.y - w.v3.y;
    var l, r := Advance(Mix(c0, start3), Mix(s24, s34), j), Advance(Mix(start3, c0), Mix(s34, s24), j);
    BandRowAt(rk, Mix(c0, start3), Mix(s24, s34), Mix(start3, c0), Mix(s34, s24), y0, n, j);
    assert LowerBand(ik, w)[j] == RowSpan(rk, l, r, (y0 + j) as Sint16);
    LowerAccumulators(ik, w, j);
  }

  /** The span drawer calls of a quad, in order: none exactly when the
      rejection test holds. */
  function RectCalls(ik: seq<Kind>, q: Quad): (r: seq<Span>)
    requires QFit(ik, q)
    ensures r == [] <==> Rejected(q)
    ensures CarryAttrs(2 + |ik|, r)
  {
    if Rejected(q) then []
    else
      AcceptedIsWalkable(q);
      var w := SortQuad(q);
      SortKeepsFit(ik, q);
      CarryAttrsConcat(2 + |ik|, UpperBand(ik, w), MiddleBand(ik, w));
      CarryAttrsConcat(2 + |ik|, UpperBand(ik, w) + MiddleBand(ik, w), LowerBand(ik, w));
      UpperBand(ik, w) + MiddleBand(ik, w) + LowerBand(ik, w)
  }

  lemma SortKeepsFit(ik: seq<Kind>, q: Quad)
    requires QFit(ik, q)
    ensures QFit(ik, SortQuad(q))
  {
    SortKeepsWidth(2 + |ik|, q);
  }

  /** Sorting keeps every vertex's attributes, so a common attribute count
      survives it. */
  lemma SortKeepsWidth(n: int, q: Quad)
    requires |q.v1.attrs| == n && |q.v2.attrs| == n && |q.v3.attrs| == n && |q.v4.attrs| == n
    ensures var w := SortQuad(q);
      |w.v1.attrs| == n && |w.v2.attrs| == n && |w.v3.attrs| == n && |w.v4.attrs| == n
  {
    // The sorts' contracts say each result vertex is one of the inputs.
    hide SortedByY, InsertLast;
    var t := SortedByY(Tri(q.v1, q.v2, q.v3));
    assert |t.v1.attrs| == n && |t.v2.attrs| == n && |t.v3.attrs| == n;
    assert InsertLast(t, q.v4) == SortQuad(q);
  }

  /** The rectangle reported as changed, on the sorted vertices. */
  function RectDirty(w: Quad): Rect
  {
    Rect(XMin(w), w.v1.y, XMax(w) - XMin(w) + 1, w.v4.y - w.v1.y + 1)
  }

  function XMin(q: Quad): int { Min(Min(Min(q.v1.x, q.v2.x), q.v3.x), q.v4.x) }

  function XMax(q: Quad): int { Max(Max(Max(q.v1.x, q.v2.x), q.v3.x), q.v4.x) }

  function YMin(q: Quad): int { Min(Min(Min(q.v1.y, q.v2.y), q.v3.y), q.v4.y) }

  function YMax(q: Quad): int { Max(Max(Max(q.v1.y, q.v2.y), q.v3.y), q.v4.y) }

  /** The sorted quad has the same extent as the quad as given, with its
      top and bottom rows on its first and last vertex. */
  lemma SortQuadBounds(q: Quad)
    ensures var w := SortQuad(q);
      XMin(w) == XMin(q) && XMax(w) == XMax(q) && w.v1.y == YMin(q) && w.v4.y == YMax(q)
  {
    var t := SortedByY(Tri(q.v1, q.v2, q.v3));
    SortedByYBounds(Tri(q.v1, q.v2, q.v3));
    InsertBounds(t, q.v4);
    assert InsertLast(t, q.v4) == SortQuad(q);
  }

  lemma InsertBounds(t: Tri, v: Vertex)
    requires SortedTri(t)
    ensures var r := InsertLast(t, v);
      && XMin(r) == Min(Min(Min(t.v1.x, t.v2.x), t.v3.x), v.x)
      && XMax(r) == Max(Max(Max(t.v1.x, t.v2.x), t.v3.x), v.x)
      && r.v1.y == Min(t.v1.y, v.y) && r.v4.y == Max(t.v3.y, v.y)
  {
  }

  function RectReport(q: Quad): Option<Rect>
  {
    if Rejected(q) then None else Some(RectDirty(SortQuad(q)))
  }

  // ---------------------------------------------------------------------
  // What the walk promises.

  /** The row of each span of the three bands. */
  lemma RectBandRowNumbers(ik: seq<Kind>, w: Quad)
    requires QFit(ik, w) && Walkable(w)
    ensures var u := UpperBand(ik, w);
      forall i | 0 <= i < |u| :: u[i].y == w.v1.y + i
    ensures var m := MiddleBand(ik, w);
      forall i | 0 <= i < |m| :: m[i].y == w.v2.y + 1 + i
    ensures var l := LowerBand(ik, w);
      forall i | 0 <= i < |l| :: l[i].y == if w.v3.y == w.v4.y then w.v3.y else w.v3.y + 1 + i
  {
  }

  /** The span drawer is called for every row from the top vertex to the
      bottom vertex and for no other row. */
  lemma RectRowsExact(ik: seq<Kind>, q: Quad, y: int)
    requires QFit(ik, q) && !Rejected(q)
    ensures var w, spans := SortQuad(q), RectCalls(ik, q);
      (exists i | 0 <= i < |spans| :: spans[i].y == y) <==> w.v1.y <= y <= w.v4.y
  {
    AcceptedIsWalkable(q);
    SortKeepsFit(ik, q);
    var w := SortQuad(q);
    var u, m, l := UpperBand(ik, w), MiddleBand(ik, w), LowerBand(ik, w);
    assert RectCalls(ik, q) == u + m + l;
    RectBandRowNumbers(ik, w);
    BandsCoverRows(u, m, l, w.v1.y, w.v2.y, w.v3.y, w.v4.y, y);
  }

  /** Three bands numbered y1 .. y2, y2 + 1 .. y3 and y3 + 1 .. y4 (or the
      single row y3 when y3 = y4) cover rows y1 .. y4 and no other. */
  lemma BandsCoverRows(u: seq<Span>, m: seq<Span>, l: seq<Span>, y1: int, y2: int, y3: int, y4: int, y: int)
    requires y1 <= y2 <= y3 <= y4
    requires |u| == y2 - y1 + 1 && forall i | 0 <= i < |u| :: u[i].y == y1 + i
    requires |m| == y3 - y2 && forall i | 0 <= i < |m| :: m[i].y == y2 + 1 + i
    requires |l| == (if y3 == y4 then 1 else y4 - y3)
    requires forall i | 0 <= i < |l| :: l[i].y == if y3 == y4 then y3 else y3 + 1 + i
    ensures (exists i | 0 <= i < |u + m + l| :: (u + m + l)[i].y == y) <==> y1 <= y <= y4
  {
    RowsOfConcat(u, m, y1, y4);
    RowsOfConcat(u + m, l, y1, y4);
    if y1 <= y <= y4 {
      if y <= y2 {
        ConcatLeft(u, m, y - y1);
        ConcatLeft(u + m, l, y - y1);
      } else if y <= y3 {
        ConcatRight(u, m, y - y2 - 1);
        ConcatLeft(u + m, l, |u| + y - y2 - 1);
      } else {
        ConcatRight(u + m, l, y - y3 - 1);
      }
    }
  }

  /** The x that edge 2-4 hands over stays between x2 and x4. */
  lemma Edge24XBetween(ik: seq<Kind>, w: Quad, k: int)
    requires QFit(ik, w) && Walkable(w) && 0 <= k <= w.v4.y - w.v2.y
    ensures Min(w.v2.x, w.v4.x) <= ToS16(Shr16(Edge24At(ik, w, k)[0])) <= Max(w.v2.x, w.v4.x)
  {
    XBetween(EdgeStart(RectKinds(ik), w.v2), Step24(ik, w), w.v2, w.v4, k);
  }

  lemma UpperRowInDirty(ik: seq<Kind>, w: Quad, j: int)
    requires QFit(ik, w) && Walkable(w) && w.v1.y < w.v2.y && 0 <= j <= w.v2.y - w.v1.y
    ensures SpanInRect(UpperBand(ik, w)[j], RectDirty(w))
  {
    var rk := RectKinds(ik);
    UpperRow(ik, w, j);
    EdgeXBetween(rk, w.v1, w.v2, j);
    EdgeXBetween(rk, w.v1, w.v3, j);
  }

  lemma MiddleRowInDirty(ik: seq<Kind>, w: Quad, j: int)
    requires QFit(ik, w) && Walkable(w) && 0 <= j < w.v3.y - w.v2.y
    ensures SpanInRect(MiddleBand(ik, w)[j], RectDirty(w))
  {
    var rk := RectKinds(ik);
    MiddleRow(ik, w, j);
    EdgeXBetween(rk, w.v1, w.v3, LongEdgeOffset(w) + j);
    Edge24XBetween(ik, w, j);
  }

  lemma LowerRowInDirty(ik: seq<Kind>, w: Quad, j: int)
    requires QFit(ik, w) && Walkable(w) && w.v3.y < w.v4.y && 0 <= j < w.v4.y - w.v3.y
    ensures SpanInRect(LowerBand(ik, w)[j], RectDirty(w))
  {
    var rk := RectKinds(ik);
    LowerRow(ik, w, j);
    Edge24XBetween(ik, w, w.v3.y - w.v2.y + j);
    EdgeXBetween(rk, w.v3, w.v4, j);
  }

  /** Both ends of every span of the three bands lie within the vertices'
      x range, and each span's row within their y range. */
  lemma RectBandsInDirty(ik: seq<Kind>, w: Quad)
    requires QFit(ik, w) && Walkable(w)
    ensures var u := UpperBand(ik, w);
      forall i | 0 <= i < |u| :: SpanInRect(u[i], RectDirty(w))
    ensures var m := MiddleBand(ik, w);
      forall i | 0 <= i < |m| :: SpanInRect(m[i], RectDirty(w))
    ensures var l := LowerBand(ik, w);
      forall i | 0 <= i < |l| :: SpanInRect(l[i], RectDirty(w))
  {
    if w.v1.y < w.v2.y {
      forall i | 0 <= i <= w.v2.y - w.v1.y
        ensures SpanInRect(UpperBand(ik, w)[i], RectDirty(w))
      {
        UpperRowInDirty(ik, w, i);
      }
    }
    forall i | 0 <= i < w.v3.y - w.v2.y
      ensures SpanInRect(MiddleBand(ik, w)[i], RectDirty(w))
    {
      MiddleRowInDirty(ik, w, i);
    }
    if w.v3.y < w.v4.y {
      forall i | 0 <= i < w.v4.y - w.v3.y
        ensures SpanInRect(LowerBand(ik, w)[i], RectDirty(w))
      {
        LowerRowInDirty(ik, w, i);
      }
    }
  }

  /** Every span lies inside the rectangle the rasteriser reports. */
  lemma RectSpansInDirty(ik: seq<Kind>, q: Quad)
    requires QFit(ik, q) && !Rejected(q)
    ensures var spans := RectCalls(ik, q);
      forall i | 0 <= i < |spans| :: SpanInRect(spans[i], RectDirty(SortQuad(q)))
  {
    AcceptedIsWalkable(q);
    SortKeepsFit(ik, q);
    var w := SortQuad(q);
    var u, m, l := UpperBand(ik, w), MiddleBand(ik, w), LowerBand(ik, w);
    RectBandsInDirty(ik, w);
    assert RectCalls(ik, q) == u + m + l;
    BandsInRect(u, m, l, RectDirty(w));
  }

  /** Three bands inside a rectangle make a run of spans inside it. */
  lemma BandsInRect(u: seq<Span>, m: seq<Span>, l: seq<Span>, r: Rect)
    requires forall i | 0 <= i < |u| :: SpanInRect(u[i], r)
    requires forall i | 0 <= i < |m| :: SpanInRect(m[i], r)
    requires forall i | 0 <= i < |l| :: SpanInRect(l[i], r)
    ensures forall i | 0 <= i < |u + m + l| :: SpanInRect((u + m + l)[i], r)
  {
    var spans := u + m + l;
    forall i | 0 <= i < |spans|
      ensures SpanInRect(spans[i], r)
    {
      if i < |u| {
        assert spans[i] == u[i];
      } else if i < |u| + |m| {
        assert spans[i] == m[i - |u|];
      } else {
        assert spans[i] == l[i - |u| - |m|];
      }
    }
  }

  /** Drawing a quad changes no pixel outside the rectangle it reports or
      outside the clip rectangle, and a rejected quad changes none. */
  lemma RectStaysInDirty(tg: Target, s: seq<int>, ik: seq<Kind>, m: Mode, q: Quad, x: int, y: int)
    requires tg.Valid() && |s| == tg.pitch * tg.height
    requires QFit(ik, q) && 2 + |ik| == Arity(m) && (m.PreCalc? ==> PaletteTable(m.palettes))
    requires 0 <= x < tg.pitch && 0 <= y < tg.height
    ensures 0 <= y * tg.pitch + x < |s|
    ensures RectPaint(tg, s, ik, m, q)[y * tg.pitch + x] != s[y * tg.pitch + x] ==>
              RectReport(q).Some? && InRect(RectReport(q).value, x, y)
              && tg.clip.xmin <= x <= tg.clip.xmax && tg.clip.ymin <= y <= tg.clip.ymax
  {
    RowMajor(tg.pitch, tg.height, x, y);
    if !Rejected(q) {
      RectSpansInDirty(ik, q);
      PaintStaysInRect(tg, s, RectCalls(ik, q), m, RectDirty(SortQuad(q)), x, y);
    }
  }

  /** Edge 2-4's intensity starts at j2 but steps by (j4 - j1) / (y4 - y2):
      the step is computed from i2 while it still holds j1. */
  lemma Edge24Intensity(ik: seq<Kind>, w: Quad, k: int)
    requires QFit(ik, w) && Walkable(w) && ik != [] && 0 <= k
    ensures Edge24At(ik, w, k)[3]
         == KindStart(ik[0], w.v2.attrs[2]) + k * KindStep(ik[0], w.v1.attrs[2], w.v4.attrs[2], w.v4.y - w.v2.y)
  {
    AdvanceAt(EdgeStart(RectKinds(ik), w.v2), Step24(ik, w), k, 3);
  }

  /** So the lower band can hand the span drawer an intensity outside the
      range of the vertices': with I1 = 0 and I2 = 100 on rows 0 .. 3, the
      last row's right end gets 150. */
  lemma LowerIntensityLeavesRange()
    ensures var q := Quad(Vertex(0, 0, [0, 0, 0]), Vertex(0, 1, [0, 0, 100]),
                          Vertex(0, 2, [0, 0, 0]), Vertex(0, 3, [0, 0, 100]));
      var spans := RectCalls([Wide], q);
      |spans| == 4 && spans[3].y == 3 && spans[3].a2[2] == 150
  {
    var q := Quad(Vertex(0, 0, [0, 0, 0]), Vertex(0, 1, [0, 0, 100]),
                  Vertex(0, 2, [0, 0, 0]), Vertex(0, 3, [0, 0, 100]));
    assert SortQuad(q) == q;
    var u, m, l := UpperBand([Wide], q), MiddleBand([Wide], q), LowerBand([Wide], q);
    assert RectCalls([Wide], q) == u + m + l;
    LowerRow([Wide], q, 0);
    Edge24Intensity([Wide], q, 1);
    assert (u + m + l)[3] == l[0];
  }

  /** The reported rectangle is at least one column wide and two rows high.
      Its width reaches 65536, which no Uint16 holds, exactly when the
      vertices span every Sint16 column, and its height exactly when they
      span every Sint16 row. */
  lemma RectReportSize(q: Quad)
    requires !Rejected(q)
    ensures var r := RectReport(q).value;
      && 1 <= r.w <= 65536 && 2 <= r.h <= 65536
      && (r.w == 65536 <==> XMin(q) == -32768 && XMax(q) == 32767)
      && (r.h == 65536 <==> YMin(q) == -32768 && YMax(q) == 32767)
  {
    SortQuadBounds(q);
    AcceptedIsWalkable(q);
  }

  /** A quad across every column: its width reaches sge_UpdateRect as 0. */
  lemma WideRectUpdate()
    ensures var q := Quad(Vertex(-32768, 0, []), Vertex(32767, 1, []), Vertex(0, 2, []), Vertex(0, 3, []));
      && RectReport(q) == Some(Rect(-32768, 0, 65536, 4))
      && Narrowed(RectReport(q), false) == UpdateRect(-32768, 0, 0, 4)
  {
  }

  // ---------------------------------------------------------------------
  // The band loops as written count rows in a Sint16 y, so a loop whose
  // last row is 32767 never ends (see FixedPoint.RowCounter). The walk
  // below counts with an unbounded integer and draws each row once.

  /** The middle loop starts at y2 + 1 with no wrap: an accepted quad has
      its second row above its fourth. */
  lemma MiddleStartFits(q: Quad)
    requires !Rejected(q)
    ensures SortQuad(q).v2.y + 1 <= SortQuad(q).v4.y
  {
  }

  /** For a sorted quad whose bottom row is 32767, the row the loop bounded
      by that row starts on: the middle loop's y2 + 1 when vertex 3 lies on
      the bottom row (the lower band is then a single flat span), else the
      lower loop's y3 + 1. */
  function BottomLoopStart(w: Quad): int
  {
    if w.v3.y == w.v4.y then w.v2.y + 1 else w.v3.y + 1
  }

  /** A quad that is not rejected and whose lowest vertex lies on row 32767
      enters a band loop bounded by 32767 (its start needs no wrap and lies
      on or above that row), and that loop's test holds on every turn while
      its counter comes back every 65536 turns: the rasteriser as written
      never returns. */
  lemma RectNeverReturns(q: Quad, k: nat)
    requires !Rejected(q) && SortQuad(q).v4.y == 32767
    ensures var w := SortQuad(q);
      && -32768 <= BottomLoopStart(w) <= w.v4.y
      && RowCounter(BottomLoopStart(w) as Sint16, k) <= w.v4.y
      && RowCounter(BottomLoopStart(w) as Sint16, k + 65536) == RowCounter(BottomLoopStart(w) as Sint16, k)
  {
    var w := SortQuad(q);
    AcceptedIsWalkable(q);
    CounterCycles(BottomLoopStart(w) as Sint16, k);
  }

  // ---------------------------------------------------------------------
  // The walk as the source writes it.

  /** The six conditional swaps, on locals: the first three as the
      triangle rasterisers do them, then the fourth vertex moved up. */
  method SortQuadVertices(q: Quad) returns (w: Quad)
    ensures w == SortQuad(q)
  {
    var t := SortVertices(Tri(q.v1, q.v2, q.v3));
    var w1, w2, w3, w4 := t.v1, t.v2, t.v3, q.v4;
    w3, w4 := OrderPair(w3, w4);
    w2, w3 := OrderPair(w2, w3);
    w1, w2 := OrderPair(w1, w2);
    w := Quad(w1, w2, w3, w4);
  }

  /** The upper band: the left accumulators step as edge 1-2 does in x and
      the texture coordinates and as edge 1-3 does in the intensity; the
      right ones the reverse. Returns the spans and the edge 1-3
      accumulators as the middle band inherits them. */
  method WalkUpper(ik: seq<Kind>, w: Quad) returns (spans: seq<Span>, b: seq<int>)
    requires QFit(ik, w) && Walkable(w)
    ensures spans == UpperBand(ik, w)
    ensures b == EdgeAt(RectKinds(ik), w.v1, w.v3, LongEdgeOffset(w))
  {
    var rk := RectKinds(ik);
    var start := EdgeStart(rk, w.v1);
    if w.v1.y == w.v2.y {
      spans := [FlatSpan(w.v1, WithI(w.v2, w.v1))];
      b := start;
      return;
    }
    var n := w.v2.y - w.v1.y + 1;
    var s12, s13 := EdgeStep(rk, w.v1, w.v2), EdgeStep(rk, w.v1, w.v3);
    var l, r;
    spans, l, r := WalkBand(rk, start, Mix(s12, s13), start, Mix(s13, s12), w.v1.y, n);
    UpperAccumulators(ik, w, n);
    b := Mix(r, l);
    MixMix(EdgeAt(rk, w.v1, w.v3, n), EdgeAt(rk, w.v1, w.v2, n));
  }

  /** The accumulators of the upper band after j rows are the two edges'
      accumulators, mixed. */
  lemma UpperAccumulators(ik: seq<Kind>, w: Quad, j: int)
    requires QFit(ik, w) && Walkable(w) && w.v1.y < w.v2.y && 0 <= j
    ensures var rk := RectKinds(ik);
      var s12, s13 := EdgeStep(rk, w.v1, w.v2), EdgeStep(rk, w.v1, w.v3);
      && Advance(EdgeStart(rk, w.v1), Mix(s12, s13), j) == Mix(EdgeAt(rk, w.v1, w.v2, j), EdgeAt(rk, w.v1, w.v3, j))
      && Advance(EdgeStart(rk, w.v1), Mix(s13, s12), j) == Mix(EdgeAt(rk, w.v1, w.v3, j), EdgeAt(rk, w.v1, w.v2, j))
  {
    var rk := RectKinds(ik);
    var start := EdgeStart(rk, w.v1);
    var s12, s13 := EdgeStep(rk, w.v1, w.v2), EdgeStep(rk, w.v1, w.v3);
    MixSame(start);
    MixAdvance(start, start, s12, s13, j);
    MixAdvance(start, start, s13, s12, j);
  }

  /** The middle band: edge 1-3 carries on (left), edge 2-4 starts at
      vertex 2 (right). Returns the spans and the edge 2-4 accumulators. */
  method WalkMiddle(ik: seq<Kind>, w: Quad, b0: seq<int>) returns (spans: seq<Span>, c: seq<int>)
    requires QFit(ik, w) && Walkable(w)
    requires b0 == EdgeAt(RectKinds(ik), w.v1, w.v3, LongEdgeOffset(w))
    ensures spans == MiddleBand(ik, w)
    ensures c == Edge24At(ik, w, w.v3.y - w.v2.y)
  {
    // WalkBand's contract is all this needs of the band's rows.
    hide BandRows;
    var rk := RectKinds(ik);
    var bs, c0, cs := EdgeStep(rk, w.v1, w.v3), EdgeStart(rk, w.v2), Step24(ik, w);
    var y0, n := w.v2.y + 1, w.v3.y - w.v2.y;
    var b;
    spans, b, c := WalkBand(rk, b0, bs, c0, cs, y0, n);
    assert Edge24At(ik, w, n) == Advance(c0, cs, n);
    assert MiddleBand(ik, w) == BandRows(rk, b0, bs, c0, cs, y0, n);
  }

  /** The lower band: the left accumulators step as edge 2-4 does in x and
      the texture coordinates and as edge 3-4 does in the intensity; the
      right ones the reverse. */
  method WalkLower(ik: seq<Kind>, w: Quad, c0: seq<int>) returns (spans: seq<Span>)
    requires QFit(ik, w) && Walkable(w)
    requires c0 == Edge24At(ik, w, w.v3.y - w.v2.y)
    ensures spans == LowerBand(ik, w)
  {
    hide BandRows;
    if w.v3.y == w.v4.y {
      return [Span(w.v3.x, w.v4.x, w.v3.y, w.v3.attrs, w.v4.attrs[..2] + HandOver(ik, c0))];
    }
    var rk := RectKinds(ik);
    var n := w.v4.y - w.v3.y;
    var start3, s24, s34 := EdgeStart(rk, w.v3), Step24(ik, w), EdgeStep(rk, w.v3, w.v4);
    var l0, ls, r0, rs, y0 := Mix(c0, start3), Mix(s24, s34), Mix(start3, c0), Mix(s34, s24), w.v3.y + 1;
    var l, r;
    spans, l, r := WalkBand(rk, l0, ls, r0, rs, y0, n);
    assert LowerBand(ik, w) == BandRows(rk, l0, ls, r0, rs, y0, n);
  }

  lemma LowerAccumulators(ik: seq<Kind>, w: Quad, j: int)
    requires QFit(ik, w) && Walkable(w) && w.v3.y < w.v4.y && 0 <= j
    ensures var rk := RectKinds(ik);
      var c0, start3 := Edge24At(ik, w, w.v3.y - w.v2.y), EdgeStart(rk, w.v3);
      var s24, s34 := Step24(ik, w), EdgeStep(rk, w.v3, w.v4);
      var e24, e34 := Edge24At(ik, w, w.v3.y - w.v2.y + j), EdgeAt(rk, w.v3, w.v4, j);
      && Advance(Mix(c0, start3), Mix(s24, s34), j) == Mix(e24, e34)
      && Advance(Mix(start3, c0), Mix(s34, s24), j) == Mix(e34, e24)
  {
    var rk := RectKinds(ik);
    var c0, start3 := Edge24At(ik, w, w.v3.y - w.v2.y), EdgeStart(rk, w.v3);
    var s24, s34 := Step24(ik, w), EdgeStep(rk, w.v3, w.v4);
    MixAdvance(c0, start3, s24, s34, j);
    MixAdvance(start3, c0, s34, s24, j);
    AdvanceAdd(EdgeStart(rk, w.v2), s24, w.v3.y - w.v2.y, j);
  }

  // ---------------------------------------------------------------------
  // Mixed accumulators.

  lemma MixSame(u: seq<int>)
    requires 3 <= |u|
    ensures Mix(u, u) == u
  {
  }

  lemma MixMix(a: seq<int>, b: seq<int>)
    requires 3 <= |a| == |b|
    ensures Mix(Mix(a, b), Mix(b, a)) == a
  {
  }

  /** Mixed accumulators step as their two sources do, channel by channel. */
  lemma {:induction false} MixAdvance(a: seq<int>, b: seq<int>, s: seq<int>, t: seq<int>, k: int)
    requires 3 <= |a| == |b| == |s| == |t|
    ensures Advance(Mix(a, b), Mix(s, t), k) == Mix(Advance(a, s, k), Advance(b, t, k))
    decreases if k < 0 then 0 else k
  {
    if k > 0 {
      MixAdvance(a, b, s, t, k - 1);
      MixStep(Advance(a, s, k - 1), Advance(b, t, k - 1), s, t);
    }
  }

  lemma MixStep(a: seq<int>, b: seq<int>, s: seq<int>, t: seq<int>)
    requires 3 <= |a| == |b| == |s| == |t|
    ensures StepOnce(Mix(a, b), Mix(s, t)) == Mix(StepOnce(a, s), StepOnce(b, t))
  {
  }

  /** The span drawer calls of a quad, computed as the source does. */
  method WalkRect(ik: seq<Kind>, q: Quad) returns (spans: seq<Span>)
    requires QFit(ik, q)
    ensures spans == RectCalls(ik, q)
  {
    if q.v1.y == q.v3.y || q.v1.y == q.v4.y || q.v4.y == q.v2.y {
      return [];
    }
    AcceptedIsWalkable(q);
    SortKeepsFit(ik, q);
    var w := SortQuadVertices(q);
    var upper, b := WalkUpper(ik, w);
    var middle, c := WalkMiddle(ik, w, b);
    var lower := WalkLower(ik, w, c);
    spans := upper + middle + lower;
  }

  /** The buffer s after the span drawer calls of quad q. */
  function RectPaint(t: Target, s: seq<int>, ik: seq<Kind>, m: Mode, q: Quad): (r: seq<int>)
    requires t.Valid() && |s| == t.pitch * t.height
    requires QFit(ik, q) && 2 + |ik| == Arity(m) && (m.PreCalc? ==> PaletteTable(m.palettes))
    ensures |r| == |s|
  {
    Paint(t, s, RectCalls(ik, q), m)
  }

  /** Rasterise a quad with a span drawer: walk it, draw its spans, and
      hand the changed rectangle to sge_UpdateRect as int values, which
      wrap to Uint16. */
  method DrawRect(dest: Surface, ik: seq<Kind>, m: Mode, q: Quad) returns (update: Update)
    requires dest.Valid() && QFit(ik, q) && 2 + |ik| == Arity(m)
    requires m.PreCalc? ==> PaletteTable(m.palettes)
    modifies dest.pixels
    ensures dest.pixels[..] == RectPaint(dest.target, old(dest.pixels[..]), ik, m, q)
    ensures update == Narrowed(RectReport(q), false)
  {
    var spans := WalkRect(ik, q);
    DrawSpans(dest, spans, m);
    var dirty := if Rejected(q) then None else Some(RectDirty(SortQuad(q)));
    update := Narrowed(dirty, false);
  }

  // ---------------------------------------------------------------------
  // The entry points. The shaded variants take two intensities: I1 for
  // vertices 1 and 3, I2 for vertices 2 and 4.

  method TexturedRect(dest: Surface, x1: Sint16, y1: Sint16, x2: Sint16, y2: Sint16,
                      x3: Sint16, y3: Sint16, x4: Sint16, y4: Sint16, source: Texture,
                      sx1: Sint16, sy1: Sint16, sx2: Sint16, sy2: Sint16,
                      sx3: Sint16, sy3: Sint16, sx4: Sint16, sy4: Sint16)
    returns (update: Update)
    requires dest.Valid()
    modifies dest.pixels
    ensures var q := Quad(Vertex(x1, y1, [sx1, sy1]), Vertex(x2, y2, [sx2, sy2]),
                          Vertex(x3, y3, [sx3, sy3]), Vertex(x4, y4, [sx4, sy4]));
      dest.pixels[..] == RectPaint(dest.target, old(dest.pixels[..]), [], Textured(source), q)
      && update == Narrowed(RectReport(q), false)
  {
    var q := Quad(Vertex(x1, y1, [sx1, sy1]), Vertex(x2, y2, [sx2, sy2]),
                  Vertex(x3, y3, [sx3, sy3]), Vertex(x4, y4, [sx4, sy4]));
    update := DrawRect(dest, [], Textured(source), q);
  }

  method FadedTexturedRect(dest: Surface, x1: Sint16, y1: Sint16, x2: Sint16, y2: Sint16,
                           x3: Sint16, y3: Sint16, x4: Sint16, y4: Sint16, source: Texture,
                           sx1: Sint16, sy1: Sint16, sx2: Sint16, sy2: Sint16,
                           sx3: Sint16, sy3: Sint16, sx4: Sint16, sy4: Sint16, i1: int, i2: int)
    returns (update: Update)
    requires dest.Valid()
    modifies dest.pixels
    ensures var q := Quad(Vertex(x1, y1, [sx1, sy1, i1]), Vertex(x2, y2, [sx2, sy2, i2]),
                          Vertex(x3, y3, [sx3, sy3, i1]), Vertex(x4, y4, [sx4, sy4, i2]));
      dest.pixels[..] == RectPaint(dest.target, old(dest.pixels[..]), [Wide], Shaded(source, SourceKey), q)
      && update == Narrowed(RectReport(q), false)
  {
    var q := Quad(Vertex(x1, y1, [sx1, sy1, i1]), Vertex(x2, y2, [sx2, sy2, i2]),
                  Vertex(x3, y3, [sx3, sy3, i1]), Vertex(x4, y4, [sx4, sy4, i2]));
    update := DrawRect(dest, [Wide], Shaded(source, SourceKey), q);
  }

  method PreCalcFadedTexturedRect(dest: Surface, x1: Sint16, y1: Sint16, x2: Sint16, y2: Sint16,
                                  x3: Sint16, y3: Sint16, x4: Sint16, y4: Sint16, source: Texture,
                                  sx1: Sint16, sy1: Sint16, sx2: Sint16, sy2: Sint16,
                                  sx3: Sint16, sy3: Sint16, sx4: Sint16, sy4: Sint16,
                                  i1: Uint16, i2: Uint16, palettes: seq<seq<Uint8>>)
    returns (update: Update)
    requires dest.Valid() && PaletteTable(palettes)
    modifies dest.pixels
    ensures var q := Quad(Vertex(x1, y1, [sx1, sy1, i1]), Vertex(x2, y2, [sx2, sy2, i2]),
                          Vertex(x3, y3, [sx3, sy3, i1]), Vertex(x4, y4, [sx4, sy4, i2]));
      dest.pixels[..] == RectPaint(dest.target, old(dest.pixels[..]), [Narrow], PreCalc(source, palettes, SourceKey), q)
      && update == Narrowed(RectReport(q), false)
  {
    var q := Quad(Vertex(x1, y1, [sx1, sy1, i1]), Vertex(x2, y2, [sx2, sy2, i2]),
                  Vertex(x3, y3, [sx3, sy3, i1]), Vertex(x4, y4, [sx4, sy4, i2]));
    update := DrawRect(dest, [Narrow], PreCalc(source, palettes, SourceKey), q);
  }
}
