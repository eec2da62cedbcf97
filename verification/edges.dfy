// What the triangle and quad rasterisers share: vertices with attached
// attributes, the fixed-point edge accumulators that carry x and the
// attributes from one vertex to the next row by row, the spans built from
// two edges, and the drawing of a list of spans one after the other.
module Edges {
  import opened FixedPoint
  import opened Surfaces
  import opened Scanline

  /** How a vertex attribute travels down an edge and is handed to the
      span drawer. */
  datatype Kind =
    | Coord   // Sint16 position or texture coordinate: a 16.16 accumulator, handed over as Sint16(acc >> 16)
    | Color   // Uint8 colour channel: a 16.16 accumulator, handed over as Uint8(acc >> 16)
    | Wide    // Sint32 intensity: a plain accumulator stepped by the truncated quotient
    | Narrow  // Uint16 intensity: a Uint16 accumulator stepped by a Sint16 quotient

  /** A vertex: its position and the attributes attached to it. */
  datatype Vertex = Vertex(x: Sint16, y: Sint16, attrs: seq<int>)

  predicate Fits(ks: seq<Kind>, v: Vertex)
  {
    |v.attrs| == |ks|
  }

  /** The attribute kinds of the rasterisers: colour channels, texture
      coordinates, and texture coordinates with an intensity. */
  const ColorKinds: seq<Kind> := [Color, Color, Color]
  const TextureKinds: seq<Kind> := [Coord, Coord]
  const ShadedKinds: seq<Kind> := [Coord, Coord, Wide]
  const PreCalcKinds: seq<Kind> := [Coord, Coord, Narrow]

  /** Channel 0 of an edge is x, a position; channels 1.. are the attributes. */
  function ChannelKind(ks: seq<Kind>, c: int): Kind
    requires 0 <= c <= |ks|
  {
    if c == 0 then Coord else ks[c - 1]
  }

  function Channel(v: Vertex, c: int): int
    requires 0 <= c <= |v.attrs|
  {
    if c == 0 then v.x else v.attrs[c - 1]
  }

  function KindStart(k: Kind, v: int): int
  {
    if k.Coord? || k.Color? then v * One else v
  }

  /** The per-row step of an edge dy rows high. */
  function KindStep(k: Kind, a: int, b: int, dy: int): int
    requires dy > 0
  {
    match k
    case Coord => FixStep(a, b, dy)
    case Color => FixStep(a, b, dy)
    case Wide => TruncDiv(b - a, dy)
    case Narrow => ToS16(TruncDiv(b - a, dy))
  }

  /** The value handed to the span drawer: the integer part narrowed to the
      parameter's type, or the accumulator itself. */
  function KindOut(k: Kind, acc: int): int
  {
    match k
    case Coord => ToS16(Shr16(acc))
    case Color => ToU8(Shr16(acc))
    case Wide => acc
    case Narrow => Wrap16(acc)
  }

  /** The accumulators of an edge starting at vertex a. */
  function EdgeStart(ks: seq<Kind>, a: Vertex): (r: seq<int>)
    requires Fits(ks, a)
    ensures |r| == |ks| + 1
  {
    seq(|ks| + 1, c requires 0 <= c <= |ks| => KindStart(ChannelKind(ks, c), Channel(a, c)))
  }

  /** The per-row steps of the edge from a down to b. */
  function EdgeStep(ks: seq<Kind>, a: Vertex, b: Vertex): (r: seq<int>)
    requires Fits(ks, a) && Fits(ks, b) && a.y < b.y
    ensures |r| == |ks| + 1
  {
    seq(|ks| + 1, c requires 0 <= c <= |ks| => KindStep(ChannelKind(ks, c), Channel(a, c), Channel(b, c), b.y - a.y))
  }

  /** The accumulators of the edge from a to b after k rows:
      (a << 16) + k * m for each fixed-point channel. */
  function EdgeAt(ks: seq<Kind>, a: Vertex, b: Vertex, k: int): (r: seq<int>)
    requires Fits(ks, a) && Fits(ks, b) && a.y < b.y
    ensures |r| == |ks| + 1
  {
    Advance(EdgeStart(ks, a), EdgeStep(ks, a, b), k)
  }

  /** The span drawn on row y between two edges whose accumulators are l and r. */
  function RowSpan(ks: seq<Kind>, l: seq<int>, r: seq<int>, y: Sint16): Span
    requires |l| == |ks| + 1 && |r| == |ks| + 1
  {
    Span(ToS16(Shr16(l[0])), ToS16(Shr16(r[0])), y,
         seq(|ks|, c requires 0 <= c < |ks| => KindOut(ks[c], l[c + 1])),
         seq(|ks|, c requires 0 <= c < |ks| => KindOut(ks[c], r[c + 1])))
  }

  /** The span drawn on a flat band: the two vertices themselves. */
  function FlatSpan(a: Vertex, b: Vertex): Span
  {
    Span(a.x, b.x, a.y, a.attrs, b.attrs)
  }

  /** The x a span receives from an edge stays between the x of the edge's
      two vertices for every row of the edge. */
  lemma EdgeXBetween(ks: seq<Kind>, a: Vertex, b: Vertex, k: int)
    requires Fits(ks, a) && Fits(ks, b) && a.y < b.y && 0 <= k <= b.y - a.y
    ensures Min(a.x, b.x) <= ToS16(Shr16(EdgeAt(ks, a, b, k)[0])) <= Max(a.x, b.x)
  {
    XBetween(EdgeStart(ks, a), EdgeStep(ks, a, b), a, b, k);
  }

  /** The same for any accumulators whose x channel starts at a.x and steps
      towards b.x, whatever the other channels do. */
  lemma XBetween(u: seq<int>, steps: seq<int>, a: Vertex, b: Vertex, k: int)
    requires |u| == |steps| > 0 && a.y < b.y && 0 <= k <= b.y - a.y
    requires u[0] == a.x * One && steps[0] == FixStep(a.x, b.x, b.y - a.y)
    ensures Min(a.x, b.x) <= ToS16(Shr16(Advance(u, steps, k)[0])) <= Max(a.x, b.x)
  {
    AdvanceAt(u, steps, k, 0);
    assert Advance(u, steps, k)[0] == FixAt(a.x, b.x, b.y - a.y, k);
    FixAtBetween(a.x, b.x, b.y - a.y, k);
  }

  /** A span drawn between two edges lies in any rectangle that holds its
      row and the x range of both edges. */
  lemma RowSpanInRect(ks: seq<Kind>, a: Vertex, b: Vertex, k: int, c: Vertex, d: Vertex, m: int, y: Sint16, r: Rect)
    requires Fits(ks, a) && Fits(ks, b) && a.y < b.y && 0 <= k <= b.y - a.y
    requires Fits(ks, c) && Fits(ks, d) && c.y < d.y && 0 <= m <= d.y - c.y
    requires r.x <= Min(a.x, b.x) && Max(a.x, b.x) < r.x + r.w
    requires r.x <= Min(c.x, d.x) && Max(c.x, d.x) < r.x + r.w
    requires r.y <= y < r.y + r.h
    ensures SpanInRect(RowSpan(ks, EdgeAt(ks, a, b, k), EdgeAt(ks, c, d, m), y), r)
  {
    EdgeXBetween(ks, a, b, k);
    EdgeXBetween(ks, c, d, m);
  }

  /** One conditional swap of the source: exchange two whole vertices,
      position and attributes together, when the first lies lower. */
  function SwapIfBelow(a: Vertex, b: Vertex): (r: (Vertex, Vertex))
    ensures r.0.y <= r.1.y
    ensures r == (a, b) || r == (b, a)
    ensures multiset{r.0, r.1} == multiset{a, b}
  {
    if a.y > b.y then (b, a) else (a, b)
  }

  /** The source's `if (a.y > b.y) SWAP(...)` on every coordinate of the
      two vertices. */
  method OrderPair(a: Vertex, b: Vertex) returns (c: Vertex, d: Vertex)
    ensures (c, d) == SwapIfBelow(a, b)
  {
    c, d := a, b;
    if c.y > d.y {
      c, d := d, c;
    }
  }

  // ---------------------------------------------------------------------
  // Walking a band.

  /** The loop of every band: on each of n rows from y0 down, draw the span
      between the left and the right accumulators, then step both. Returns
      the spans and the accumulators as the next band inherits them. */
  method WalkBand(ks: seq<Kind>, l0: seq<int>, ls: seq<int>, r0: seq<int>, rs: seq<int>, y0: int, n: int)
    returns (spans: seq<Span>, l: seq<int>, r: seq<int>)
    requires |l0| == |ks| + 1 && |ls| == |ks| + 1 && |r0| == |ks| + 1 && |rs| == |ks| + 1
    requires 0 <= n && -0x8000 <= y0 && y0 + n <= 0x8000
    ensures spans == BandRows(ks, l0, ls, r0, rs, y0, n)
    ensures l == Advance(l0, ls, n) && r == Advance(r0, rs, n)
  {
    l, r := l0, r0;
    spans := [];
    var k := 0;
    while k < n
      invariant 0 <= k <= n
      invariant l == Advance(l0, ls, k) && r == Advance(r0, rs, k)
      invariant spans == BandRows(ks, l0, ls, r0, rs, y0, k)
    {
      spans := spans + [RowSpan(ks, l, r, (y0 + k) as Sint16)];
      AdvanceNext(l0, ls, k);
      AdvanceNext(r0, rs, k);
      l := StepOnce(l, ls);
      r := StepOnce(r, rs);
      k := k + 1;
    }
  }

  /** The spans of the first k rows of a band whose left accumulators
      start at l0 and step by ls, and whose right ones start at r0 and step
      by rs. */
  function BandRows(ks: seq<Kind>, l0: seq<int>, ls: seq<int>, r0: seq<int>, rs: seq<int>, y0: int, k: int): (r: seq<Span>)
    requires |l0| == |ks| + 1 && |ls| == |ks| + 1 && |r0| == |ks| + 1 && |rs| == |ks| + 1
    requires 0 <= k && -0x8000 <= y0 && y0 + k <= 0x8000
    ensures |r| == k
    ensures CarryAttrs(|ks|, r)
    ensures forall i | 0 <= i < k :: r[i].y == (y0 + i) as Sint16
    decreases k
  {
    if k == 0 then []
    else BandRows(ks, l0, ls, r0, rs, y0, k - 1) + [RowSpan(ks, Advance(l0, ls, k - 1), Advance(r0, rs, k - 1), (y0 + k - 1) as Sint16)]
  }

  /** Row j of a band is drawn from the accumulators after j steps. */
  lemma {:induction false} BandRowAt(ks: seq<Kind>, l0: seq<int>, ls: seq<int>, r0: seq<int>, rs: seq<int>, y0: int, k: int, j: int)
    requires |l0| == |ks| + 1 && |ls| == |ks| + 1 && |r0| == |ks| + 1 && |rs| == |ks| + 1
    requires 0 <= j < k && -0x8000 <= y0 && y0 + k <= 0x8000
    ensures BandRows(ks, l0, ls, r0, rs, y0, k)[j] == RowSpan(ks, Advance(l0, ls, j), Advance(r0, rs, j), (y0 + j) as Sint16)
    decreases k
  {
    if j < k - 1 {
      BandRowAt(ks, l0, ls, r0, rs, y0, k - 1, j);
    }
  }

  /** Row j of a band whose left edge was already stepped off times before
      the band started: the left edge has been stepped off + j times. */
  lemma BandRowCarried(ks: seq<Kind>, a0: seq<int>, ls: seq<int>, off: int, r0: seq<int>, rs: seq<int>, y0: int, k: int, j: int)
    requires |a0| == |ks| + 1 && |ls| == |ks| + 1 && |r0| == |ks| + 1 && |rs| == |ks| + 1
    requires 0 <= off && 0 <= j < k && -0x8000 <= y0 && y0 + k <= 0x8000
    ensures BandRows(ks, Advance(a0, ls, off), ls, r0, rs, y0, k)[j]
         == RowSpan(ks, Advance(a0, ls, off + j), Advance(r0, rs, j), (y0 + j) as Sint16)
  {
    BandRowAt(ks, Advance(a0, ls, off), ls, r0, rs, y0, k, j);
    AdvanceAdd(a0, ls, off, j);
  }

  /** Row j of a band whose left edge a-b was already stepped off times
      before the band started. */
  lemma CarriedEdgeRow(ks: seq<Kind>, a: Vertex, b: Vertex, off: int, r0: seq<int>, rs: seq<int>, y0: int, n: int, j: int)
    requires Fits(ks, a) && Fits(ks, b) && a.y < b.y && |r0| == |ks| + 1 && |rs| == |ks| + 1
    requires 0 <= off && 0 <= j < n && -0x8000 <= y0 && y0 + n <= 0x8000
    ensures BandRows(ks, EdgeAt(ks, a, b, off), EdgeStep(ks, a, b), r0, rs, y0, n)[j]
         == RowSpan(ks, EdgeAt(ks, a, b, off + j), Advance(r0, rs, j), (y0 + j) as Sint16)
  {
    BandRowCarried(ks, EdgeStart(ks, a), EdgeStep(ks, a, b), off, r0, rs, y0, n, j);
  }

  // ---------------------------------------------------------------------
  // Drawing a list of spans.

  predicate AllWellFormed(m: Mode, spans: seq<Span>)
  {
    forall i | 0 <= i < |spans| :: WellFormed(m, spans[i])
  }

  /** The buffer after drawing the spans in order. */
  function Paint(t: Target, s: seq<int>, spans: seq<Span>, m: Mode): (r: seq<int>)
    requires t.Valid() && |s| == t.pitch * t.height && AllWellFormed(m, spans)
    ensures |r| == |s|
    decreases |spans|
  {
    if spans == [] then s
    else SpanResult(t, Paint(t, s, spans[..|spans| - 1], m), spans[|spans| - 1], m)
  }

  method DrawSpans(dest: Surface, spans: seq<Span>, m: Mode)
    requires dest.Valid() && AllWellFormed(m, spans)
    modifies dest.pixels
    ensures dest.pixels[..] == Paint(dest.target, old(dest.pixels[..]), spans, m)
  {
    ghost var s := dest.pixels[..];
    for i := 0 to |spans|
      invariant dest.pixels[..] == Paint(dest.target, s, spans[..i], m)
    {
      assert spans[..i + 1][..i] == spans[..i];
      DrawSpan(dest, spans[i], m);
    }
    assert spans[..|spans|] == spans;
  }

  datatype Option<T> = None | Some(value: T)

  /** The rectangle a rasteriser reports as changed: x, y, width, height. */
  datatype Rect = Rect(x: int, y: int, w: int, h: int)

  predicate InRect(r: Rect, x: int, y: int)
  {
    r.x <= x < r.x + r.w && r.y <= y < r.y + r.h
  }

  /** What a rasteriser hands to sge_UpdateRect, whose width and height
      parameters are Uint16: nothing, a rectangle, or the exception
      boost::numeric_cast throws for a value that does not fit. */
  datatype Update = NoUpdate | UpdateRect(x: int, y: int, w: Uint16, h: Uint16) | CastFails

  predicate FitsUpdate(r: Rect)
  {
    0 <= r.w < 65536 && 0 <= r.h < 65536
  }

  /** The update for the reported rectangle d. With `checked` the width and
      height go through numeric_cast; without it they are passed as int and
      wrap. Either way a rectangle that fits arrives unchanged. */
  function Narrowed(d: Option<Rect>, checked: bool): (u: Update)
    ensures u.NoUpdate? <==> d.None?
    ensures u.CastFails? <==> d.Some? && checked && !FitsUpdate(d.value)
    ensures d.Some? && FitsUpdate(d.value) ==> u == UpdateRect(d.value.x, d.value.y, d.value.w, d.value.h)
    ensures u.UpdateRect? ==> (u.w - d.value.w) % 65536 == 0 && (u.h - d.value.h) % 65536 == 0
  {
    match d
    case None => NoUpdate
    case Some(r) =>
      if checked && !FitsUpdate(r) then CastFails
      else UpdateRect(r.x, r.y, Wrap16(r.w), Wrap16(r.h))
  }

  /** A span whose row and both ends lie in the rectangle. */
  predicate SpanInRect(sp: Span, r: Rect)
  {
    InRect(r, sp.x1, sp.y) && InRect(r, sp.x2, sp.y)
  }

  /** Every span carries one value per attribute at each end. */
  predicate CarryAttrs(n: int, spans: seq<Span>)
  {
    forall i | 0 <= i < |spans| :: |spans[i].a1| == n && |spans[i].a2| == n
  }

  lemma CarryAttrsConcat(n: int, a: seq<Span>, b: seq<Span>)
    requires CarryAttrs(n, a) && CarryAttrs(n, b)
    ensures CarryAttrs(n, a + b)
  {
    forall i | 0 <= i < |a + b|
      ensures |(a + b)[i].a1| == n && |(a + b)[i].a2| == n
    {
      if i >= |a| {
        assert (a + b)[i] == b[i - |a|];
      }
    }
  }

  /** Drawing spans that all lie in a rectangle changes no pixel outside
      that rectangle, and none outside the clip rectangle. */
  lemma {:induction false} PaintStaysInRect(t: Target, s: seq<int>, spans: seq<Span>, m: Mode, r: Rect, x: int, y: int)
    requires t.Valid() && |s| == t.pitch * t.height && AllWellFormed(m, spans)
    requires forall i | 0 <= i < |spans| :: SpanInRect(spans[i], r)
    requires 0 <= x < t.pitch && 0 <= y < t.height
    ensures 0 <= y * t.pitch + x < |s|
    ensures Paint(t, s, spans, m)[y * t.pitch + x] != s[y * t.pitch + x] ==>
              InRect(r, x, y) && t.clip.xmin <= x <= t.clip.xmax && t.clip.ymin <= y <= t.clip.ymax
    decreases |spans|
  {
    RowMajor(t.pitch, t.height, x, y);
    if spans != [] {
      var init := spans[..|spans| - 1];
      var last := spans[|spans| - 1];
      PaintStaysInRect(t, s, init, m, r, x, y);
      SpanWritesOnlyClippedRun(t, Paint(t, s, init, m), last, m, x, y);
    }
  }
}
