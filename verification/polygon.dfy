// The four polygon fillers: sge_FilledPolygonAlpha, sge_AAFilledPolygon,
// sge_FadedPolygonAlpha and sge_AAFadedPolygon. Each decomposes the
// polygon into edges (drawing their outline as it goes), then scans the
// rows of the bounding box from top to bottom, pairing up the sorted edge
// crossings of each row and filling between the two crossings of a pair.
//
// The lines these fillers draw with (_Line, _AALineAlpha, sge_DomcLine,
// _AAmcLineAlpha, _HLine, _HLineAlpha, _FadedLine) are recorded as calls,
// in the order the filler makes them; the result of a filler is its status,
// the list of calls and the rectangle it reports as changed.
module Polygons {
  import opened FixedPoint
  import opened Edges
  import opened RadixSort
  import opened PolyEdges

  /** Which filler, with the colour and alpha it was called with. */
  datatype Style =
    | FilledAlpha(color: int, alpha: Uint8)   // sge_FilledPolygonAlpha
    | AAFilled(color: int)                    // sge_AAFilledPolygon
    | FadedAlpha(alpha: Uint8)                // sge_FadedPolygonAlpha
    | AAFaded                                 // sge_AAFadedPolygon

  /** The shaded fillers carry three colour channels on their vertices and
      edges (fpline); the others carry none (pline). */
  function Kinds(s: Style): seq<Kind>
  {
    if s.FadedAlpha? || s.AAFaded? then ColorKinds else []
  }

  /** SDL_ALPHA_OPAQUE, or an anti-aliased filler, which always fills opaque. */
  predicate Opaque(s: Style)
  {
    match s
    case FilledAlpha(_, a) => a == 255
    case FadedAlpha(a) => a == 255
    case _ => true
  }

  /** A call of one of the line drawers. */
  datatype Call =
    | DrawLine(x1: int, y1: int, x2: int, y2: int, color: int)                  // _Line
    | DrawAALine(x1: int, y1: int, x2: int, y2: int, color: int)                // _AALineAlpha, opaque
    | DrawDomcLine(x1: int, y1: int, x2: int, y2: int, c1: seq<int>, c2: seq<int>)   // sge_DomcLine with _PutPixel
    | DrawAAmcLine(x1: int, y1: int, x2: int, y2: int, c1: seq<int>, c2: seq<int>)   // _AAmcLineAlpha, opaque
    | DrawHLine(x1: int, x2: int, y: int, color: int)                           // _HLine
    | DrawHLineAlpha(x1: int, x2: int, y: int, color: int, alpha: int)          // _HLineAlpha
    | DrawFadedLine(x1: int, x2: int, y: int, c1: seq<int>, c2: seq<int>)       // _FadedLine
    | DrawDomcAlphaLine(x1: int, x2: int, y: int, c1: seq<int>, c2: seq<int>, alpha: int)
      // sge_DomcLine along row y with callback_alpha_hack and _sge_alpha_hack = alpha

  // ---------------------------------------------------------------------
  // Pairing the crossings of a row.

  /** What an edge hands to the pairing loop: its x and its colours. */
  datatype Crossing = Crossing(x: int, c: seq<int>)

  /** The pairing loop's variables: x1 (with r1, g1, b1) and x2 (with r2,
      g2, b2); an x below 0 means not set. */
  datatype Pen = Pen(x1: int, c1: seq<int>, x2: int, c2: seq<int>)

  /** A fill between two crossings: x1 is already one past the left one. */
  datatype Fill = Fill(x1: int, x2: int, c1: seq<int>, c2: seq<int>)

  /** The pen before the first crossing of a row. */
  const Idle: Pen := Pen(-1, [], -1, [])

  function CrossingOf(l: PLine): Crossing
    requires Valid(l)
  {
    Crossing(l.out[0], l.out[1..])
  }

  function Crossings(ls: seq<PLine>, d: seq<nat>): (r: seq<Crossing>)
    requires AllValid(ls) && Indexes(ls, d)
    ensures |r| == |d|
  {
    seq(|d|, j requires 0 <= j < |d| => CrossingOf(ls[d[j]]))
  }

  /** One turn of the pairing loop: the crossing sets x1 = x + 1 (a Sint16)
      if x1 is not set, else x2 = x if x2 is not set; once both are set the
      pair is filled, unless skip is on and x2 < x1, and both are unset. */
  function Feed(skip: bool, p: Pen, k: Crossing): (r: (Pen, seq<Fill>))
  {
    var q := if p.x1 < 0 then p.(x1 := ToS16(k.x + 1), c1 := k.c)
             else if p.x2 < 0 then p.(x2 := k.x, c2 := k.c)
             else p;
    if q.x1 >= 0 && q.x2 >= 0 then
      (q.(x1 := -1, x2 := -1), if skip && q.x2 - q.x1 < 0 then [] else [Fill(q.x1, q.x2, q.c1, q.c2)])
    else (q, [])
  }

  /** The pairing loop over a whole list of crossings: the final pen and the
      fills in order. */
  function Run(skip: bool, xs: seq<Crossing>, p: Pen): (r: (Pen, seq<Fill>))
    decreases |xs|
  {
    if xs == [] then (p, [])
    else
      var prev := Run(skip, xs[..|xs| - 1], p);
      var next := Feed(skip, prev.0, xs[|xs| - 1]);
      (next.0, prev.1 + next.1)
  }

  /** The fills of consecutive pairs of crossings, first with second, third
      with fourth, and so on; with skip, pairs whose right crossing lies left
      of x + 1 of the left one are left out. */
  function PairsOf(skip: bool, xs: seq<Crossing>): (r: seq<Fill>)
    decreases |xs|
  {
    if |xs| < 2 then []
    else if |xs| % 2 == 1 then PairsOf(skip, xs[..|xs| - 1])
    else
      var a, b := xs[|xs| - 2], xs[|xs| - 1];
      PairsOf(skip, xs[..|xs| - 2]) + (if skip && b.x - (a.x + 1) < 0 then [] else [Fill(a.x + 1, b.x, a.c, b.c)])
  }

  predicate InX(xs: seq<Crossing>, lo: int, hi: int)
  {
    forall j | 0 <= j < |xs| :: lo <= xs[j].x <= hi
  }

  /** A crossing into a pen with nothing set sets x1. */
  lemma FeedOpens(skip: bool, p: Pen, k: Crossing)
    requires p.x1 < 0 && p.x2 < 0 && 0 <= k.x <= 32766
    ensures Feed(skip, p, k) == (p.(x1 := k.x + 1, c1 := k.c), [])
  {
  }

  /** A crossing into a pen with x1 set closes the pair. */
  lemma FeedCloses(skip: bool, p: Pen, k: Crossing)
    requires p.x1 >= 0 && p.x2 < 0 && k.x >= 0
    ensures Feed(skip, p, k).0 == p.(x1 := -1, x2 := -1, c2 := k.c)
    ensures Feed(skip, p, k).1 == if skip && k.x - p.x1 < 0 then [] else [Fill(p.x1, k.x, p.c1, k.c)]
  {
  }

  /** Starting with x1 and x2 unset, whatever colours are left in the pen,
      the loop fills between consecutive pairs of crossings as long as no x
      is 32767 (whose x + 1 would wrap to a negative Sint16); an unpaired
      last crossing is left in x1. */
  lemma {:induction false} RunPairs(skip: bool, xs: seq<Crossing>, c1: seq<int>, c2: seq<int>)
    requires InX(xs, 0, 32766)
    ensures Run(skip, xs, Pen(-1, c1, -1, c2)).1 == PairsOf(skip, xs)
    ensures var p := Run(skip, xs, Pen(-1, c1, -1, c2)).0;
      p.x2 == -1 &&
      (if |xs| % 2 == 0 then p.x1 == -1 else p.x1 == xs[|xs| - 1].x + 1 && p.c1 == xs[|xs| - 1].c)
    decreases |xs|
  {
    if xs != [] {
      var init := xs[..|xs| - 1];
      var last := xs[|xs| - 1];
      assert InX(init, 0, 32766) by {
        forall j | 0 <= j < |init| ensures 0 <= init[j].x <= 32766 {
          assert init[j] == xs[j];
        }
      }
      RunPairs(skip, init, c1, c2);
      var p0 := Pen(-1, c1, -1, c2);
      if |init| % 2 == 0 {
        RunOpens(skip, xs, p0);
      } else {
        assert xs[..|xs| - 2] == init[..|init| - 1];
        assert xs[|xs| - 2] == init[|init| - 1];
        RunCloses(skip, xs, p0);
      }
    }
  }

  /** An odd crossing opens a pair. */
  lemma RunOpens(skip: bool, xs: seq<Crossing>, p0: Pen)
    requires xs != [] && |xs| % 2 == 1 && 0 <= xs[|xs| - 1].x <= 32766
    requires var prev := Run(skip, xs[..|xs| - 1], p0);
      prev.1 == PairsOf(skip, xs[..|xs| - 1]) && prev.0.x1 == -1 && prev.0.x2 == -1
    ensures Run(skip, xs, p0).1 == PairsOf(skip, xs)
    ensures Run(skip, xs, p0).0 == Run(skip, xs[..|xs| - 1], p0).0.(x1 := xs[|xs| - 1].x + 1, c1 := xs[|xs| - 1].c)
  {
    var prev := Run(skip, xs[..|xs| - 1], p0);
    FeedOpens(skip, prev.0, xs[|xs| - 1]);
  }

  /** An even crossing closes the pair the one before it opened. */
  lemma RunCloses(skip: bool, xs: seq<Crossing>, p0: Pen)
    requires |xs| >= 2 && |xs| % 2 == 0 && 0 <= xs[|xs| - 2].x && 0 <= xs[|xs| - 1].x
    requires var prev := Run(skip, xs[..|xs| - 1], p0);
      prev.1 == PairsOf(skip, xs[..|xs| - 2]) && prev.0.x2 == -1 &&
      prev.0.x1 == xs[|xs| - 2].x + 1 && prev.0.c1 == xs[|xs| - 2].c
    ensures Run(skip, xs, p0).1 == PairsOf(skip, xs)
    ensures Run(skip, xs, p0).0.x1 == -1 && Run(skip, xs, p0).0.x2 == -1
  {
    var prev := Run(skip, xs[..|xs| - 1], p0);
    FeedCloses(skip, prev.0, xs[|xs| - 1]);
  }

  /** Pens that agree on x1 and x2, and on the colours of whichever is set,
      behave alike: the colours left over from before a row are never read. */
  predicate Agree(p: Pen, q: Pen)
  {
    p.x1 == q.x1 && p.x2 == q.x2 && (p.x1 >= 0 ==> p.c1 == q.c1) && (p.x2 >= 0 ==> p.c2 == q.c2)
  }

  lemma {:induction false} RunAgree(skip: bool, xs: seq<Crossing>, p: Pen, q: Pen)
    requires Agree(p, q)
    ensures Run(skip, xs, p).1 == Run(skip, xs, q).1
    ensures Agree(Run(skip, xs, p).0, Run(skip, xs, q).0)
    decreases |xs|
  {
    if xs != [] {
      RunAgree(skip, xs[..|xs| - 1], p, q);
    }
  }

  /** The call that fills a pair on row y. */
  function FillCall(s: Style, f: Fill, y: int): Call
  {
    match s
    case FilledAlpha(color, a) =>
      if a == 255 then DrawHLine(f.x1, f.x2, y, color) else DrawHLineAlpha(f.x1 - 1, f.x2, y, color, a)
    case AAFilled(color) => DrawHLine(f.x1, f.x2, y, color)
    case FadedAlpha(a) =>
      if a == 255 then DrawFadedLine(f.x1, f.x2, y, f.c1, f.c2) else DrawDomcAlphaLine(f.x1 - 1, f.x2, y, f.c1, f.c2, a)
    case AAFaded => DrawFadedLine(f.x1, f.x2, y, f.c1, f.c2)
  }

  function FillCalls(s: Style, fs: seq<Fill>, y: int): (r: seq<Call>)
    ensures |r| == |fs|
  {
    seq(|fs|, j requires 0 <= j < |fs| => FillCall(s, fs[j], y))
  }

  /** The edges of the sorted list of row y, once the doubled crossings are
      dropped. */
  function RowList(ls: seq<PLine>, y: int): (r: seq<nat>)
    requires AllValid(ls)
    ensures Indexes(ls, r)
  {
    var l := Radix(XKeys(ls), Selected(ls, y), 4);
    RadixMembers(XKeys(ls), Selected(ls, y), 4);
    assert Indexes(ls, l) by {
      forall j | 0 <= j < |l| ensures l[j] < |ls| {
        assert l[j] in Selected(ls, y);
      }
    }
    Dedup(ls, l, y)
  }

  /** The calls one row makes, from the edges as get_scanline leaves them. */
  function RowCalls(s: Style, ls: seq<PLine>, y: int): seq<Call>
    requires AllValid(ls)
  {
    FillCalls(s, Run(Opaque(s), Crossings(ls, RowList(ls, y)), Idle).1, y)
  }

  /** One turn of the pairing loop, as the source writes it. */
  method TakeCrossing(s: Style, p: Pen, k: Crossing, y: int) returns (p': Pen, calls: seq<Call>)
    ensures (p', calls) == (Feed(Opaque(s), p, k).0, FillCalls(s, Feed(Opaque(s), p, k).1, y))
  {
    p' := p;
    if p'.x1 < 0 {
      p' := p'.(x1 := ToS16(k.x + 1), c1 := k.c);
    } else if p'.x2 < 0 {
      p' := p'.(x2 := k.x, c2 := k.c);
    }
    calls := [];
    if p'.x1 >= 0 && p'.x2 >= 0 {
      if p'.x2 - p'.x1 < 0 && Opaque(s) {
        // already drawn by the outline
        p' := p'.(x1 := -1, x2 := -1);
      } else {
        calls := [FillCall(s, Fill(p'.x1, p'.x2, p'.c1, p'.c2), y)];
        assert calls == FillCalls(s, [Fill(p'.x1, p'.x2, p'.c1, p'.c2)], y);
        p' := p'.(x1 := -1, x2 := -1);
      }
    }
  }

  lemma FillCallsConcat(s: Style, a: seq<Fill>, b: seq<Fill>, y: int)
    ensures FillCalls(s, a + b, y) == FillCalls(s, a, y) + FillCalls(s, b, y)
  {
  }

  /** The loop over one more edge of the list is one more turn. */
  lemma RunSnoc(skip: bool, ls: seq<PLine>, l: seq<nat>, i: nat, p0: Pen)
    requires AllValid(ls) && Indexes(ls, l) && i < |l|
    ensures var prev := Run(skip, Crossings(ls, l[..i]), p0);
      var next := Feed(skip, prev.0, CrossingOf(ls[l[i]]));
      Run(skip, Crossings(ls, l[..i + 1]), p0) == (next.0, prev.1 + next.1)
  {
    var xs := Crossings(ls, l[..i + 1]);
    assert xs[..|xs| - 1] == Crossings(ls, l[..i]);
  }

  /** The pairing loop of row y over the sorted list: remove_dup on each
      edge in turn, then the edge's crossing into the pen. x1 and x2 start
      unset; the colours are those left over from before. */
  method PairRow(s: Style, ls: seq<PLine>, list: seq<nat>, y: int, c1: seq<int>, c2: seq<int>)
    returns (calls: seq<Call>, c1': seq<int>, c2': seq<int>)
    requires AllValid(ls) && Indexes(ls, list)
    ensures calls == FillCalls(s, Run(Opaque(s), Crossings(ls, Dedup(ls, list, y)), Idle).1, y)
  {
    var p0 := Pen(-1, c1, -1, c2);
    var p := p0;
    var l := list;
    var i := 0;
    calls := [];
    while i < |l|
      invariant 0 <= i <= |l| && Indexes(ls, l)
      invariant l[..i] + Dedup(ls, l[i..], y) == Dedup(ls, list, y)
      invariant p == Run(Opaque(s), Crossings(ls, l[..i]), p0).0
      invariant calls == FillCalls(s, Run(Opaque(s), Crossings(ls, l[..i]), p0).1, y)
      decreases |l| - i
    {
      ghost var before := l;
      l := RemoveDup(ls, l, i, y);
      DedupWalk(ls, list, before, l, i, y);
      assert l[..i] == before[..i];
      ghost var prev := Run(Opaque(s), Crossings(ls, l[..i]), p0);
      var more;
      p, more := TakeCrossing(s, p, CrossingOf(ls[l[i]]), y);
      RunSnoc(Opaque(s), ls, l, i, p0);
      FillCallsConcat(s, prev.1, Feed(Opaque(s), prev.0, CrossingOf(ls[l[i]])).1, y);
      calls := calls + more;
      i := i + 1;
    }
    assert l[..i] == l;
    assert l == Dedup(ls, list, y);
    RunAgree(Opaque(s), Crossings(ls, l), p0, Idle);
    c1', c2' := p.c1, p.c2;
  }
}
