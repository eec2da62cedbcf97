// The body shared by sge_FilledPolygonAlpha, sge_AAFilledPolygon,
// sge_FadedPolygonAlpha and sge_AAFadedPolygon: decompose the polygon into
// edges (rejecting it on a negative coordinate, widening the bounding box
// and drawing the outline edge by edge), then scan every row of the box.
module Fillers {
  import opened FixedPoint
  import opened Edges
  import opened RadixSort
  import opened PolyEdges
  import opened Polygons

  /** Every vertex carries one value per attribute of the filler. */
  predicate FitsAll(ks: seq<Kind>, vs: seq<Vertex>)
  {
    forall i | 0 <= i < |vs| :: Fits(ks, vs[i])
  }

  /** The vertex edge i runs to: the next one, and from the last back to the
      first. */
  function Next(n: nat, i: nat): (j: nat)
    requires i < n
    ensures j < n
  {
    if i == n - 1 then 0 else i + 1
  }

  /** Edge i of the polygon, as the decomposition loop fills in line[i]. */
  function Edge(ks: seq<Kind>, vs: seq<Vertex>, i: nat): (l: PLine)
    requires FitsAll(ks, vs) && i < |vs|
    ensures Valid(l)
  {
    MakeLine(ks, vs[i], vs[Next(|vs|, i)])
  }

  function EdgesOf(ks: seq<Kind>, vs: seq<Vertex>): (es: seq<PLine>)
    requires FitsAll(ks, vs)
    ensures |es| == |vs| && AllValid(es)
  {
    seq(|vs|, i requires 0 <= i < |vs| => Edge(ks, vs, i))
  }

  /** The first edge the decomposition loop rejects, or the number of edges
      when it rejects none. */
  function FirstRejected(es: seq<PLine>): (k: nat)
    ensures k <= |es|
    ensures k < |es| ==> Rejected(es[k])
    ensures forall i | 0 <= i < k :: !Rejected(es[i])
  {
    if es == [] then 0
    else if Rejected(es[0]) then 0
    else 1 + FirstRejected(es[1..])
  }

  // ---------------------------------------------------------------------
  // The bounding box.

  datatype Box = Box(xmin: int, xmax: int, ymin: int, ymax: int)

  predicate Covers(b: Box, v: Vertex)
  {
    b.xmin <= v.x <= b.xmax && b.ymin <= v.y <= b.ymax
  }

  /** The box starts at vertex 1. */
  function StartBox(vs: seq<Vertex>): Box
    requires |vs| >= 2
  {
    Box(vs[1].x, vs[1].x, vs[1].y, vs[1].y)
  }

  /** One edge's widening of the box, from its upper end t and lower end u:
      ymin from t, ymax from u; t.x and then u.x each lower xmin or else
      raise xmax. */
  function Widen(b: Box, t: Vertex, u: Vertex): Box
  {
    var ymin := if t.y < b.ymin then t.y else b.ymin;
    var ymax := if u.y > b.ymax then u.y else b.ymax;
    var b1 := if t.x < b.xmin then b.(xmin := t.x)
              else if t.x > b.xmax then b.(xmax := t.x) else b;
    var b2 := if u.x < b1.xmin then b1.(xmin := u.x)
              else if u.x > b1.xmax then b1.(xmax := u.x) else b1;
    b2.(ymin := ymin, ymax := ymax)
  }

  /** The source's comparisons that widen the box by one edge. */
  method WidenBox(b: Box, t: Vertex, u: Vertex) returns (b': Box)
    ensures b' == Widen(b, t, u)
  {
    var ymin, ymax, xmin, xmax := b.ymin, b.ymax, b.xmin, b.xmax;
    if t.y < ymin { ymin := t.y; }
    if u.y > ymax { ymax := u.y; }
    if t.x < xmin { xmin := t.x; } else if t.x > xmax { xmax := t.x; }
    if u.x < xmin { xmin := u.x; } else if u.x > xmax { xmax := u.x; }
    b' := Box(xmin, xmax, ymin, ymax);
  }

  /** The box after the given edges. */
  function BoxOf(b: Box, es: seq<PLine>): Box
    decreases |es|
  {
    if es == [] then b else Widen(BoxOf(b, es[..|es| - 1]), es[|es| - 1].top, es[|es| - 1].bottom)
  }

  // ---------------------------------------------------------------------
  // The calls a filler makes.

  /** The outline of one edge, drawn from its upper end t to its lower end
      u. */
  function Outline(s: Style, t: Vertex, u: Vertex): (r: seq<Call>)
    ensures |r| <= 1
  {
    match s
    case FilledAlpha(color, a) => if a == 255 then [DrawLine(t.x, t.y, u.x, u.y, color)] else []
    case AAFilled(color) => [DrawAALine(t.x, t.y, u.x, u.y, color)]
    case FadedAlpha(a) => if a == 255 then [DrawDomcLine(t.x, t.y, u.x, u.y, t.attrs, u.attrs)] else []
    case AAFaded => [DrawAAmcLine(t.x, t.y, u.x, u.y, t.attrs, u.attrs)]
  }

  function Outlines(s: Style, es: seq<PLine>): seq<Call>
    decreases |es|
  {
    if es == [] then [] else Outlines(s, es[..|es| - 1]) + Outline(s, es[|es| - 1].top, es[|es| - 1].bottom)
  }

  /** The calls of rows lo to hi - 1. On row y the edges are as
      get_scanline leaves them, that is as they stand on reaching row y + 1. */
  function Scan(s: Style, es: seq<PLine>, lo: int, hi: int): seq<Call>
    requires AllValid(es)
    decreases hi - lo
  {
    if hi <= lo then [] else Scan(s, es, lo, hi - 1) + RowCalls(s, LinesAt(es, hi), hi - 1)
  }

  /** What a filler returns: its status, the calls it makes, and the
      rectangle it passes to sge_UpdateRect. */
  datatype Outcome = Outcome(status: int, calls: seq<Call>, dirty: Option<Rect>)

  /** A filler on the vertices vs: -1 and nothing drawn for fewer than three
      vertices; -1 after the outline of the edges before the first rejected
      one; otherwise 0, after the whole outline and every row of the box. */
  function PolygonOutcome(s: Style, vs: seq<Vertex>): Outcome
    requires FitsAll(Kinds(s), vs)
  {
    if |vs| < 3 then Outcome(-1, [], None)
    else
      var es := EdgesOf(Kinds(s), vs);
      var k := FirstRejected(es);
      if k < |es| then Outcome(-1, Outlines(s, es[..k]), None)
      else Accepted(s, es, BoxOf(StartBox(vs), es))
  }

  /** A polygon none of whose edges is rejected, with bounding box b. */
  function Accepted(s: Style, es: seq<PLine>, b: Box): Outcome
    requires AllValid(es)
  {
    Done(Outlines(s, es) + Scan(s, es, b.ymin, b.ymax + 1), b)
  }

  /** Status 0, with the box reported as a rectangle. */
  function Done(calls: seq<Call>, b: Box): Outcome
  {
    Outcome(0, calls, Some(RectOf(b)))
  }

  /** The rectangle from (xmin, ymin) to (xmax, ymax) inclusive. */
  function RectOf(b: Box): Rect
  {
    Rect(b.xmin, b.ymin, b.xmax - b.xmin + 1, b.ymax - b.ymin + 1)
  }

  // ---------------------------------------------------------------------
  // The filler.

  /** The decomposition loop: edge i into line[i], its outline drawn, the
      box widened; the first rejected edge stops it. */
  method Decompose(s: Style, vs: seq<Vertex>, ghost es: seq<PLine>, line: array<PLine>)
    returns (ok: bool, b: Box, calls: seq<Call>, c1: seq<int>, c2: seq<int>)
    requires FitsAll(Kinds(s), vs) && |vs| >= 3 && es == EdgesOf(Kinds(s), vs) && line.Length == |vs|
    modifies line
    ensures ok == (FirstRejected(es) == |es|)
    ensures ok ==> line[..] == es && b == BoxOf(StartBox(vs), es) && calls == Outlines(s, es)
    ensures !ok ==> calls == Outlines(s, es[..FirstRejected(es)])
  {
    // TakeEdge and StoreLine carry what the loop needs of these.
    hide Outlines, BoxOf, FirstRejected, EdgesOf;
    NothingDecomposed(s, StartBox(vs), es);
    var n := |vs|;
    var ks := Kinds(s);
    b := StartBox(vs);
    calls := [];
    c1, c2 := [], [];
    for i := 0 to n
      invariant line[..i] == es[..i] && i <= FirstRejected(es)
      invariant b == BoxOf(StartBox(vs), es[..i])
      invariant calls == Outlines(s, es[..i])
    {
      var rejected;
      rejected, b, calls, c1, c2 := TakeEdge(s, vs, es, i, b, calls);
      if rejected {
        return false, b, calls, c1, c2;
      }
      StoreLine(ks, vs, es, line, i);
    }
    assert line[..] == line[..n] && es[..n] == es;
    ok := true;
  }

  /** One turn of the decomposition loop, but for filling in line[i]: the
      ends of edge i swapped into order, the rejection test, the box widened
      and the outline drawn. */
  method TakeEdge(s: Style, vs: seq<Vertex>, ghost es: seq<PLine>, i: nat, b: Box, calls: seq<Call>)
    returns (rejected: bool, b': Box, calls': seq<Call>, c1: seq<int>, c2: seq<int>)
    requires FitsAll(Kinds(s), vs) && es == EdgesOf(Kinds(s), vs) && 3 <= |vs|
    requires i < |vs| && i <= FirstRejected(es)
    requires b == BoxOf(StartBox(vs), es[..i]) && calls == Outlines(s, es[..i])
    ensures rejected == (FirstRejected(es) == i) &&
      (rejected ==> calls' == calls) &&
      (!rejected ==> i + 1 <= FirstRejected(es) && b' == BoxOf(StartBox(vs), es[..i + 1]) &&
                     calls' == Outlines(s, es[..i + 1]))
  {
    var t, u := OrderPair(vs[i], vs[Next(|vs|, i)]);
    c1, c2 := t.attrs, u.attrs;
    assert es[i].top == t && es[i].bottom == u;
    FirstRejectedStep(es, i);
    if t.y < 0 || t.x < 0 || u.x < 0 {
      return true, b, calls, c1, c2;
    }
    DecomposeStep(s, StartBox(vs), es, i);
    b' := WidenBox(b, t, u);
    rejected := false;
    calls' := calls + Outline(s, t, u);
  }

  /** Before the first edge: the starting box and no outline. */
  lemma NothingDecomposed(s: Style, b: Box, es: seq<PLine>)
    ensures BoxOf(b, es[..0]) == b && Outlines(s, es[..0]) == []
  {
    assert es[..0] == [];
  }

  /** line[i] := the edge from vertex i to the next. */
  method StoreLine(ks: seq<Kind>, vs: seq<Vertex>, ghost es: seq<PLine>, line: array<PLine>, i: nat)
    requires FitsAll(ks, vs) && es == EdgesOf(ks, vs) && i < |vs| == line.Length && line[..i] == es[..i]
    modifies line
    ensures line[..i + 1] == es[..i + 1]
  {
    line[i] := MakeLine(ks, vs[i], vs[Next(|vs|, i)]);
    PrefixSnoc(line[..], es, i);
  }

  lemma PrefixSnoc(a: seq<PLine>, b: seq<PLine>, i: nat)
    requires i < |a| && i < |b| && a[..i] == b[..i] && a[i] == b[i]
    ensures a[..i + 1] == b[..i + 1]
  {
    assert a[..i + 1] == a[..i] + [a[i]];
    assert b[..i + 1] == b[..i] + [b[i]];
  }

  /** The edge after the first i that are all accepted is the first rejected
      one exactly when it is rejected. */
  lemma FirstRejectedStep(es: seq<PLine>, i: nat)
    requires i < |es| && i <= FirstRejected(es)
    ensures FirstRejected(es) == i <==> Rejected(es[i])
    ensures !Rejected(es[i]) ==> i + 1 <= FirstRejected(es)
  {
  }

  /** One more edge widens the box and adds its outline. */
  lemma DecomposeStep(s: Style, b: Box, es: seq<PLine>, i: nat)
    requires i < |es|
    ensures BoxOf(b, es[..i + 1]) == Widen(BoxOf(b, es[..i]), es[i].top, es[i].bottom)
    ensures Outlines(s, es[..i + 1]) == Outlines(s, es[..i]) + Outline(s, es[i].top, es[i].bottom)
  {
    assert es[..i + 1][..i] == es[..i];
  }

  /** sge_FilledPolygonAlpha and its three siblings, on style s. */
  method FillPolygon(s: Style, vs: seq<Vertex>) returns (r: Outcome)
    requires FitsAll(Kinds(s), vs)
    ensures r == PolygonOutcome(s, vs)
  {
    var n := |vs|;
    if n < 3 {
      return Outcome(-1, [], None);
    }
    ghost var es := EdgesOf(Kinds(s), vs);
    var line := new PLine[n];
    var ok, b, calls, c1, c2 := Decompose(s, vs, es, line);
    OutcomeCases(s, vs, es);
    if !ok {
      return Outcome(-1, calls, None);
    }
    r := ScanBox(s, es, StartBox(vs), line, b, calls, c1, c2);
    AcceptedIsDone(s, es, b);
  }

  /** The accepted branch: scan the rows of the box the decomposition
      found, after the outline it drew. */
  method ScanBox(s: Style, ghost es: seq<PLine>, ghost start: Box, line: array<PLine>, b: Box, calls: seq<Call>, c1: seq<int>, c2: seq<int>)
    returns (r: Outcome)
    requires AllValid(es) && line[..] == es
    requires start.xmin <= start.xmax && start.ymin <= start.ymax && b == BoxOf(start, es)
    modifies line
    ensures r == Done(calls + Scan(s, es, b.ymin, b.ymax + 1), b)
  {
    BoxTops(start, es);
    var rows := ScanRows(s, es, line, b.ymin, b.ymax, c1, c2);
    r := Done(calls + rows, b);
  }

  lemma AcceptedIsDone(s: Style, es: seq<PLine>, b: Box)
    requires AllValid(es)
    ensures Accepted(s, es, b) == Done(Outlines(s, es) + Scan(s, es, b.ymin, b.ymax + 1), b)
  {
    hide Outlines, Scan, RowCalls;
  }

  /** PolygonOutcome for three or more vertices, branch by branch. */
  lemma OutcomeCases(s: Style, vs: seq<Vertex>, es: seq<PLine>)
    requires FitsAll(Kinds(s), vs) && |vs| >= 3 && es == EdgesOf(Kinds(s), vs)
    ensures FirstRejected(es) < |es| ==> PolygonOutcome(s, vs) == Outcome(-1, Outlines(s, es[..FirstRejected(es)]), None)
    ensures FirstRejected(es) == |es| ==> PolygonOutcome(s, vs) == Accepted(s, es, BoxOf(StartBox(vs), es))
  {
  }

  /** The scan loop over rows ymin to ymax, from the edges as the
      decomposition leaves them. */
  method ScanRows(s: Style, ghost es: seq<PLine>, line: array<PLine>, ymin: int, ymax: int, c1: seq<int>, c2: seq<int>)
    returns (calls: seq<Call>)
    requires AllValid(es) && line[..] == LinesAt(es, ymin) && ymin <= ymax
    modifies line
    ensures calls == Scan(s, es, ymin, ymax + 1)
  {
    // ScanStep carries what the loop needs to know about a row's calls.
    hide RowCalls;
    var c1, c2 := c1, c2;
    var sy := ymin;
    calls := [];
    while sy <= ymax
      invariant ymin <= sy <= ymax + 1
      invariant line[..] == LinesAt(es, sy)
      invariant calls == Scan(s, es, ymin, sy)
      decreases ymax - sy
    {
      var more;
      more, c1, c2 := ScanRow(s, es, line, sy, c1, c2);
      ScanStep(s, es, ymin, sy, calls, more);
      calls := calls + more;
      sy := sy + 1;
    }
  }

  /** One more row of the scan. */
  lemma ScanStep(s: Style, es: seq<PLine>, lo: int, y: int, calls: seq<Call>, more: seq<Call>)
    requires AllValid(es) && lo <= y
    requires calls == Scan(s, es, lo, y) && more == RowCalls(s, LinesAt(es, y + 1), y)
    ensures calls + more == Scan(s, es, lo, y + 1)
  {
  }

  // ---------------------------------------------------------------------
  // The scan loop as written counts rows in a Sint16 sy (see
  // FixedPoint.RowCounter). ScanRows counts with an unbounded integer.

  /** With ymax == 32767 the loop test sy <= ymax holds on every turn, and
      every 65536 turns the counter is back where it was: the loop as
      written scans the same rows over and over and never returns. */
  lemma ScanNeverEnds(ymin: Sint16, ymax: Sint16, k: nat)
    requires ymax == 32767
    ensures RowCounter(ymin, k) <= ymax
    ensures RowCounter(ymin, k + 65536) == RowCounter(ymin, k)
  {
    CounterCycles(ymin, k);
  }

  /** One turn of the scan loop: get_scanline on row y, and unless it
      returns no edge, the pairing loop. The colours left over from the turn
      before are handed on. */
  method ScanRow(s: Style, ghost es: seq<PLine>, line: array<PLine>, y: int, c1: seq<int>, c2: seq<int>)
    returns (calls: seq<Call>, c1': seq<int>, c2': seq<int>)
    requires AllValid(es) && line[..] == LinesAt(es, y)
    modifies line
    ensures line[..] == LinesAt(es, y + 1)
    ensures calls == RowCalls(s, LinesAt(es, y + 1), y)
  {
    var list := GetScanline(line, y);
    LinesAtStep(es, y);
    SelectedLinesAt(es, y, y);
    SelectedLinesAt(es, y + 1, y);
    assert list == Radix(XKeys(line[..]), Selected(line[..], y), 4);
    if list != [] {
      RowListIndexes(line[..], y);
      calls, c1', c2' := PairRow(s, line[..], list, y, c1, c2);
    } else {
      assert Crossings(line[..], RowList(line[..], y)) == [];
      calls, c1', c2' := [], c1, c2;
    }
  }

  /** The sorted list get_scanline returns names edges of the table. */
  lemma RowListIndexes(ls: seq<PLine>, y: int)
    requires AllValid(ls)
    ensures Indexes(ls, Radix(XKeys(ls), Selected(ls, y), 4))
  {
    var l := Radix(XKeys(ls), Selected(ls, y), 4);
    RadixMembers(XKeys(ls), Selected(ls, y), 4);
    forall j | 0 <= j < |l| ensures l[j] < |ls| {
      assert l[j] in Selected(ls, y);
    }
  }

  /** The rows the scan loop visits start at or above every edge. */
  lemma BoxTops(start: Box, es: seq<PLine>)
    requires AllValid(es) && start.xmin <= start.xmax && start.ymin <= start.ymax
    ensures BoxOf(start, es).ymin <= BoxOf(start, es).ymax
    ensures LinesAt(es, BoxOf(start, es).ymin) == es
  {
    BoxCoversEdges(start, es);
    LinesAtStart(es, BoxOf(start, es).ymin);
  }

  /** The box covers both ends of every edge it was widened by, and what the
      box it started from covered. */
  lemma {:induction false} BoxCoversEdges(b: Box, es: seq<PLine>)
    requires AllValid(es) && b.xmin <= b.xmax && b.ymin <= b.ymax
    ensures var r := BoxOf(b, es);
      r.xmin <= b.xmin && b.xmax <= r.xmax && r.ymin <= b.ymin && b.ymax <= r.ymax &&
      forall e | 0 <= e < |es| :: Covers(r, es[e].top) && Covers(r, es[e].bottom)
    decreases |es|
  {
    if es != [] {
      var init := es[..|es| - 1];
      BoxCoversEdges(b, init);
      forall e | 0 <= e < |init| ensures init[e] == es[e] {}
    }
  }

  method FilledPolygonAlpha(vs: seq<Vertex>, color: int, alpha: Uint8) returns (r: Outcome)
    requires FitsAll([], vs)
    ensures r == PolygonOutcome(FilledAlpha(color, alpha), vs)
  {
    r := FillPolygon(FilledAlpha(color, alpha), vs);
  }

  method AAFilledPolygon(vs: seq<Vertex>, color: int) returns (r: Outcome)
    requires FitsAll([], vs)
    ensures r == PolygonOutcome(AAFilled(color), vs)
  {
    r := FillPolygon(AAFilled(color), vs);
  }

  method FadedPolygonAlpha(vs: seq<Vertex>, alpha: Uint8) returns (r: Outcome)
    requires FitsAll(ColorKinds, vs)
    ensures r == PolygonOutcome(FadedAlpha(alpha), vs)
  {
    r := FillPolygon(FadedAlpha(alpha), vs);
  }

  method AAFadedPolygon(vs: seq<Vertex>) returns (r: Outcome)
    requires FitsAll(ColorKinds, vs)
    ensures r == PolygonOutcome(AAFaded, vs)
  {
    r := FillPolygon(AAFaded, vs);
  }
}
