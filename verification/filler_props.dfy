// What the polygon fillers promise: when they succeed, the rectangle they
// report is the bounding box of the vertices and every line they draw lies
// inside it; each row fills between consecutive crossings, left to right.
module FillerProperties {
  import opened FixedPoint
  import opened Edges
  import opened RadixSort
  import opened PolyEdges
  import opened Polygons
  import opened Fillers

  predicate NonNegative(vs: seq<Vertex>)
  {
    forall j | 0 <= j < |vs| :: 0 <= vs[j].x && 0 <= vs[j].y
  }

  /** Both ends of edge e are vertices of the polygon: e and the next one. */
  lemma EdgeEnds(ks: seq<Kind>, vs: seq<Vertex>, e: nat)
    requires FitsAll(ks, vs) && e < |vs|
    ensures var l := EdgesOf(ks, vs)[e];
      (l.top == vs[e] && l.bottom == vs[Next(|vs|, e)]) || (l.top == vs[Next(|vs|, e)] && l.bottom == vs[e])
    ensures EdgesOf(ks, vs)[e].top.y <= vs[e].y
  {
  }

  /** The decomposition loop rejects some edge exactly when some vertex has a
      negative coordinate. */
  lemma RejectsNegative(ks: seq<Kind>, vs: seq<Vertex>)
    requires FitsAll(ks, vs) && |vs| >= 1
    ensures FirstRejected(EdgesOf(ks, vs)) == |vs| <==> NonNegative(vs)
  {
    var es := EdgesOf(ks, vs);
    if NonNegative(vs) {
      forall e | 0 <= e < |es| ensures !Rejected(es[e]) {
        EdgeEnds(ks, vs, e);
      }
    } else {
      var j :| 0 <= j < |vs| && (vs[j].x < 0 || vs[j].y < 0);
      EdgeEnds(ks, vs, j);
      assert Rejected(es[j]);
    }
  }

  /** A filler returns 0 exactly for three or more vertices none of which has
      a negative coordinate, and -1 with no rectangle otherwise. */
  lemma StatusIff(s: Style, vs: seq<Vertex>)
    requires FitsAll(Kinds(s), vs)
    ensures PolygonOutcome(s, vs).status == 0 <==> |vs| >= 3 && NonNegative(vs)
    ensures PolygonOutcome(s, vs).status != 0 ==> PolygonOutcome(s, vs).status == -1 && PolygonOutcome(s, vs).dirty == None
    ensures PolygonOutcome(s, vs).status == 0 ==> PolygonOutcome(s, vs).dirty.Some?
  {
    if |vs| >= 3 {
      OutcomeCases(s, vs, EdgesOf(Kinds(s), vs));
      RejectsNegative(Kinds(s), vs);
    }
  }

  // ---------------------------------------------------------------------
  // The bounding box.

  /** Each side of the box passes through a vertex. */
  predicate Attained(b: Box, vs: seq<Vertex>)
  {
    (exists j | 0 <= j < |vs| :: vs[j].x == b.xmin) && (exists j | 0 <= j < |vs| :: vs[j].x == b.xmax) &&
    (exists j | 0 <= j < |vs| :: vs[j].y == b.ymin) && (exists j | 0 <= j < |vs| :: vs[j].y == b.ymax)
  }

  lemma {:induction false} BoxAttained(b: Box, es: seq<PLine>, vs: seq<Vertex>)
    requires Attained(b, vs)
    requires forall e | 0 <= e < |es| :: es[e].top in vs && es[e].bottom in vs
    ensures Attained(BoxOf(b, es), vs)
    decreases |es|
  {
    if es != [] {
      var init := es[..|es| - 1];
      forall e | 0 <= e < |init| ensures init[e].top in vs && init[e].bottom in vs {
        assert init[e] == es[e];
      }
      BoxAttained(b, init, vs);
      var t, u := es[|es| - 1].top, es[|es| - 1].bottom;
      var i :| 0 <= i < |vs| && vs[i] == t;
      var k :| 0 <= k < |vs| && vs[k] == u;
    }
  }

  /** The box of an accepted polygon covers every vertex, and each of its
      sides passes through one. */
  lemma BoxIsBounding(ks: seq<Kind>, vs: seq<Vertex>)
    requires FitsAll(ks, vs) && |vs| >= 3
    ensures var b := BoxOf(StartBox(vs), EdgesOf(ks, vs));
      b.xmin <= b.xmax && b.ymin <= b.ymax &&
      (forall j | 0 <= j < |vs| :: Covers(b, vs[j])) && Attained(b, vs)
  {
    var es := EdgesOf(ks, vs);
    var b := BoxOf(StartBox(vs), es);
    BoxCoversEdges(StartBox(vs), es);
    forall j | 0 <= j < |vs| ensures Covers(b, vs[j]) {
      EdgeEnds(ks, vs, j);
    }
    forall e | 0 <= e < |es| ensures es[e].top in vs && es[e].bottom in vs {
      EdgeEnds(ks, vs, e);
    }
    assert Attained(StartBox(vs), vs) by {
      assert vs[1].x == StartBox(vs).xmin;
    }
    BoxAttained(StartBox(vs), es, vs);
  }

  /** The rectangle a filler reports on success is the bounding box of the
      vertices: it holds them all, each of its sides passes through one, and
      it is at least one pixel wide and high. */
  lemma DirtyIsBoundingBox(s: Style, vs: seq<Vertex>)
    requires FitsAll(Kinds(s), vs) && PolygonOutcome(s, vs).status == 0
    ensures PolygonOutcome(s, vs).dirty.Some?
    ensures var r := PolygonOutcome(s, vs).dirty.value;
      r.w >= 1 && r.h >= 1 &&
      (forall j | 0 <= j < |vs| :: InRect(r, vs[j].x, vs[j].y)) &&
      (exists j | 0 <= j < |vs| :: vs[j].x == r.x) && (exists j | 0 <= j < |vs| :: vs[j].x == r.x + r.w - 1) &&
      (exists j | 0 <= j < |vs| :: vs[j].y == r.y) && (exists j | 0 <= j < |vs| :: vs[j].y == r.y + r.h - 1)
  {
    // Only the rectangle matters here, not the calls.
    hide Scan, RowCalls, Outlines;
    StatusIff(s, vs);
    var es := EdgesOf(Kinds(s), vs);
    OutcomeCases(s, vs, es);
    RejectsNegative(Kinds(s), vs);
    BoxIsBounding(Kinds(s), vs);
    var b := BoxOf(StartBox(vs), es);
    assert PolygonOutcome(s, vs).dirty == Some(RectOf(b));
    RectBounds(b, vs);
  }

  lemma RectBounds(b: Box, vs: seq<Vertex>)
    requires b.xmin <= b.xmax && b.ymin <= b.ymax
    requires (forall j | 0 <= j < |vs| :: Covers(b, vs[j])) && Attained(b, vs)
    ensures var r := RectOf(b);
      r.w >= 1 && r.h >= 1 &&
      (forall j | 0 <= j < |vs| :: InRect(r, vs[j].x, vs[j].y)) &&
      (exists j | 0 <= j < |vs| :: vs[j].x == r.x) && (exists j | 0 <= j < |vs| :: vs[j].x == r.x + r.w - 1) &&
      (exists j | 0 <= j < |vs| :: vs[j].y == r.y) && (exists j | 0 <= j < |vs| :: vs[j].y == r.y + r.h - 1)
  {
  }

  // ---------------------------------------------------------------------
  // Every call inside the rectangle.

  /** The ends of a call lie in r; a fill without alpha also runs left to
      right. */
  predicate CallIn(c: Call, r: Rect)
  {
    match c
    case DrawLine(x1, y1, x2, y2, _) => InRect(r, x1, y1) && InRect(r, x2, y2)
    case DrawAALine(x1, y1, x2, y2, _) => InRect(r, x1, y1) && InRect(r, x2, y2)
    case DrawDomcLine(x1, y1, x2, y2, _, _) => InRect(r, x1, y1) && InRect(r, x2, y2)
    case DrawAAmcLine(x1, y1, x2, y2, _, _) => InRect(r, x1, y1) && InRect(r, x2, y2)
    case DrawHLine(x1, x2, y, _) => x1 <= x2 && InRect(r, x1, y) && InRect(r, x2, y)
    case DrawHLineAlpha(x1, x2, y, _, _) => InRect(r, x1, y) && InRect(r, x2, y)
    case DrawFadedLine(x1, x2, y, _, _) => x1 <= x2 && InRect(r, x1, y) && InRect(r, x2, y)
    case DrawDomcAlphaLine(x1, x2, y, _, _, _) => InRect(r, x1, y) && InRect(r, x2, y)
  }

  lemma {:induction false} OutlinesIn(s: Style, es: seq<PLine>, b: Box)
    requires forall e | 0 <= e < |es| :: Covers(b, es[e].top) && Covers(b, es[e].bottom)
    ensures forall c | c in Outlines(s, es) :: CallIn(c, RectOf(b))
    decreases |es|
  {
    if es != [] {
      var init := es[..|es| - 1];
      forall e | 0 <= e < |init| ensures Covers(b, init[e].top) && Covers(b, init[e].bottom) {
        assert init[e] == es[e];
      }
      OutlinesIn(s, init, b);
    }
  }

  /** Every crossing handed to the pairing loop on a row lies between the
      least and greatest x of the vertices. */
  lemma RowCrossingsIn(ks: seq<Kind>, vs: seq<Vertex>, y: int, lo: int, hi: int)
    requires FitsAll(ks, vs)
    requires forall j | 0 <= j < |vs| :: lo <= vs[j].x <= hi
    ensures var ls := LinesAt(EdgesOf(ks, vs), y + 1);
      InX(Crossings(ls, RowList(ls, y)), lo, hi)
  {
    var es := EdgesOf(ks, vs);
    var ls := LinesAt(es, y + 1);
    var sel := Selected(ls, y);
    var l := Radix(XKeys(ls), sel, 4);
    var d := RowList(ls, y);
    var xs := Crossings(ls, d);
    RadixMembers(XKeys(ls), sel, 4);
    RowListIndexes(ls, y);
    DedupKeeps(ls, l, y);
    forall j | 0 <= j < |xs| ensures lo <= xs[j].x <= hi {
      var e := d[j];
      assert e in l;
      CrossingIn(ks, vs, e, y);
    }
  }

  /** The x an active edge hands out on row y lies between its ends' x. */
  lemma CrossingIn(ks: seq<Kind>, vs: seq<Vertex>, e: nat, y: int)
    requires FitsAll(ks, vs) && e < |vs|
    requires e in Selected(LinesAt(EdgesOf(ks, vs), y + 1), y)
    ensures var l := LinesAt(EdgesOf(ks, vs), y + 1)[e];
      Min(vs[e].x, vs[Next(|vs|, e)].x) <= l.out[0] <= Max(vs[e].x, vs[Next(|vs|, e)].x)
  {
    var es := EdgesOf(ks, vs);
    var ls := LinesAt(es, y + 1);
    assert ls[e] == LineAfter(es[e], Rows(es[e], y + 1));
    assert Active(es[e], y);
    CrossingX(ks, vs[e], vs[Next(|vs|, e)], y);
  }

  /** The pen's x1 is unset or one past a crossing, its x2 unset or a
      crossing. */
  predicate PenWithin(p: Pen, lo: int, hi: int)
  {
    (p.x1 < 0 || lo + 1 <= p.x1 <= hi + 1) && (p.x2 < 0 || lo <= p.x2 <= hi)
  }

  predicate FillWithin(skip: bool, f: Fill, lo: int, hi: int)
  {
    lo + 1 <= f.x1 <= hi + 1 && lo <= f.x2 <= hi && (skip ==> f.x1 <= f.x2)
  }

  lemma FeedWithin(skip: bool, p: Pen, k: Crossing, lo: int, hi: int)
    requires 0 <= lo <= k.x <= hi <= 32767 && PenWithin(p, lo, hi)
    ensures PenWithin(Feed(skip, p, k).0, lo, hi)
    ensures forall f | f in Feed(skip, p, k).1 :: FillWithin(skip, f, lo, hi)
  {
    if k.x == 32767 {
      assert ToS16(k.x + 1) == -32768;
    }
  }

  /** Whatever the crossings, the fills of the pairing loop start one past a
      crossing and end on one; with skip on they run left to right. */
  lemma {:induction false} RunWithin(skip: bool, xs: seq<Crossing>, p: Pen, lo: int, hi: int)
    requires InX(xs, lo, hi) && 0 <= lo && hi <= 32767 && PenWithin(p, lo, hi)
    ensures PenWithin(Run(skip, xs, p).0, lo, hi)
    ensures forall f | f in Run(skip, xs, p).1 :: FillWithin(skip, f, lo, hi)
    decreases |xs|
  {
    if xs != [] {
      var init := xs[..|xs| - 1];
      assert InX(init, lo, hi) by {
        forall j | 0 <= j < |init| ensures lo <= init[j].x <= hi {
          assert init[j] == xs[j];
        }
      }
      RunWithin(skip, init, p, lo, hi);
      FeedWithin(skip, Run(skip, init, p).0, xs[|xs| - 1], lo, hi);
    }
  }

  lemma FillCallsIn(s: Style, fs: seq<Fill>, y: int, b: Box)
    requires b.ymin <= y <= b.ymax
    requires forall f | f in fs :: FillWithin(Opaque(s), f, b.xmin, b.xmax)
    ensures forall c | c in FillCalls(s, fs, y) :: CallIn(c, RectOf(b))
  {
    forall j | 0 <= j < |fs| ensures CallIn(FillCalls(s, fs, y)[j], RectOf(b)) {
      assert fs[j] in fs;
    }
  }

  /** Every call of row y lies in the box, when the box holds the vertices
      and y is one of its rows. */
  lemma RowIn(s: Style, vs: seq<Vertex>, b: Box, y: int)
    requires FitsAll(Kinds(s), vs) && 0 <= b.xmin && b.xmax <= 32767 && b.ymin <= y <= b.ymax
    requires forall j | 0 <= j < |vs| :: Covers(b, vs[j])
    ensures forall c | c in RowCalls(s, LinesAt(EdgesOf(Kinds(s), vs), y + 1), y) :: CallIn(c, RectOf(b))
  {
    var ls := LinesAt(EdgesOf(Kinds(s), vs), y + 1);
    var xs := Crossings(ls, RowList(ls, y));
    RowCrossingsIn(Kinds(s), vs, y, b.xmin, b.xmax);
    RunWithin(Opaque(s), xs, Idle, b.xmin, b.xmax);
    FillCallsIn(s, Run(Opaque(s), xs, Idle).1, y, b);
  }

  lemma {:induction false} ScanIn(s: Style, vs: seq<Vertex>, b: Box, lo: int, hi: int)
    requires FitsAll(Kinds(s), vs) && 0 <= b.xmin && b.xmax <= 32767 && b.ymin <= lo && hi <= b.ymax + 1
    requires forall j | 0 <= j < |vs| :: Covers(b, vs[j])
    ensures forall c | c in Scan(s, EdgesOf(Kinds(s), vs), lo, hi) :: CallIn(c, RectOf(b))
    decreases hi - lo
  {
    if hi > lo {
      ScanIn(s, vs, b, lo, hi - 1);
      RowIn(s, vs, b, hi - 1);
    }
  }

  /** Every line a filler draws, outline and fill alike, lies inside the
      rectangle it reports; the fills that skip reversed pairs run left to
      right. */
  lemma CallsInDirtyRect(s: Style, vs: seq<Vertex>)
    requires FitsAll(Kinds(s), vs) && PolygonOutcome(s, vs).status == 0
    ensures PolygonOutcome(s, vs).dirty.Some?
    ensures forall c | c in PolygonOutcome(s, vs).calls :: CallIn(c, PolygonOutcome(s, vs).dirty.value)
  {
    StatusIff(s, vs);
    var es := EdgesOf(Kinds(s), vs);
    OutcomeCases(s, vs, es);
    RejectsNegative(Kinds(s), vs);
    var b := BoxOf(StartBox(vs), es);
    AcceptedIsDone(s, es, b);
    AcceptedIn(s, vs, es, b);
    DoneIn(Outlines(s, es) + Scan(s, es, b.ymin, b.ymax + 1), b);
  }

  lemma AcceptedIn(s: Style, vs: seq<Vertex>, es: seq<PLine>, b: Box)
    requires FitsAll(Kinds(s), vs) && |vs| >= 3 && NonNegative(vs)
    requires es == EdgesOf(Kinds(s), vs) && b == BoxOf(StartBox(vs), es)
    ensures forall c | c in Outlines(s, es) + Scan(s, es, b.ymin, b.ymax + 1) :: CallIn(c, RectOf(b))
  {
    BoxFacts(Kinds(s), vs, es, b);
    OutlinesIn(s, es, b);
    ScanIn(s, vs, b, b.ymin, b.ymax + 1);
    ConcatIn(Outlines(s, es), Scan(s, es, b.ymin, b.ymax + 1), RectOf(b));
  }

  /** The box of an accepted polygon lies within columns 0 to 32767 and
      holds both ends of every edge. */
  lemma BoxFacts(ks: seq<Kind>, vs: seq<Vertex>, es: seq<PLine>, b: Box)
    requires FitsAll(ks, vs) && |vs| >= 3 && NonNegative(vs)
    requires es == EdgesOf(ks, vs) && b == BoxOf(StartBox(vs), es)
    ensures 0 <= b.xmin && b.xmax <= 32767 && b.ymin <= b.ymax
    ensures forall j | 0 <= j < |vs| :: Covers(b, vs[j])
    ensures forall e | 0 <= e < |es| :: Covers(b, es[e].top) && Covers(b, es[e].bottom)
  {
    BoxIsBounding(ks, vs);
    forall e | 0 <= e < |es| ensures Covers(b, es[e].top) && Covers(b, es[e].bottom) {
      EdgeEnds(ks, vs, e);
    }
    var j :| 0 <= j < |vs| && vs[j].x == b.xmin;
    var k :| 0 <= k < |vs| && vs[k].x == b.xmax;
  }

  lemma DoneIn(calls: seq<Call>, b: Box)
    requires forall c | c in calls :: CallIn(c, RectOf(b))
    ensures forall c | c in Done(calls, b).calls :: CallIn(c, Done(calls, b).dirty.value)
  {
  }

  lemma ConcatIn(a: seq<Call>, b: seq<Call>, r: Rect)
    requires forall c | c in a :: CallIn(c, r)
    requires forall c | c in b :: CallIn(c, r)
    ensures forall c | c in a + b :: CallIn(c, r)
  {
  }

  // ---------------------------------------------------------------------
  // The fills of a row.

  /** On every row of a polygon with no negative coordinate, the crossings
      the pairing loop sees are sorted by x; when no vertex lies in column
      32767 the loop fills between the first and second crossing, the third
      and fourth, and so on. */
  lemma RowFillsPairs(s: Style, vs: seq<Vertex>, y: int)
    requires FitsAll(Kinds(s), vs) && NonNegative(vs)
    ensures var ls := LinesAt(EdgesOf(Kinds(s), vs), y + 1);
      var xs := Crossings(ls, RowList(ls, y));
      (forall a, b | 0 <= a < b < |xs| :: xs[a].x <= xs[b].x) &&
      ((forall j | 0 <= j < |vs| :: vs[j].x < 32767) ==> RowCalls(s, ls, y) == FillCalls(s, PairsOf(Opaque(s), xs), y))
  {
    var ks := Kinds(s);
    var ls := LinesAt(EdgesOf(ks, vs), y + 1);
    var sel := Selected(ls, y);
    var keys := XKeys(ls);
    var l := Radix(keys, sel, 4);
    var d := RowList(ls, y);
    var xs := Crossings(ls, d);
    forall j | 0 <= j < |sel| ensures 0 <= Key(keys, sel[j]) < 0x1_0000 {
      CrossingIn(ks, vs, sel[j], y);
    }
    SortedByX(keys, sel);
    RowListIndexes(ls, y);
    DedupSorted(ls, l, y, keys);
    forall a, b | 0 <= a < b < |xs| ensures xs[a].x <= xs[b].x {
      assert xs[a].x == Key(keys, d[a]) && xs[b].x == Key(keys, d[b]);
    }
    if forall j | 0 <= j < |vs| :: vs[j].x < 32767 {
      RowCrossingsIn(ks, vs, y, 0, 32766);
      RunPairs(Opaque(s), xs, [], []);
    }
  }

  predicate SortedX(xs: seq<Crossing>)
  {
    forall a, b | 0 <= a < b < |xs| :: xs[a].x <= xs[b].x
  }

  /** Each fill runs from one past its left crossing to its right crossing,
      and the fills follow one another from left to right without
      overlapping. */
  predicate LeftToRight(fs: seq<Fill>)
  {
    (forall j | 0 <= j < |fs| :: fs[j].x1 - 1 <= fs[j].x2) &&
    (forall i, j | 0 <= i < j < |fs| :: fs[i].x2 < fs[j].x1)
  }

  /** Each fill lies between crossings lo and hi. */
  predicate FillsBetween(fs: seq<Fill>, lo: int, hi: int)
  {
    forall j | 0 <= j < |fs| :: lo <= fs[j].x1 - 1 && fs[j].x2 <= hi
  }

  /** For crossings sorted by x, the fills run left to right between the
      first and the last crossing. */
  lemma {:induction false} PairsOrdered(skip: bool, xs: seq<Crossing>)
    requires SortedX(xs)
    ensures LeftToRight(PairsOf(skip, xs))
    ensures xs != [] ==> FillsBetween(PairsOf(skip, xs), xs[0].x, xs[|xs| - 1].x)
    decreases |xs|
  {
    if |xs| >= 2 {
      var k := if |xs| % 2 == 1 then |xs| - 1 else |xs| - 2;
      var init := xs[..k];
      assert SortedX(init) by {
        forall a, b | 0 <= a < b < |init| ensures init[a].x <= init[b].x {
          assert init[a] == xs[a] && init[b] == xs[b];
        }
      }
      PairsOrdered(skip, init);
      var fs0 := PairsOf(skip, init);
      if k > 0 {
        assert init[0] == xs[0] && init[k - 1] == xs[k - 1];
        assert FillsBetween(fs0, xs[0].x, xs[|xs| - 1].x);
      } else {
        assert fs0 == [];
      }
      if |xs| % 2 == 0 {
        var a, b := xs[|xs| - 2], xs[|xs| - 1];
        var last := if skip && b.x - (a.x + 1) < 0 then [] else [Fill(a.x + 1, b.x, a.c, b.c)];
        assert PairsOf(skip, xs) == fs0 + last;
        ConcatLeftToRight(fs0, last, a.x);
      } else {
        assert PairsOf(skip, xs) == fs0;
      }
    }
  }

  lemma ConcatLeftToRight(fs: seq<Fill>, last: seq<Fill>, x: int)
    requires LeftToRight(fs) && LeftToRight(last) && |last| <= 1
    requires forall j | 0 <= j < |fs| :: fs[j].x2 <= x
    requires forall j | 0 <= j < |last| :: x < last[j].x1
    ensures LeftToRight(fs + last)
  {
  }
}
