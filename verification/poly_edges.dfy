// The edges of a polygon as the filler keeps them: one record per edge,
// updated in place row by row while the scan passes over it, the list of
// edges crossing a scanline, and the removal of doubled crossings at a
// vertex shared by an edge that ends and an edge that starts there.
//
// The source's pline carries x alone; its subclass fpline adds the three
// colour channels. Both are one record here, told apart by their attribute
// kinds: [] for pline, ColorKinds for fpline.
module PolyEdges {
  import opened FixedPoint
  import opened Scanline
  import opened Edges
  import opened RadixSort

  /** An edge: its upper end (y1, x1 and the colours r1, g1, b1), its lower
      end, the 16.16 accumulators fx (and fr, fg, fb), their per-row steps
      fm (and fmr, fmg, fmb), and the values last handed out, x (and r, g, b). */
  datatype PLine = PLine(ks: seq<Kind>, top: Vertex, bottom: Vertex, acc: seq<int>, steps: seq<int>, out: seq<int>)

  predicate Valid(l: PLine)
  {
    Fits(l.ks, l.top) && Fits(l.ks, l.bottom) && l.top.y <= l.bottom.y &&
    |l.acc| == |l.ks| + 1 && |l.steps| == |l.ks| + 1 && |l.out| == |l.ks| + 1
  }

  predicate AllValid(ls: seq<PLine>)
  {
    forall e | 0 <= e < |ls| :: Valid(ls[e])
  }

  predicate Flat(l: PLine)
  {
    l.top.y == l.bottom.y
  }

  function Zeros(n: nat): (r: seq<int>)
    ensures |r| == n && forall c | 0 <= c < n :: r[c] == 0
  {
    seq(n, _ => 0)
  }

  /** The values an update hands out: x as Sint16(fx >> 16), each colour as
      Uint8(f >> 16). */
  function Outs(ks: seq<Kind>, acc: seq<int>): (r: seq<int>)
    requires |acc| == |ks| + 1
    ensures |r| == |acc|
  {
    seq(|acc|, c requires 0 <= c < |acc| => KindOut(ChannelKind(ks, c), acc[c]))
  }

  /** update(): hand out the integer parts of the accumulators, then step
      every accumulator once. */
  function Update(l: PLine): (r: PLine)
    requires Valid(l)
    ensures Valid(r)
  {
    l.(out := Outs(l.ks, l.acc), acc := StepOnce(l.acc, l.steps))
  }

  /** The edge from a to b as the decomposition loop fills it in: the ends
      swapped so that the first is the upper one, the accumulators at the
      upper end, and the steps ((b - a) << 16) / (y2 - y1), or 0 on a flat
      edge. The values handed out are not set before the first update. */
  function MakeLine(ks: seq<Kind>, a: Vertex, b: Vertex): (l: PLine)
    requires Fits(ks, a) && Fits(ks, b)
    ensures Valid(l)
  {
    var (t, u) := SwapIfBelow(a, b);
    PLine(ks, t, u, EdgeStart(ks, t), if t.y == u.y then Zeros(|ks| + 1) else EdgeStep(ks, t, u), Zeros(|ks| + 1))
  }

  /** The test that rejects a polygon: an edge whose upper end lies above
      row 0 or whose ends lie left of column 0. */
  predicate Rejected(l: PLine)
  {
    l.top.y < 0 || l.top.x < 0 || l.bottom.x < 0
  }

  /** get_scanline's test: the edge crosses row y and is not flat. */
  predicate Active(l: PLine, y: int)
  {
    l.top.y <= y <= l.bottom.y && l.top.y != l.bottom.y
  }

  /** The edge after k updates. */
  function LineAfter(l: PLine, k: nat): (r: PLine)
    requires Valid(l)
    ensures Valid(r)
    ensures r.ks == l.ks && r.top == l.top && r.bottom == l.bottom && r.steps == l.steps
  {
    if k == 0 then l else Update(LineAfter(l, k - 1))
  }

  /** How many updates the edge has had when the scan reaches row y: one for
      every earlier row it crosses. */
  function Rows(l: PLine, y: int): nat
    requires l.top.y <= l.bottom.y
  {
    if Flat(l) || y <= l.top.y then 0
    else if y > l.bottom.y + 1 then l.bottom.y - l.top.y + 1
    else y - l.top.y
  }

  // ---------------------------------------------------------------------
  // An edge row by row.

  /** After k updates the accumulators have taken k steps, and the values
      handed out are those of the accumulators one step earlier. */
  lemma {:induction false} LineAfterAcc(l: PLine, k: nat)
    requires Valid(l)
    ensures LineAfter(l, k).acc == Advance(l.acc, l.steps, k)
    ensures k > 0 ==> LineAfter(l, k).out == Outs(l.ks, Advance(l.acc, l.steps, k - 1))
  {
    if k > 0 {
      LineAfterAcc(l, k - 1);
    }
  }

  /** Every row the edge crosses adds one update, every other row none. */
  lemma RowsStep(l: PLine, y: int)
    requires l.top.y <= l.bottom.y
    ensures Rows(l, y + 1) == Rows(l, y) + (if Active(l, y) then 1 else 0)
  {
  }

  /** On every row an edge crosses, the x it hands out is that of its
      accumulator `(x1 << 16) + k * fm` after k = y - y1 steps, and lies
      between the x of its two ends. */
  lemma CrossingX(ks: seq<Kind>, a: Vertex, b: Vertex, y: int)
    requires Fits(ks, a) && Fits(ks, b) && Active(MakeLine(ks, a, b), y)
    ensures var l := MakeLine(ks, a, b);
      var x := LineAfter(l, Rows(l, y + 1)).out[0];
      x == Shr16(FixAt(l.top.x, l.bottom.x, l.bottom.y - l.top.y, y - l.top.y)) &&
      Min(a.x, b.x) <= x <= Max(a.x, b.x)
  {
    var l := MakeLine(ks, a, b);
    var t, u := l.top, l.bottom;
    var k := y - t.y;
    assert Rows(l, y + 1) == k + 1;
    LineAfterAcc(l, k + 1);
    var v := Advance(l.acc, l.steps, k);
    AdvanceAt(l.acc, l.steps, k, 0);
    assert v[0] == FixAt(t.x, u.x, u.y - t.y, k);
    FixAtBetween(t.x, u.x, u.y - t.y, k);
    assert LineAfter(l, k + 1).out[0] == ToS16(Shr16(v[0]));
  }

  /** On a shaded edge every colour handed out lies between the colours of
      the edge's two ends. */
  lemma CrossingColour(a: Vertex, b: Vertex, y: int, c: int)
    requires Fits(ColorKinds, a) && Fits(ColorKinds, b) && Active(MakeLine(ColorKinds, a, b), y)
    requires 1 <= c <= 3 && 0 <= a.attrs[c - 1] < 256 && 0 <= b.attrs[c - 1] < 256
    ensures var l := MakeLine(ColorKinds, a, b);
      var r := LineAfter(l, Rows(l, y + 1)).out[c];
      Min(a.attrs[c - 1], b.attrs[c - 1]) <= r <= Max(a.attrs[c - 1], b.attrs[c - 1])
  {
    // LineAfterAcc and AdvanceAt give the accumulator this needs.
    hide Advance, LineAfter;
    var l := MakeLine(ColorKinds, a, b);
    var t, u := l.top, l.bottom;
    var k := y - t.y;
    assert Rows(l, y + 1) == k + 1;
    LineAfterAcc(l, k + 1);
    var v := Advance(l.acc, l.steps, k);
    AdvanceAt(l.acc, l.steps, k, c);
    assert ChannelKind(ColorKinds, c) == Color;
    assert v[c] == FixAt(t.attrs[c - 1], u.attrs[c - 1], u.y - t.y, k);
    FixAtBetween(t.attrs[c - 1], u.attrs[c - 1], u.y - t.y, k);
    assert LineAfter(l, k + 1).out[c] == ToU8(Shr16(v[c]));
  }

  // ---------------------------------------------------------------------
  // The edges crossing a scanline.

  /** The edges the scan has updated up to row y: edge e after Rows updates. */
  function LinesAt(es: seq<PLine>, y: int): (r: seq<PLine>)
    requires AllValid(es)
    ensures |r| == |es| && AllValid(r)
  {
    seq(|es|, e requires 0 <= e < |es| => LineAfter(es[e], Rows(es[e], y)))
  }

  /** The numbers of the edges crossing row y, in array order. */
  function Selected(ls: seq<PLine>, y: int): (r: seq<nat>)
    ensures forall j | 0 <= j < |r| :: r[j] < |ls| && Active(ls[r[j]], y)
    ensures forall e | 0 <= e < |ls| && Active(ls[e], y) :: e in r
    ensures Increasing(r)
  {
    if ls == [] then []
    else
      var init := Selected(ls[..|ls| - 1], y);
      assert forall e | 0 <= e < |ls| - 1 :: ls[..|ls| - 1][e] == ls[e];
      init + (if Active(ls[|ls| - 1], y) then [|ls| - 1] else [])
  }

  /** The x every edge last handed out: the sort key of an edge. */
  function XKeys(ls: seq<PLine>): (r: seq<int>)
    requires AllValid(ls)
    ensures |r| == |ls|
  {
    seq(|ls|, e requires 0 <= e < |ls| => ls[e].out[0])
  }

  /** The edges after get_scanline on row y: the ones crossing it updated. */
  function StepRow(ls: seq<PLine>, y: int): (r: seq<PLine>)
    requires AllValid(ls)
    ensures |r| == |ls| && AllValid(r)
  {
    seq(|ls|, e requires 0 <= e < |ls| => if Active(ls[e], y) then Update(ls[e]) else ls[e])
  }

  /** get_scanline: collect the edges crossing row y in array order,
      updating each, then radix-sort them by x. */
  method GetScanline(line: array<PLine>, y: int) returns (list: seq<nat>)
    requires AllValid(line[..])
    modifies line
    ensures line[..] == StepRow(old(line[..]), y)
    ensures list == Radix(XKeys(line[..]), Selected(old(line[..]), y), 4)
  {
    // SelectedSnoc carries what the loop needs of the selection.
    hide Selected;
    ghost var ls := line[..];
    SelectedSnoc(ls, 0, y);
    ghost var stepped := StepRow(ls, y);
    list := [];
    for i := 0 to line.Length
      invariant forall e | 0 <= e < i :: line[e] == stepped[e]
      invariant forall e | i <= e < line.Length :: line[e] == ls[e]
      invariant list == Selected(ls[..i], y)
    {
      SelectedSnoc(ls, i, y);
      if Active(line[i], y) {
        list := list + [i];
        line[i] := Update(line[i]);
      }
    }
    assert ls[..line.Length] == ls;
    assert line[..] == StepRow(ls, y);
    list := RSort(XKeys(line[..]), list);
  }

  /** The collection loop's selection: none before the first edge, and one
      more edge at a time. */
  lemma SelectedSnoc(ls: seq<PLine>, i: nat, y: int)
    requires i <= |ls|
    ensures Selected(ls[..0], y) == []
    ensures i < |ls| ==> Selected(ls[..i + 1], y) == Selected(ls[..i], y) + if Active(ls[i], y) then [i] else []
  {
    assert ls[..0] == [];
    if i < |ls| {
      assert ls[..i + 1][..i] == ls[..i];
    }
  }

  /** Updating the edges of row y leaves the set of edges crossing it alone. */
  lemma SelectedStepRow(ls: seq<PLine>, y: int, y': int)
    requires AllValid(ls)
    ensures Selected(StepRow(ls, y), y') == Selected(ls, y')
  {
    var s := StepRow(ls, y);
    SelectedAgree(s, ls, y');
  }

  lemma {:induction false} SelectedAgree(s: seq<PLine>, ls: seq<PLine>, y: int)
    requires |s| == |ls|
    requires forall e | 0 <= e < |ls| :: s[e].top == ls[e].top && s[e].bottom == ls[e].bottom
    ensures Selected(s, y) == Selected(ls, y)
    decreases |ls|
  {
    if ls != [] {
      SelectedAgree(s[..|s| - 1], ls[..|ls| - 1], y);
    }
  }

  /** The scan moves from row y to row y + 1 by one get_scanline. */
  lemma LinesAtStep(es: seq<PLine>, y: int)
    requires AllValid(es)
    ensures StepRow(LinesAt(es, y), y) == LinesAt(es, y + 1)
  {
    forall e | 0 <= e < |es|
      ensures StepRow(LinesAt(es, y), y)[e] == LinesAt(es, y + 1)[e]
    {
      RowsStep(es[e], y);
    }
  }

  /** Before the first row of the scan no edge has been updated. */
  lemma LinesAtStart(es: seq<PLine>, y: int)
    requires AllValid(es)
    requires forall e | 0 <= e < |es| :: y <= es[e].top.y
    ensures LinesAt(es, y) == es
  {
  }

  /** The updated edges keep their ends, so they cross the same rows. */
  lemma SelectedLinesAt(es: seq<PLine>, y: int, y': int)
    requires AllValid(es)
    ensures Selected(LinesAt(es, y), y') == Selected(es, y')
  {
    SelectedAgree(LinesAt(es, y), es, y');
  }

  // ---------------------------------------------------------------------
  // Doubled crossings.

  /** remove_dup's test: both edges have an end on row y, and on one it is
      the upper end and on the other the lower one. */
  predicate Dup(a: PLine, b: PLine, y: int)
  {
    (y == a.top.y || y == a.bottom.y) && (y == b.top.y || y == b.bottom.y) &&
    (if y == a.top.y then -1 else 1) != (if y == b.top.y then -1 else 1)
  }

  predicate Indexes(ls: seq<PLine>, l: seq<nat>)
  {
    forall j | 0 <= j < |l| :: l[j] < |ls|
  }

  /** The list as the pairing loop walks it: remove_dup on each edge in
      turn unlinks the following edge when the two are a doubled crossing,
      and the walk goes on at the edge after the one unlinked. */
  function Dedup(ls: seq<PLine>, l: seq<nat>, y: int): (r: seq<nat>)
    requires Indexes(ls, l)
    ensures Indexes(ls, r)
    decreases |l|
  {
    if |l| < 2 then l
    else if Dup(ls[l[0]], ls[l[1]], y) then [l[0]] + Dedup(ls, l[2..], y)
    else [l[0]] + Dedup(ls, l[1..], y)
  }

  /** remove_dup on the edge at position i of the list: unlink the next
      edge when the two are a doubled crossing. What is left of the walk
      from position i on is the edge at i followed by the walk from i + 1. */
  method RemoveDup(ls: seq<PLine>, l: seq<nat>, i: nat, y: int) returns (l': seq<nat>)
    requires Indexes(ls, l) && i < |l|
    ensures Indexes(ls, l') && i < |l'| <= |l| && l'[..i + 1] == l[..i + 1]
    ensures l'[..i] == l[..i] && l'[i] == l[i]
    ensures Dedup(ls, l[i..], y) == [l[i]] + Dedup(ls, l'[i + 1..], y)
  {
    l' := l;
    if i + 1 < |l| && Dup(ls[l[i]], ls[l[i + 1]], y) {
      l' := l[..i + 1] + l[i + 2..];
      assert l'[i + 1..] == l[i..][2..];
    } else {
      assert l'[i + 1..] == l[i..][1..];
    }
  }

  /** The walk so far followed by the walk over the rest is the walk over
      the whole list, one position further on. */
  lemma DedupWalk(ls: seq<PLine>, list: seq<nat>, l: seq<nat>, l': seq<nat>, i: nat, y: int)
    requires Indexes(ls, list) && Indexes(ls, l) && Indexes(ls, l') && i < |l| && i < |l'|
    requires l[..i] + Dedup(ls, l[i..], y) == Dedup(ls, list, y)
    requires l'[..i + 1] == l[..i + 1] && Dedup(ls, l[i..], y) == [l[i]] + Dedup(ls, l'[i + 1..], y)
    ensures l'[..i + 1] + Dedup(ls, l'[i + 1..], y) == Dedup(ls, list, y)
  {
    assert l'[..i + 1] == l[..i] + [l[i]];
    Regroup(l[..i], l[i], Dedup(ls, l'[i + 1..], y), l'[..i + 1], Dedup(ls, list, y));
  }

  lemma Regroup(a: seq<nat>, x: nat, r: seq<nat>, p: seq<nat>, whole: seq<nat>)
    requires a + ([x] + r) == whole && p == a + [x]
    ensures p + r == whole
  {
    assert a + ([x] + r) == (a + [x]) + r;
  }

  /** The walk keeps the first edge and keeps only edges of the list. */
  lemma {:induction false} DedupKeeps(ls: seq<PLine>, l: seq<nat>, y: int)
    requires Indexes(ls, l)
    ensures |Dedup(ls, l, y)| <= |l|
    ensures l != [] ==> Dedup(ls, l, y) != [] && Dedup(ls, l, y)[0] == l[0]
    ensures forall x | x in Dedup(ls, l, y) :: x in l
    decreases |l|
  {
    if |l| >= 2 {
      var rest := if Dup(ls[l[0]], ls[l[1]], y) then l[2..] else l[1..];
      DedupKeeps(ls, rest, y);
      assert forall x | x in rest :: x in l;
    }
  }

  /** An edge is dropped only right after one it doubles: where no two
      neighbours double each other the walk keeps the whole list. */
  lemma {:induction false} DedupNoDup(ls: seq<PLine>, l: seq<nat>, y: int)
    requires Indexes(ls, l)
    requires forall j | 0 <= j < |l| - 1 :: !Dup(ls[l[j]], ls[l[j + 1]], y)
    ensures Dedup(ls, l, y) == l
    decreases |l|
  {
    if |l| >= 2 {
      var rest := l[1..];
      assert !Dup(ls[l[0]], ls[l[1]], y);
      forall j | 0 <= j < |rest| - 1 ensures !Dup(ls[rest[j]], ls[rest[j + 1]], y) {
        assert rest[j] == l[j + 1] && rest[j + 1] == l[j + 2];
      }
      DedupNoDup(ls, rest, y);
      assert [l[0]] + rest == l;
    }
  }

  /** Ordered by the key: no edge with a larger key before one with a
      smaller. */
  predicate SortedBy(keys: seq<int>, l: seq<nat>)
  {
    forall a, b | 0 <= a < b < |l| :: Key(keys, l[a]) <= Key(keys, l[b])
  }

  lemma SortedSuffix(keys: seq<int>, l: seq<nat>, off: nat)
    requires SortedBy(keys, l) && off <= |l|
    ensures SortedBy(keys, l[off..])
    ensures forall x | x in l[off..] :: off > 0 ==> Key(keys, l[0]) <= Key(keys, x)
  {
    forall a, b | 0 <= a < b < |l[off..]| ensures Key(keys, l[off..][a]) <= Key(keys, l[off..][b]) {
      assert l[off..][a] == l[a + off] && l[off..][b] == l[b + off];
    }
  }

  lemma SortedCons(keys: seq<int>, x: nat, d: seq<nat>)
    requires SortedBy(keys, d)
    requires forall z | z in d :: Key(keys, x) <= Key(keys, z)
    ensures SortedBy(keys, [x] + d)
  {
    var xd := [x] + d;
    forall a, b | 0 <= a < b < |xd| ensures Key(keys, xd[a]) <= Key(keys, xd[b]) {
      assert xd[b] == d[b - 1];
      if a > 0 {
        assert xd[a] == d[a - 1];
      }
    }
  }

  /** A list sorted by x stays sorted after the doubled crossings are
      dropped. */
  lemma {:induction false} DedupSorted(ls: seq<PLine>, l: seq<nat>, y: int, keys: seq<int>)
    requires Indexes(ls, l) && SortedBy(keys, l)
    ensures SortedBy(keys, Dedup(ls, l, y))
    decreases |l|
  {
    if |l| >= 2 {
      var off := if Dup(ls[l[0]], ls[l[1]], y) then 2 else 1;
      var rest := l[off..];
      SortedSuffix(keys, l, off);
      DedupSorted(ls, rest, y, keys);
      DedupKeeps(ls, rest, y);
      SortedCons(keys, l[0], Dedup(ls, rest, y));
    }
  }
}
