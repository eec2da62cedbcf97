// The scanline drawers. Each fills one horizontal run of the destination,
// interpolating colours, texture coordinates and intensity in 16.16 fixed
// point from one end to the other, clipped to the clip rectangle, and, in
// the keyed variants, leaving the pixels whose texel is a colour key alone.
// All eight drawers share one shape and are modelled by one method, DrawSpan,
// parametrised by the Mode that says which drawer it is.
module Scanline {
  import opened FixedPoint
  import opened PixelFormats
  import opened Surfaces

  /** One call of a span drawer: the end columns, the row, and the attributes
      attached to each end: [r, g, b] for a colour span, [sx, sy] for a
      textured span, [sx, sy, i] for a shaded textured span. */
  datatype Span = Span(x1: Sint16, x2: Sint16, y: Sint16, a1: seq<int>, a2: seq<int>)

  /** Which texel values leave the destination pixel untouched. */
  datatype KeyTest = NoKey | SourceKey | KeyList(keys: seq<int>)

  /** The drawer a span is handed to. */
  datatype Mode =
    | Gouraud                                    // _FadedLine
    | Textured(src: Texture)                     // _TexturedLine
    | Shaded(src: Texture, keying: KeyTest)      // _FadedTexturedLine[ColorKey[s]]
    | PreCalc(src: Texture, palettes: seq<seq<Uint8>>, keying: KeyTest)
                                                 // _PreCalcFadedTexturedLine[ColorKey[s]]

  /** The number of attributes at each end of a span. */
  function Arity(m: Mode): nat
  {
    if m.Textured? then 2 else 3
  }

  /** Attributes of the right arity, and, for the pre-calculated drawers, a
      table of 256 palettes of 256 entries. */
  predicate WellFormed(m: Mode, sp: Span)
  {
    && |sp.a1| == Arity(m) && |sp.a2| == Arity(m)
    && (m.PreCalc? ==> |m.palettes| == 256 && forall i | 0 <= i < 256 :: |m.palettes[i]| == 256)
  }

  /** The span with its ends swapped when they are out of order; each end
      keeps its own attributes. */
  function Ordered(sp: Span): (o: Span)
    ensures o.x1 <= o.x2 && o.y == sp.y
    ensures sp.x1 <= sp.x2 ==> o == sp
    ensures sp.x1 > sp.x2 ==> o.x1 == sp.x2 && o.a1 == sp.a2 && o.x2 == sp.x1 && o.a2 == sp.a1
  {
    if sp.x1 > sp.x2 then Span(sp.x2, sp.x1, sp.y, sp.a2, sp.a1) else sp
  }

  /** The same span given with its ends in the other order. */
  function Reversed(sp: Span): Span
  {
    Span(sp.x2, sp.x1, sp.y, sp.a2, sp.a1)
  }

  /** Attribute 2 of a textured mode is a plain intensity; every other
      attribute is carried in 16.16 fixed point. */
  predicate IsIntensity(m: Mode, c: int)
  {
    c == 2 && !m.Gouraud?
  }

  /** The accumulator value at the left end. */
  function Start(m: Mode, c: int, v: int): int
  {
    if IsIntensity(m, c) then v else v * One
  }

  /** The per-pixel step over a span of d pixels. A Sint32 intensity steps by
      the truncated quotient; the Uint16 intensity of the pre-calculated
      drawers steps by that quotient narrowed to Sint16. */
  function Step(m: Mode, c: int, v1: int, v2: int, d: int): int
    requires d > 0
  {
    if !IsIntensity(m, c) then FixStep(v1, v2, d)
    else if m.Shaded? then TruncDiv(v2 - v1, d)
    else ToS16(TruncDiv(v2 - v1, d))
  }

  function Starts(m: Mode, o: Span): (r: seq<int>)
    requires |o.a1| == Arity(m)
    ensures |r| == Arity(m)
  {
    seq(Arity(m), c requires 0 <= c < Arity(m) => Start(m, c, o.a1[c]))
  }

  function Steps(m: Mode, o: Span): (r: seq<int>)
    requires |o.a1| == Arity(m) && |o.a2| == Arity(m) && o.x1 <= o.x2
    ensures |r| == Arity(m)
  {
    seq(Arity(m), c requires 0 <= c < Arity(m) => Step(m, c, o.a1[c], o.a2[c], o.x2 - o.x1 + 1))
  }

  /** One step of every accumulator: `acc += step`. */
  function StepOnce(u: seq<int>, steps: seq<int>): (r: seq<int>)
    requires |u| == |steps|
    ensures |r| == |u|
  {
    seq(|u|, c requires 0 <= c < |u| => u[c] + steps[c])
  }

  /** Accumulators `u` after k single steps (none when k <= 0). */
  function Advance(u: seq<int>, steps: seq<int>, k: int): (r: seq<int>)
    requires |u| == |steps|
    ensures |r| == |u|
    decreases if k < 0 then 0 else k
  {
    if k <= 0 then u else StepOnce(Advance(u, steps, k - 1), steps)
  }

  /** Accumulators `u` moved k columns at once, as a clipped drawer moves
      them to the clip edge: `acc += k * step`. */
  function Skip(u: seq<int>, steps: seq<int>, k: int): (r: seq<int>)
    requires |u| == |steps|
    ensures |r| == |u|
  {
    seq(|u|, c requires 0 <= c < |u| => u[c] + k * steps[c])
  }

  /** The accumulators at column x: the left-end values advanced by one step
      for every column from the unclipped left end to x. */
  function Interp(m: Mode, o: Span, x: int): (r: seq<int>)
    requires |o.a1| == Arity(m) && |o.a2| == Arity(m) && o.x1 <= o.x2
    ensures |r| == Arity(m)
  {
    Advance(Starts(m, o), Steps(m, o), x - o.x1)
  }

  /** The span lies (at least partly) inside the clip rectangle. */
  predicate Visible(c: Clip, o: Span)
  {
    !(o.x2 < c.xmin || o.x1 > c.xmax || o.y < c.ymin || o.y > c.ymax)
  }

  /** The drawer reads texels directly: the texture has the destination's
      depth. Otherwise each colour is translated through SDL_GetRGB. */
  predicate Fast(t: Target, m: Mode)
  {
    !m.Gouraud? && m.src.bytesPerPixel == t.Bpp()
  }

  /** The texel under texture accumulators `acc`. */
  function Sample(src: Texture, acc: seq<int>): int
    requires |acc| >= 2
  {
    Texel(src, Shr16(acc[0]), Shr16(acc[1]))
  }

  /** A key as compared: the 8-bit pre-calculated drawer narrows each key to
      Uint8, the 32-bit drawer compares all 32 bits. */
  function KeyValue(key: int, narrow: bool): int
  {
    if narrow then ToU8(key) else key
  }

  predicate KeyHit(k: KeyTest, src: Texture, v: int, narrow: bool)
  {
    match k
    case NoKey => false
    case SourceKey => v == src.colorkey
    case KeyList(keys) => exists i | 0 <= i < |keys| :: v == KeyValue(keys[i], narrow)
  }

  /** The destination pixel is left alone: the drawer tests a key at this
      depth and the texel matches it. The 8-bit and 32-bit textured drawer
      test the source key; the shaded drawers test only at 32 bits, the
      pre-calculated ones only at 8 bits. */
  predicate Skipped(t: Target, m: Mode, acc: seq<int>)
    requires |acc| == Arity(m)
  {
    Fast(t, m) &&
    match m
    case Gouraud => false
    case Textured(src) => (t.Bpp() == 1 || t.Bpp() == 4) && Sample(src, acc) == src.colorkey
    case Shaded(src, k) => t.Bpp() == 4 && KeyHit(k, src, Sample(src, acc), false)
    case PreCalc(src, _, k) => t.Bpp() == 1 && KeyHit(k, src, Sample(src, acc), true)
  }

  /** A 24-bit pixel with the bytes its colour shifts address set to r, g, b. */
  function SetLanes(f: Format, current: int, r: int, g: int, b: int): int
  {
    SetByte(SetByte(SetByte(current, Lane(f.rShift), r), Lane(f.gShift), g), Lane(f.bShift), b)
  }

  /** A colour packed for a destination of the target's depth: through the
      palette at 8 bits, into byte lanes at 24 bits, by MapRGB otherwise. */
  function Packed(t: Target, r: bv8, g: bv8, b: bv8, current: int): int
  {
    if t.Bpp() == 1 then ToU8(t.mapPalette(r, g, b))
    else if t.Bpp() == 3 then SetLanes(t.format, current, r as int, g as int, b as int)
    else MapRGB(t.format, r, g, b) as int % PixelRange(t.Bpp())
  }

  /** The value a drawer stores into a pixel it writes. */
  function Written(t: Target, m: Mode, acc: seq<int>, current: int): int
    requires t.Valid() && |acc| == Arity(m)
    requires m.PreCalc? ==> |m.palettes| == 256 && forall i | 0 <= i < 256 :: |m.palettes[i]| == 256
  {
    if m.Gouraud? then
      if t.Bpp() == 3 then SetLanes(t.format, current, Shr16(acc[0]), Shr16(acc[1]), Shr16(acc[2]))
      else Packed(t, U8(Shr16(acc[0])), U8(Shr16(acc[1])), U8(Shr16(acc[2])), current)
    else if !Fast(t, m) then
      var (r, g, b) := m.src.rgbAt(Shr16(acc[0]), Shr16(acc[1]));
      Packed(t, r, g, b, current)
    else
      var v := Sample(m.src, acc);
      var f := t.format;
      if t.Bpp() == 2 then v
      else if t.Bpp() == 3 then
        SetLanes(f, current, GetByte(v, Lane(f.rShift)), GetByte(v, Lane(f.gShift)), GetByte(v, Lane(f.bShift)))
      else if t.Bpp() == 1 then
        if m.PreCalc? then m.palettes[Wrap16(acc[2]) / 256][v] else v
      else if m.Textured? then v
      else if m.Shaded? then ScaleRGB(f, v as bv32, acc[2]) as int
      else ScaleRGB(f, v as bv32, Wrap16(acc[2])) as int
  }

  /** What a drawer leaves in a pixel of its run under accumulators `acc`. */
  function Shade(t: Target, m: Mode, acc: seq<int>, current: int): int
    requires t.Valid() && |acc| == Arity(m)
    requires m.PreCalc? ==> |m.palettes| == 256 && forall i | 0 <= i < 256 :: |m.palettes[i]| == 256
  {
    if Skipped(t, m, acc) then current else Written(t, m, acc, current)
  }

  /** The pixel buffer after drawing span `sp`: nothing changes unless the
      span meets the clip rectangle; otherwise the pixels of row y from
      max(x1, xmin) to min(x2, xmax) are shaded under the accumulators of
      their columns and every other pixel keeps its value. */
  function SpanResult(t: Target, s: seq<int>, sp: Span, m: Mode): (r: seq<int>)
    requires t.Valid() && |s| == t.pitch * t.height && WellFormed(m, sp)
    ensures |r| == |s|
  {
    var o := Ordered(sp);
    if !Visible(t.clip, o) then s
    else RunResult(t, s, o, m, Max(o.x1, t.clip.xmin), Min(o.x2, t.clip.xmax) + 1)
  }

  /** The buffer once the columns lo .. x-1 of the span's row are shaded. */
  function RunResult(t: Target, s: seq<int>, o: Span, m: Mode, lo: int, x: int): (r: seq<int>)
    requires t.Valid() && WellFormed(m, o) && o.x1 <= o.x2
    ensures |r| == |s|
  {
    var row := o.y * t.pitch;
    seq(|s|, p requires 0 <= p < |s| =>
      if row + lo <= p < row + x then Shade(t, m, Interp(m, o, p - row), s[p]) else s[p])
  }

  lemma RunResultStep(t: Target, s: seq<int>, o: Span, m: Mode, lo: int, x: int)
    requires t.Valid() && WellFormed(m, o) && o.x1 <= o.x2
    requires lo <= x && 0 <= o.y * t.pitch + x < |s|
    ensures RunResult(t, s, o, m, lo, x)[o.y * t.pitch + x] == s[o.y * t.pitch + x]
    ensures RunResult(t, s, o, m, lo, x + 1)
         == RunResult(t, s, o, m, lo, x)[o.y * t.pitch + x := Shade(t, m, Interp(m, o, x), s[o.y * t.pitch + x])]
  {
  }

  // ---------------------------------------------------------------------
  // The drawer as the source writes it: order the ends, compute the steps,
  // clip, advance the accumulators to the clipped start, then walk the run.

  method DrawSpan(dest: Surface, sp: Span, m: Mode)
    requires dest.Valid() && WellFormed(m, sp)
    modifies dest.pixels
    ensures dest.pixels[..] == SpanResult(dest.target, old(dest.pixels[..]), sp, m)
  {
    var t := dest.target;
    var o := Ordered(sp);
    var acc := Starts(m, o);
    var steps := Steps(m, o);
    if !Visible(t.clip, o) {
      return;
    }
    var x1: int := o.x1;
    if x1 < t.clip.xmin {
      acc := Skip(acc, steps, t.clip.xmin - x1);
      SkipIsAdvance(Starts(m, o), steps, t.clip.xmin - x1);
      x1 := t.clip.xmin;
    }
    var x2: int := Min(o.x2, t.clip.xmax);
    DrawRun(dest, o, m, x1, x2, acc);
  }

  /** The pixel loop: shades columns x1 .. x2 of the span's row, stepping
      the accumulators once per pixel. */
  method DrawRun(dest: Surface, o: Span, m: Mode, x1: int, x2: int, acc0: seq<int>)
    requires dest.Valid() && WellFormed(m, o) && o.x1 <= o.x2
    requires dest.target.clip.ymin <= o.y <= dest.target.clip.ymax
    requires dest.target.clip.xmin <= x1 <= x2 + 1 && x2 <= dest.target.clip.xmax && o.x1 <= x1
    requires acc0 == Interp(m, o, x1)
    modifies dest.pixels
    ensures dest.pixels[..] == RunResult(dest.target, old(dest.pixels[..]), o, m, x1, x2 + 1)
  {
    // ShadeAt and RunResultStep carry what the loop needs about a pixel.
    hide Shade;
    var t := dest.target;
    var steps := Steps(m, o);
    var row := o.y * t.pitch;
    ghost var s := dest.pixels[..];
    var acc := acc0;
    var x := x1;
    while x <= x2
      invariant x1 <= x <= x2 + 1
      invariant acc == Interp(m, o, x)
      invariant dest.pixels[..] == RunResult(t, s, o, m, x1, x)
    {
      RowMajor(t.pitch, t.height, x, o.y);
      RunResultStep(t, s, o, m, x1, x);
      InterpNext(m, o, x);
      var v := ShadeAt(t, m, acc, dest.pixels[row + x]);
      dest.pixels[row + x] := v;
      acc := StepOnce(acc, steps);
      x := x + 1;
    }
  }

  /** One pixel of a run: test the key where this drawer tests it, then
      compute the stored value. */
  method ShadeAt(t: Target, m: Mode, acc: seq<int>, current: int) returns (v: int)
    requires t.Valid() && |acc| == Arity(m)
    requires m.PreCalc? ==> |m.palettes| == 256 && forall i | 0 <= i < 256 :: |m.palettes[i]| == 256
    ensures v == Shade(t, m, acc, current)
  {
    var skip := false;
    if Fast(t, m) {
      var texel := Sample(m.src, acc);
      match m {
        case Textured(src) =>
          skip := (t.Bpp() == 1 || t.Bpp() == 4) && texel == src.colorkey;
        case Shaded(src, k) =>
          if t.Bpp() == 4 {
            skip := MatchesKey(k, src, texel, false);
          }
        case PreCalc(src, _, k) =>
          if t.Bpp() == 1 {
            skip := MatchesKey(k, src, texel, true);
          }
      }
    }
    v := if skip then current else Written(t, m, acc, current);
  }

  method MatchesKey(k: KeyTest, src: Texture, texel: int, narrow: bool) returns (hit: bool)
    ensures hit == KeyHit(k, src, texel, narrow)
  {
    match k {
      case NoKey => hit := false;
      case SourceKey => hit := texel == src.colorkey;
      case KeyList(keys) => hit := IsKey(texel, keys, narrow);
    }
  }

  /** The key search of the multi-key drawers: a linear scan that stops at
      the first key equal to the texel. */
  method IsKey(texel: int, keys: seq<int>, narrow: bool) returns (found: bool)
    ensures found <==> exists i | 0 <= i < |keys| :: texel == KeyValue(keys[i], narrow)
  {
    found := false;
    var i := 0;
    while i < |keys|
      invariant 0 <= i <= |keys|
      invariant forall j | 0 <= j < i :: texel != KeyValue(keys[j], narrow)
    {
      if texel == KeyValue(keys[i], narrow) {
        found := true;
        return;
      }
      i := i + 1;
    }
  }

  // ---------------------------------------------------------------------
  // The eight drawers.

  method FadedLine(dest: Surface, x1: Sint16, x2: Sint16, y: Sint16,
                   r1: Uint8, g1: Uint8, b1: Uint8, r2: Uint8, g2: Uint8, b2: Uint8)
    requires dest.Valid()
    modifies dest.pixels
    ensures dest.pixels[..] == SpanResult(dest.target, old(dest.pixels[..]),
                                          Span(x1, x2, y, [r1, g1, b1], [r2, g2, b2]), Gouraud)
  {
    DrawSpan(dest, Span(x1, x2, y, [r1, g1, b1], [r2, g2, b2]), Gouraud);
  }

  method TexturedLine(dest: Surface, x1: Sint16, x2: Sint16, y: Sint16, source: Texture,
                      sx1: Sint16, sy1: Sint16, sx2: Sint16, sy2: Sint16)
    requires dest.Valid()
    modifies dest.pixels
    ensures dest.pixels[..] == SpanResult(dest.target, old(dest.pixels[..]),
                                          Span(x1, x2, y, [sx1, sy1], [sx2, sy2]), Textured(source))
  {
    DrawSpan(dest, Span(x1, x2, y, [sx1, sy1], [sx2, sy2]), Textured(source));
  }

  method FadedTexturedLine(dest: Surface, x1: Sint16, x2: Sint16, y: Sint16, source: Texture,
                           sx1: Sint16, sy1: Sint16, sx2: Sint16, sy2: Sint16, i1: int, i2: int)
    requires dest.Valid()
    modifies dest.pixels
    ensures dest.pixels[..] == SpanResult(dest.target, old(dest.pixels[..]),
                                          Span(x1, x2, y, [sx1, sy1, i1], [sx2, sy2, i2]), Shaded(source, NoKey))
  {
    DrawSpan(dest, Span(x1, x2, y, [sx1, sy1, i1], [sx2, sy2, i2]), Shaded(source, NoKey));
  }

  method FadedTexturedLineColorKey(dest: Surface, x1: Sint16, x2: Sint16, y: Sint16, source: Texture,
                                   sx1: Sint16, sy1: Sint16, sx2: Sint16, sy2: Sint16, i1: int, i2: int)
    requires dest.Valid()
    modifies dest.pixels
    ensures dest.pixels[..] == SpanResult(dest.target, old(dest.pixels[..]),
                                          Span(x1, x2, y, [sx1, sy1, i1], [sx2, sy2, i2]), Shaded(source, SourceKey))
  {
    DrawSpan(dest, Span(x1, x2, y, [sx1, sy1, i1], [sx2, sy2, i2]), Shaded(source, SourceKey));
  }

  method FadedTexturedLineColorKeys(dest: Surface, x1: Sint16, x2: Sint16, y: Sint16, source: Texture,
                                    sx1: Sint16, sy1: Sint16, sx2: Sint16, sy2: Sint16, i1: int, i2: int,
                                    keys: seq<int>)
    requires dest.Valid()
    modifies dest.pixels
    ensures dest.pixels[..] == SpanResult(dest.target, old(dest.pixels[..]),
                                          Span(x1, x2, y, [sx1, sy1, i1], [sx2, sy2, i2]), Shaded(source, KeyList(keys)))
  {
    DrawSpan(dest, Span(x1, x2, y, [sx1, sy1, i1], [sx2, sy2, i2]), Shaded(source, KeyList(keys)));
  }

  predicate PaletteTable(palettes: seq<seq<Uint8>>)
  {
    |palettes| == 256 && forall i | 0 <= i < 256 :: |palettes[i]| == 256
  }

  method PreCalcFadedTexturedLine(dest: Surface, x1: Sint16, x2: Sint16, y: Sint16, source: Texture,
                                  sx1: Sint16, sy1: Sint16, sx2: Sint16, sy2: Sint16, i1: Uint16, i2: Uint16,
                                  palettes: seq<seq<Uint8>>)
    requires dest.Valid() && PaletteTable(palettes)
    modifies dest.pixels
    ensures dest.pixels[..] == SpanResult(dest.target, old(dest.pixels[..]),
                                          Span(x1, x2, y, [sx1, sy1, i1], [sx2, sy2, i2]), PreCalc(source, palettes, NoKey))
  {
    DrawSpan(dest, Span(x1, x2, y, [sx1, sy1, i1], [sx2, sy2, i2]), PreCalc(source, palettes, NoKey));
  }

  method PreCalcFadedTexturedLineColorKey(dest: Surface, x1: Sint16, x2: Sint16, y: Sint16, source: Texture,
                                          sx1: Sint16, sy1: Sint16, sx2: Sint16, sy2: Sint16, i1: Uint16, i2: Uint16,
                                          palettes: seq<seq<Uint8>>)
    requires dest.Valid() && PaletteTable(palettes)
    modifies dest.pixels
    ensures dest.pixels[..] == SpanResult(dest.target, old(dest.pixels[..]),
                                          Span(x1, x2, y, [sx1, sy1, i1], [sx2, sy2, i2]), PreCalc(source, palettes, SourceKey))
  {
    DrawSpan(dest, Span(x1, x2, y, [sx1, sy1, i1], [sx2, sy2, i2]), PreCalc(source, palettes, SourceKey));
  }

  method PreCalcFadedTexturedLineColorKeys(dest: Surface, x1: Sint16, x2: Sint16, y: Sint16, source: Texture,
                                           sx1: Sint16, sy1: Sint16, sx2: Sint16, sy2: Sint16, i1: Uint16, i2: Uint16,
                                           palettes: seq<seq<Uint8>>, keys: seq<int>)
    requires dest.Valid() && PaletteTable(palettes)
    modifies dest.pixels
    ensures dest.pixels[..] == SpanResult(dest.target, old(dest.pixels[..]),
                                          Span(x1, x2, y, [sx1, sy1, i1], [sx2, sy2, i2]), PreCalc(source, palettes, KeyList(keys)))
  {
    DrawSpan(dest, Span(x1, x2, y, [sx1, sy1, i1], [sx2, sy2, i2]), PreCalc(source, palettes, KeyList(keys)));
  }

  // ---------------------------------------------------------------------
  // Accumulator arithmetic.

  /** k single steps add k times the step to every accumulator. */
  lemma {:induction false} AdvanceAt(u: seq<int>, steps: seq<int>, k: int, c: int)
    requires |u| == |steps| && k >= 0 && 0 <= c < |u|
    ensures Advance(u, steps, k)[c] == u[c] + k * steps[c]
    decreases k
  {
    if k > 0 {
      AdvanceAt(u, steps, k - 1, c);
      assert u[c] + (k - 1) * steps[c] + steps[c] == u[c] + k * steps[c];
    }
  }

  /** One more step is one more single step. */
  lemma AdvanceNext(u: seq<int>, steps: seq<int>, k: int)
    requires |u| == |steps| && k >= 0
    ensures Advance(u, steps, k + 1) == StepOnce(Advance(u, steps, k), steps)
  {
  }

  /** One column to the right is one step of every accumulator. */
  lemma InterpNext(m: Mode, o: Span, x: int)
    requires |o.a1| == Arity(m) && |o.a2| == Arity(m) && o.x1 <= o.x2 && o.x1 <= x
    ensures Interp(m, o, x + 1) == StepOnce(Interp(m, o, x), Steps(m, o))
  {
    var k := x - o.x1;
    AdvanceNext(Starts(m, o), Steps(m, o), k);
    assert x + 1 - o.x1 == k + 1;
  }

  /** Moving the accumulators k columns at once, as a clipped drawer does,
      lands where k single steps would. */
  lemma SkipIsAdvance(u: seq<int>, steps: seq<int>, k: int)
    requires |u| == |steps| && k >= 0
    ensures Skip(u, steps, k) == Advance(u, steps, k)
  {
    forall c | 0 <= c < |u|
      ensures Skip(u, steps, k)[c] == Advance(u, steps, k)[c]
    {
      AdvanceAt(u, steps, k, c);
    }
  }

  /** Each accumulator moves on its own: a channel that starts and steps
      alike in two sets of accumulators stays alike. */
  lemma {:induction false} AdvanceAgrees(u: seq<int>, steps: seq<int>, u': seq<int>, steps': seq<int>, k: int, c: int)
    requires |u| == |steps| && |u'| == |steps'| && 0 <= c < |u| && c < |u'|
    requires u[c] == u'[c] && steps[c] == steps'[c]
    ensures Advance(u, steps, k)[c] == Advance(u', steps', k)[c]
    decreases if k < 0 then 0 else k
  {
    if k > 0 {
      AdvanceAgrees(u, steps, u', steps', k - 1, c);
    }
  }

  /** j steps followed by k steps are j + k steps. */
  lemma {:induction false} AdvanceAdd(u: seq<int>, steps: seq<int>, j: int, k: int)
    requires |u| == |steps| && j >= 0 && k >= 0
    ensures Advance(Advance(u, steps, j), steps, k) == Advance(u, steps, j + k)
    decreases k
  {
    if k > 0 {
      AdvanceAdd(u, steps, j, k - 1);
    }
  }

  // ---------------------------------------------------------------------
  // What a span drawer promises.

  /** A span changes only pixels of its own row, inside the clip rectangle,
      between its two ends: a pixel outside row y, outside the clip
      rectangle, or outside [min(x1, x2), max(x1, x2)] keeps its value, so a
      span that misses the clip rectangle changes nothing. */
  lemma SpanWritesOnlyClippedRun(t: Target, s: seq<int>, sp: Span, m: Mode, x: int, y: int)
    requires t.Valid() && |s| == t.pitch * t.height && WellFormed(m, sp)
    requires 0 <= x < t.pitch && 0 <= y < t.height
    ensures 0 <= y * t.pitch + x < |s|
    ensures SpanResult(t, s, sp, m)[y * t.pitch + x] != s[y * t.pitch + x] ==>
              && y == sp.y && t.clip.ymin <= y <= t.clip.ymax
              && Max(Min(sp.x1, sp.x2), t.clip.xmin) <= x <= Min(Max(sp.x1, sp.x2), t.clip.xmax)
  {
    RowMajor(t.pitch, t.height, x, y);
    var o := Ordered(sp);
    var p := y * t.pitch + x;
    if SpanResult(t, s, sp, m)[p] != s[p] {
      assert Visible(t.clip, o);
      var row := o.y * t.pitch;
      var lo := Max(o.x1, t.clip.xmin);
      var hi := Min(o.x2, t.clip.xmax);
      assert row + lo <= p <= row + hi;
      RowMajorInjective(t.pitch, x, y, p - row, o.y);
    }
  }

  /** A pixel of the clipped run, as SpanResult defines it. */
  lemma SpanPixel(t: Target, s: seq<int>, sp: Span, m: Mode, x: int)
    requires t.Valid() && |s| == t.pitch * t.height && WellFormed(m, sp)
    requires t.clip.ymin <= sp.y <= t.clip.ymax
    requires Max(Min(sp.x1, sp.x2), t.clip.xmin) <= x <= Min(Max(sp.x1, sp.x2), t.clip.xmax)
    ensures 0 <= sp.y * t.pitch + x < |s|
    ensures SpanResult(t, s, sp, m)[sp.y * t.pitch + x]
         == Shade(t, m, Interp(m, Ordered(sp), x), s[sp.y * t.pitch + x])
  {
    hide Shade;
    RowMajor(t.pitch, t.height, x, sp.y);
    var o := Ordered(sp);
    assert Visible(t.clip, o);
    var row := o.y * t.pitch;
    var p := sp.y * t.pitch + x;
    assert p - row == x;
    var lo := Max(o.x1, t.clip.xmin);
    var hi := Min(o.x2, t.clip.xmax);
    assert SpanResult(t, s, sp, m) == RunResult(t, s, o, m, lo, hi + 1);
    assert RunResult(t, s, o, m, lo, hi + 1)[p] == Shade(t, m, Interp(m, o, p - row), s[p]);
  }

  /** Every pixel of the clipped run is shaded under the accumulators of its
      column counted from the unclipped left end: advancing the accumulators
      by (xmin - x1) steps when clipping makes the visible pixels the same as
      those an unclipped draw would produce. Two clip rectangles therefore
      agree on every pixel both let through. */
  lemma ClippingOnlyMasks(t: Target, c2: Clip, s: seq<int>, sp: Span, m: Mode, x: int)
    requires t.Valid() && t.(clip := c2).Valid()
    requires |s| == t.pitch * t.height && WellFormed(m, sp)
    requires t.clip.ymin <= sp.y <= t.clip.ymax && c2.ymin <= sp.y <= c2.ymax
    requires Min(sp.x1, sp.x2) <= x <= Max(sp.x1, sp.x2)
    requires t.clip.xmin <= x <= t.clip.xmax && c2.xmin <= x <= c2.xmax
    ensures 0 <= sp.y * t.pitch + x < |s|
    ensures SpanResult(t, s, sp, m)[sp.y * t.pitch + x]
         == SpanResult(t.(clip := c2), s, sp, m)[sp.y * t.pitch + x]
         == Shade(t, m, Interp(m, Ordered(sp), x), s[sp.y * t.pitch + x])
  {
    SpanPixel(t, s, sp, m, x);
    SpanPixel(t.(clip := c2), s, sp, m, x);
    ShadeIgnoresClip(t, c2, m, Interp(m, Ordered(sp), x), s[sp.y * t.pitch + x]);
  }

  /** The clip rectangle decides which pixels are drawn, not what they get. */
  lemma ShadeIgnoresClip(t: Target, c2: Clip, m: Mode, acc: seq<int>, current: int)
    requires t.Valid() && t.(clip := c2).Valid() && |acc| == Arity(m)
    requires m.PreCalc? ==> |m.palettes| == 256 && forall i | 0 <= i < 256 :: |m.palettes[i]| == 256
    ensures Shade(t.(clip := c2), m, acc, current) == Shade(t, m, acc, current)
  {
    var t2 := t.(clip := c2);
    assert Skipped(t2, m, acc) == Skipped(t, m, acc);
    WrittenIgnoresClip(t, c2, m, acc, current);
  }

  lemma WrittenIgnoresClip(t: Target, c2: Clip, m: Mode, acc: seq<int>, current: int)
    requires t.Valid() && t.(clip := c2).Valid() && |acc| == Arity(m)
    requires m.PreCalc? ==> |m.palettes| == 256 && forall i | 0 <= i < 256 :: |m.palettes[i]| == 256
    ensures Written(t.(clip := c2), m, acc, current) == Written(t, m, acc, current)
  {
    var t2 := t.(clip := c2);
    assert t2.format == t.format && t2.Bpp() == t.Bpp();
    forall r: bv8, g: bv8, b: bv8
      ensures Packed(t2, r, g, b, current) == Packed(t, r, g, b, current)
    {
    }
  }

  /** Giving the ends in the other order draws the same pixels: the drawer
      swaps the ends together with their attributes. */
  lemma ReversedSpanDrawsSame(t: Target, s: seq<int>, sp: Span, m: Mode)
    requires t.Valid() && |s| == t.pitch * t.height && WellFormed(m, sp)
    requires sp.x1 != sp.x2
    ensures SpanResult(t, s, Reversed(sp), m) == SpanResult(t, s, sp, m)
  {
    assert Ordered(Reversed(sp)) == Ordered(sp);
  }

  /** Between the ends, each 16.16 channel (colour or texture coordinate)
      stays between its two end values: the truncated step never overshoots.
      So the Uint8 narrowing of a colour channel loses nothing, and a
      textured span samples only inside the box spanned by its end
      coordinates. */
  lemma FixedChannelBetweenEnds(m: Mode, o: Span, x: int, c: int)
    requires |o.a1| == Arity(m) && |o.a2| == Arity(m) && o.x1 <= x <= o.x2
    requires 0 <= c < Arity(m) && !IsIntensity(m, c)
    ensures Min(o.a1[c], o.a2[c]) <= Shr16(Interp(m, o, x)[c]) <= Max(o.a1[c], o.a2[c])
  {
    var d := o.x2 - o.x1 + 1;
    AdvanceAt(Starts(m, o), Steps(m, o), x - o.x1, c);
    assert Interp(m, o, x)[c] == FixAt(o.a1[c], o.a2[c], d, x - o.x1);
    FixAtBetween(o.a1[c], o.a2[c], d, x - o.x1);
  }

  /** Which pixels of a run the keyed drawers leave alone, and what they
      write into the others. At 8 bits the textured drawer and the
      pre-calculated drawers test the key (the pre-calculated multi-key
      drawer against each key narrowed to Uint8), and a written pixel is the
      texel, or the palette entry of row (I >> 8) for the texel. At 32 bits
      the textured and shaded drawers test the key (all 32 bits) and a written
      pixel is the texel or the texel scaled by the intensity. */
  lemma KeyedRun(t: Target, s: seq<int>, sp: Span, m: Mode, x: int)
    requires t.Valid() && |s| == t.pitch * t.height && WellFormed(m, sp)
    requires Fast(t, m)
    requires t.clip.ymin <= sp.y <= t.clip.ymax
    requires Max(Min(sp.x1, sp.x2), t.clip.xmin) <= x <= Min(Max(sp.x1, sp.x2), t.clip.xmax)
    ensures 0 <= sp.y * t.pitch + x < |s|
    ensures
      var p := sp.y * t.pitch + x;
      var acc := Interp(m, Ordered(sp), x);
      var v := Sample(m.src, acc);
      var r := SpanResult(t, s, sp, m)[p];
      && (m.Textured? && (t.Bpp() == 1 || t.Bpp() == 4) ==>
            r == if v == m.src.colorkey then s[p] else v)
      && (m.Shaded? && t.Bpp() == 4 ==>
            r == if KeyHit(m.keying, m.src, v, false) then s[p] else ScaleRGB(t.format, v as bv32, acc[2]) as int)
      && (m.PreCalc? && t.Bpp() == 1 ==>
            r == if KeyHit(m.keying, m.src, v, true) then s[p] else m.palettes[Wrap16(acc[2]) / 256][v])
  {
    SpanPixel(t, s, sp, m, x);
  }

  /** The quirks of the keyed drawers: no drawer tests a key at 16 or 24
      bits, the shaded drawers do not at 8 bits, the pre-calculated drawers
      do not at 32 bits, and the format-translating path never does. */
  lemma KeyIgnored(t: Target, m: Mode, acc: seq<int>)
    requires |acc| == Arity(m)
    requires || t.Bpp() == 2 || t.Bpp() == 3 || !Fast(t, m)
             || (m.Shaded? && t.Bpp() == 1) || (m.PreCalc? && t.Bpp() == 4)
    ensures !Skipped(t, m, acc)
  {
  }

  /** The 8-bit shaded drawers copy texels without applying the intensity:
      changing the end intensities changes nothing that is drawn. */
  lemma EightBitShadingIgnoresIntensity(t: Target, s: seq<int>, sp: Span, src: Texture, k: KeyTest, i1: int, i2: int)
    requires t.Valid() && |s| == t.pitch * t.height && WellFormed(Shaded(src, k), sp)
    requires t.Bpp() == 1 && src.bytesPerPixel == 1
    ensures SpanResult(t, s, sp, Shaded(src, k))
         == SpanResult(t, s, sp.(a1 := sp.a1[2 := i1], a2 := sp.a2[2 := i2]), Shaded(src, k))
  {
    var m := Shaded(src, k);
    var sp' := sp.(a1 := sp.a1[2 := i1], a2 := sp.a2[2 := i2]);
    var o := Ordered(sp);
    var o' := Ordered(sp');
    assert o'.x1 == o.x1 && o'.x2 == o.x2 && o'.y == o.y;
    assert o'.a1[0] == o.a1[0] && o'.a1[1] == o.a1[1] && o'.a2[0] == o.a2[0] && o'.a2[1] == o.a2[1];
    if Visible(t.clip, o) {
      EightBitRunsAgree(t, s, src, k, o, o', Max(o.x1, t.clip.xmin), Min(o.x2, t.clip.xmax) + 1);
    }
  }

  /** Two runs whose ends differ only in intensity shade the same pixels
      alike at 8 bits. */
  lemma EightBitRunsAgree(t: Target, s: seq<int>, src: Texture, k: KeyTest, o: Span, o': Span, lo: int, x: int)
    requires t.Valid() && t.Bpp() == 1 && src.bytesPerPixel == 1
    requires WellFormed(Shaded(src, k), o) && WellFormed(Shaded(src, k), o') && o.x1 <= o.x2
    requires o'.x1 == o.x1 && o'.x2 == o.x2 && o'.y == o.y
    requires o'.a1[0] == o.a1[0] && o'.a1[1] == o.a1[1] && o'.a2[0] == o.a2[0] && o'.a2[1] == o.a2[1]
    ensures RunResult(t, s, o, Shaded(src, k), lo, x) == RunResult(t, s, o', Shaded(src, k), lo, x)
  {
    var m := Shaded(src, k);
    var row := o.y * t.pitch;
    forall p | 0 <= p < |s|
      ensures RunResult(t, s, o, m, lo, x)[p] == RunResult(t, s, o', m, lo, x)[p]
    {
      if row + lo <= p < row + x {
        SameTexCoords(m, o, o', p - row);
        SameTexelSameShade(t, src, k, Interp(m, o, p - row), Interp(m, o', p - row), s[p]);
      }
    }
  }

  /** Spans whose ends agree in the texture coordinates sample the same
      coordinates at every column. */
  lemma SameTexCoords(m: Mode, o: Span, o': Span, x: int)
    requires m.Shaded? && WellFormed(m, o) && WellFormed(m, o') && o.x1 <= o.x2
    requires o'.x1 == o.x1 && o'.x2 == o.x2
    requires o'.a1[0] == o.a1[0] && o'.a1[1] == o.a1[1] && o'.a2[0] == o.a2[0] && o'.a2[1] == o.a2[1]
    ensures Interp(m, o, x)[0] == Interp(m, o', x)[0] && Interp(m, o, x)[1] == Interp(m, o', x)[1]
  {
    AdvanceAgrees(Starts(m, o), Steps(m, o), Starts(m, o'), Steps(m, o'), x - o.x1, 0);
    AdvanceAgrees(Starts(m, o), Steps(m, o), Starts(m, o'), Steps(m, o'), x - o.x1, 1);
  }

  /** At 8 bits a shaded drawer's pixel depends on the texture coordinates
      only. */
  lemma SameTexelSameShade(t: Target, src: Texture, k: KeyTest, u: seq<int>, u': seq<int>, current: int)
    requires t.Valid() && t.Bpp() == 1 && src.bytesPerPixel == 1
    requires |u| == 3 && |u'| == 3 && u[0] == u'[0] && u[1] == u'[1]
    ensures Shade(t, Shaded(src, k), u, current) == Shade(t, Shaded(src, k), u', current)
  {
    assert Sample(src, u) == Sample(src, u');
  }

  /** The Uint16 intensity of the pre-calculated drawers, stepped pixel by
      pixel with wrap-around at every step. */
  function SteppedU16(i: Uint16, step: int, k: nat): Uint16
  {
    if k == 0 then i else Wrap16(SteppedU16(i, step, k - 1) + step)
  }

  /** Wrapping at every step gives what the model computes: the unbounded
      accumulator, wrapped once when it is handed over. */
  lemma {:induction false} SteppedU16Wraps(u: seq<int>, steps: seq<int>, c: int, k: nat)
    requires |u| == |steps| && 0 <= c < |u| && 0 <= u[c] < 0x1_0000
    ensures SteppedU16(u[c], steps[c], k) == Wrap16(Advance(u, steps, k)[c])
  {
    if k > 0 {
      SteppedU16Wraps(u, steps, c, k - 1);
      Wrap16Add(Advance(u, steps, k - 1)[c], steps[c]);
    }
  }

  lemma Wrap16Add(a: int, b: int)
    ensures Wrap16(Wrap16(a) + b) == Wrap16(a + b)
  {
    var q := a / 65536;
    assert a == q * 65536 + Wrap16(a);
    assert a + b == q * 65536 + (Wrap16(a) + b);
    ModMultiple(q, Wrap16(a) + b);
  }

  lemma ModMultiple(q: int, v: int)
    ensures (q * 65536 + v) % 65536 == v % 65536
  {
  }
}
