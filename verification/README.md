# s25edit drawing core and game registry, in Dafny

This project models two parts of s25edit, an editor for Settlers II maps.

The first part is the software rasteriser of its bundled SGE library, in
`SGE/sge_blib.cpp`:

- the pixel-format helpers MapRGB and ScaleRGB;
- the eight horizontal span drawers (`_FadedLine`, `_TexturedLine`, the
  gouraud-shaded textured drawers with and without colour keys, and the
  drawers with pre-calculated palettes);
- the triangle rasterisers (`sge_FilledTrigon` and the shaded and textured
  trigons) and the quad rasterisers (`sge_*TexturedRect`);
- the scanline polygon filler: the edge records `pline`/`fpline`,
  `get_scanline`, the radix sort `rsort`, `remove_dup`, and the pairing loop
  of `sge_FilledPolygonAlpha`, `sge_AAFilledPolygon`,
  `sge_FadedPolygonAlpha` and `sge_AAFadedPolygon`.

The second part is the registry of `CGame.cpp`: three fixed tables of 20 menu
slots, 100 window slots and 100 callback slots. Registering fills the first
NULL slot. Unregistering clears the first slot holding the given object.

The model follows the source's own shapes:

- The destination surface is a class (`Surfaces.Surface`) with a pixel
  array. The drawers write that array in place.
- Each drawer is a method proved against a function of the old buffer
  (`Scanline.SpanResult`, `Edges.Paint`, `Rects.RectPaint`).
- The walks of the triangle and quad rasterisers are loops proved against
  functions that list their span calls (`Trigons.TrigonCalls`,
  `Rects.RectCalls`).
- The polygon filler keeps its edge table in an array that `get_scanline`
  updates row by row (`PolyEdges.GetScanline`). The radix sort is a loop
  over an array of 16 buckets.
- The registry is a class (`Registry.Game`) with three slot arrays. Each
  method is proved against a function of the old table.

Integers are unbounded. The narrowings the source performs are written out:

- `Sint16(...)` is `FixedPoint.ToS16`;
- `Uint16`, for the pre-calculated intensity, is `Wrap16`;
- `Uint8` is `ToU8`;
- `>> 16` is a floor division;
- C++ `/` on a positive divisor is `TruncDiv`, rounding toward zero.

Calls into SDL and into primitives outside the core are left out in one of two ways:

- They become parameters: SDL_MapRGB of a palette surface, and SDL_GetRGB of
  a texture pixel on the format-translating path.
- They are recorded as calls: `_HLine`, `_Line`, the anti-aliased lines and
  `sge_DomcLine`. The polygon fillers and `sge_FilledTrigon` return the
  list of calls they make, in order.

The rectangle a rasteriser hands to `sge_UpdateRect` is returned as a value.
For the triangle and quad rasterisers that value is an `Edges.Update`:
`sge_UpdateRect` takes its width and height as Uint16, so the model narrows
them as each rasteriser does. Five triangle rasterisers convert them with
`boost::numeric_cast`, which throws when a value does not fit (`CastFails`).
The others pass int values, which wrap modulo 2^16.

Every band loop of the triangle, quad and polygon rasterisers counts rows in
a Sint16. A loop whose last row is 32767 therefore never ends (see
"Findings"). The walks in this model count with unbounded integers and draw
each row once. That is the behaviour the loops evidently intend.

## Model

| member | source | states |
|---|---|---|
| FixedPoint.TruncDiv | SGE/sge_blib.cpp:226-227 | the C++ quotient for a positive divisor: rounded toward zero for both signs of the dividend |
| FixedPoint.Shr16 | SGE/sge_blib.cpp:3883 | an arithmetic `>> 16`: the result times 2^16 is at most the value and within 2^16 of it |
| FixedPoint.Wrap16 | SGE/sge_blib.cpp:927-930 | the Uint16 conversion: identity on [0, 65535], otherwise congruent modulo 2^16 |
| FixedPoint.ToU8 | SGE/sge_blib.cpp:1457 | the Uint8 conversion: identity on [0, 255], otherwise congruent modulo 2^8 |
| FixedPoint.ToS16 | SGE/sge_blib.cpp:3883 | the Sint16 conversion: identity on [-32768, 32767], otherwise congruent modulo 2^16 |
| FixedPoint.Clamp8 | SGE/sge_blib.cpp:58-60 | saturation to [0, 255]: in range unchanged, below 0 gives 0, above 255 gives 255 |
| FixedPoint.FixAtBetween | SGE/sge_blib.cpp:222-227 | a 16.16 accumulator stepping from a to b by the truncated step stays, in its integer part, between a and b for the first d steps |
| FixedPoint.FixAtEnd | SGE/sge_blib.cpp:226 | after all d steps a falling value lands on b, a rising one on b or b - 1 |
| FixedPoint.FixAtEndUndershoots | SGE/sge_blib.cpp:226 | the rising case does stop short: 0 to 1 over three steps ends on 0 |
| FixedPoint.NextRow | SGE/sge_blib.cpp:2111 | a Sint16 `y++` goes from 32767 to -32768 and otherwise adds one |
| FixedPoint.RowCounterWraps | SGE/sge_blib.cpp:2111 | after k turns a Sint16 loop counter started at y0 holds y0 + k narrowed to Sint16 |
| FixedPoint.CounterCycles | SGE/sge_blib.cpp:2111 | every 65536 turns the Sint16 counter is back where it was |
| FixedPoint.CounterAgrees | SGE/sge_blib.cpp:2111 | with a last row below 32767 the Sint16 counter equals the unbounded one on every turn up to the exit |
| PixelFormats.MapRGBReadsBack | SGE/sge_blib.cpp:42-46 | in a byte-aligned 32-bit format each channel of MapRGB(r, g, b) reads back as r, g and b |
| PixelFormats.RedReadsBack | SGE/sge_blib.cpp:42-46 | the red channel of MapRGB(r, g, b) reads back as r |
| PixelFormats.GreenReadsBack | SGE/sge_blib.cpp:42-46 | the green channel reads back as g |
| PixelFormats.BlueReadsBack | SGE/sge_blib.cpp:42-46 | the blue channel reads back as b |
| PixelFormats.ScaleRGBPerChannel | SGE/sge_blib.cpp:53-62 | in a byte-aligned format ScaleRGB scales each channel on its own, `(c * factor) >> 16` clamped to [0, 255] |
| Surfaces.Texel | SGE/sge_blib.cpp:259 | a texel read gives a pixel value of the texture's depth |
| Surfaces.RowMajor | SGE/sge_blib.cpp:253-257 | pixel (x, y) of a surface is inside its buffer at `y * pitch + x` |
| Surfaces.RowMajorInjective | SGE/sge_blib.cpp:253-257 | distinct pixels of a row-major buffer have distinct indices |
| Surfaces.RowBefore | SGE/sge_blib.cpp:253-257 | a whole row lies before every later row |
| Scanline.Ordered | SGE/sge_blib.cpp:214-219 | the ends are swapped, attributes with them, exactly when x1 > x2, so that x1 <= x2 afterwards |
| Scanline.RunResultStep | SGE/sge_blib.cpp:255-267 | one turn of the pixel loop writes the pixel at column x and no other |
| Scanline.DrawSpan | SGE/sge_blib.cpp:208-240 | orders the ends, computes the steps, rejects a span outside the clip rectangle, moves the accumulators to the clip edge and draws; the new buffer is SpanResult of the old |
| Scanline.DrawRun | SGE/sge_blib.cpp:255-267 | the pixel loop shades columns x1..x2 of the row under the accumulators of each column and changes no other pixel |
| Scanline.ShadeAt | SGE/sge_blib.cpp:243-262 | one pixel: the key test where this drawer makes one, then the stored value |
| Scanline.MatchesKey | SGE/sge_blib.cpp:803-807 | a texel is skipped exactly when it equals the source key or one of the listed keys, as the drawer tests them |
| Scanline.IsKey | SGE/sge_blib.cpp:1454-1460 | the linear key search finds the texel exactly when some key (narrowed to Uint8 on the 8-bit path) equals it |
| Scanline.FadedLine | SGE/sge_blib.cpp:66-185 | `_FadedLine`: the buffer becomes SpanResult under gouraud shading of r, g, b |
| Scanline.TexturedLine | SGE/sge_blib.cpp:208-423 | `_TexturedLine`: the buffer becomes SpanResult under texture sampling |
| Scanline.FadedTexturedLine | SGE/sge_blib.cpp:428-671 | `_FadedTexturedLine`: the buffer becomes SpanResult under shaded texture sampling, no key |
| Scanline.FadedTexturedLineColorKey | SGE/sge_blib.cpp:676-906 | `_FadedTexturedLineColorKey`: as above, testing the source key |
| Scanline.FadedTexturedLineColorKeys | SGE/sge_blib.cpp:1636-1874 | `_FadedTexturedLineColorKeys`: as above, testing a list of keys |
| Scanline.PreCalcFadedTexturedLine | SGE/sge_blib.cpp:911-1143 | `_PreCalcFadedTexturedLine`: texels through the palette of row `I >> 8`, with a Uint16 intensity |
| Scanline.PreCalcFadedTexturedLineColorKey | SGE/sge_blib.cpp:1148-1384 | the pre-calculated drawer testing the source key |
| Scanline.PreCalcFadedTexturedLineColorKeys | SGE/sge_blib.cpp:1389-1631 | the pre-calculated drawer testing a list of keys narrowed to Uint8 |
| Scanline.AdvanceAt | SGE/sge_blib.cpp:265-266 | k single steps add k times the step to every accumulator |
| Scanline.AdvanceNext | SGE/sge_blib.cpp:265-266 | k + 1 steps are one step after k steps |
| Scanline.InterpNext | SGE/sge_blib.cpp:255-267 | one column to the right is one step of every accumulator |
| Scanline.SkipIsAdvance | SGE/sge_blib.cpp:232-238 | moving the accumulators `(xmin - x1) * step` at once, as clipping does, equals that many single steps |
| Scanline.AdvanceAgrees | SGE/sge_blib.cpp:255-267 | each accumulator moves on its own: equal start and step give equal values |
| Scanline.AdvanceAdd | SGE/sge_blib.cpp:255-267 | j steps followed by k steps are j + k steps |
| Scanline.SpanWritesOnlyClippedRun | SGE/sge_blib.cpp:229-240 | a span changes only pixels of its own row, inside the clip rectangle and between its ends |
| Scanline.SpanPixel | SGE/sge_blib.cpp:229-267 | every pixel of the clipped run is shaded under the accumulators of its column, counted from the unclipped left end |
| Scanline.ClippingOnlyMasks | SGE/sge_blib.cpp:232-238 | two clip rectangles give the same value to every pixel both let through: clipping decides which pixels are drawn, not what they get |
| Scanline.ShadeIgnoresClip | SGE/sge_blib.cpp:243-262 | the value of a pixel does not depend on the clip rectangle |
| Scanline.WrittenIgnoresClip | SGE/sge_blib.cpp:243-262 | nor does the stored value before the key test |
| Scanline.ReversedSpanDrawsSame | SGE/sge_blib.cpp:214-219 | giving the two ends in the other order draws the same buffer |
| Scanline.FixedChannelBetweenEnds | SGE/sge_blib.cpp:222-227 | between the ends each 16.16 colour or texture channel stays between its two end values, so the Uint8 narrowing loses nothing |
| Scanline.KeyedRun | SGE/sge_blib.cpp:787-807 | the keyed drawers leave a key-matching texel's pixel alone and write the rest: at 32 bits the shaded ones write the texel scaled by the intensity; at 8 bits the textured one (line 261) copies the texel and the pre-calculated ones (line 1211) write its entry in the palette of row `I >> 8` |
| Scanline.KeyIgnored | SGE/sge_blib.cpp:744-786 | no drawer tests a key at 16 or 24 bits; the shaded ones do not at 8 bits, the pre-calculated ones not at 32 bits, the translating path never |
| Scanline.EightBitShadingIgnoresIntensity | SGE/sge_blib.cpp:481-496 | the 8-bit shaded drawers copy texels unshaded: changing the end intensities changes no pixel |
| Scanline.EightBitRunsAgree | SGE/sge_blib.cpp:481-496 | two 8-bit runs whose ends differ only in intensity produce the same buffer |
| Scanline.SameTexCoords | SGE/sge_blib.cpp:428-471 | spans whose ends share texture coordinates sample the same coordinates at every column |
| Scanline.SameTexelSameShade | SGE/sge_blib.cpp:481-496 | at 8 bits a shaded pixel depends on the texture coordinates only |
| Scanline.SteppedU16Wraps | SGE/sge_blib.cpp:927-979 | a Uint16 intensity wrapped at every step equals the unbounded accumulator wrapped once |
| Scanline.Wrap16Add | SGE/sge_blib.cpp:979 | wrapping before an addition and after it agree modulo 2^16 |
| Edges.EdgeXBetween | SGE/sge_blib.cpp:2095-2116 | on every row of an edge the x handed to the span drawer lies between the x of its two vertices |
| Edges.XBetween | SGE/sge_blib.cpp:2095-2116 | the same for any accumulators whose x starts at a.x and steps toward b.x |
| Edges.RowSpanInRect | SGE/sge_blib.cpp:2111-2117 | a span drawn between two edges lies in any rectangle holding its row and both edges' x ranges |
| Edges.SwapIfBelow | SGE/sge_blib.cpp:2064-2068 | one conditional swap puts the upper vertex first and keeps both vertices, attributes included |
| Edges.OrderPair | SGE/sge_blib.cpp:2064-2068 | the swap on locals computes SwapIfBelow |
| Edges.WalkBand | SGE/sge_blib.cpp:2111-2117 | the band loop draws the span of every row and leaves both edges' accumulators stepped n times; it counts with an unbounded integer, so a band ending on row 32767 is walked once (the intended behaviour, see Findings) |
| Edges.BandRows | SGE/sge_blib.cpp:2111-2117 | a band of k rows has k spans, on rows y0, y0 + 1, ... |
| Edges.BandRowAt | SGE/sge_blib.cpp:2111-2117 | row j of a band is drawn from the accumulators after j steps |
| Edges.BandRowCarried | SGE/sge_blib.cpp:2127-2133 | a band whose left edge was already stepped `off` times draws row j from `off + j` steps |
| Edges.CarriedEdgeRow | SGE/sge_blib.cpp:2127-2133 | the same for the long edge carried from the upper band into the lower one |
| Edges.DrawSpans | SGE/sge_blib.cpp:2111-2133 | drawing spans in order leaves the buffer Paint describes |
| Edges.PaintStaysInRect | SGE/sge_blib.cpp:2136-2147 | spans that all lie in a rectangle change no pixel outside it or outside the clip rectangle |
| Edges.Narrowed | SGE/sge_blib.cpp:2147 | what reaches sge_UpdateRect: nothing for no rectangle; through numeric_cast a width or height outside [0, 65535] throws; otherwise a fitting rectangle arrives unchanged and a wider one congruent modulo 2^16 |
| Trigons.SortedByY | SGE/sge_blib.cpp:2063-2078 | the three conditional swaps order the vertices by y and keep them, each with its own attributes |
| Trigons.SortedByYPermutes | SGE/sge_blib.cpp:2063-2078 | sorting permutes the three vertices |
| Trigons.SortedByYBounds | SGE/sge_blib.cpp:2141-2147 | the sorted vertices span the same x and y range as those given |
| Trigons.UpperBand | SGE/sge_blib.cpp:2104-2118 | the upper band has one span per row from y1 to y2, or one span when flat; rows up to 32767 included (the loop as written never leaves such a band, see Findings) |
| Trigons.LowerBand | SGE/sge_blib.cpp:2120-2134 | the lower band has one span per row from y2 + 1 to y3, or one span when flat; rows up to 32767 included (see Findings) |
| Trigons.UpperRow | SGE/sge_blib.cpp:2111-2117 | row y1 + j is the span between edge 1-2 and edge 1-3, each stepped j times |
| Trigons.LowerRow | SGE/sge_blib.cpp:2127-2133 | row y2 + 1 + j is the span between edge 1-3, carried on, and edge 2-3 stepped j times |
| Trigons.TrigonCalls | SGE/sge_blib.cpp:2056-2134 | a triangle makes no span call exactly when y1 = y3 as given |
| Trigons.BandRowNumbers | SGE/sge_blib.cpp:2111-2133 | the row of each span of the two bands |
| Trigons.TrigonRowsExact | SGE/sge_blib.cpp:2104-2134 | the span drawer is called for every row from the top vertex to the bottom one and for no other |
| Trigons.RowsOfConcat | SGE/sge_blib.cpp:2104-2134 | two runs of spans within rows lo..hi make one within them |
| Trigons.BandsInDirty | SGE/sge_blib.cpp:2141-2147 | every span of both bands lies in the rectangle the triangle reports |
| Trigons.UpperInDirty | SGE/sge_blib.cpp:2141-2147 | every span of the upper band lies in that rectangle |
| Trigons.UpperRowInDirty | SGE/sge_blib.cpp:2141-2147 | each sloped upper row does |
| Trigons.LowerInDirty | SGE/sge_blib.cpp:2141-2147 | every span of the lower band does |
| Trigons.LowerRowInDirty | SGE/sge_blib.cpp:2141-2147 | each sloped lower row does |
| Trigons.TrigonSpansInDirty | SGE/sge_blib.cpp:2141-2147 | every span call lies inside the reported rectangle: the truncated steps never overshoot a vertex |
| Trigons.TrigonStaysInDirty | SGE/sge_blib.cpp:2056-2148 | a triangle changes no pixel outside its reported rectangle or the clip rectangle; a rejected one changes none |
| Trigons.TrigonReportSize | SGE/sge_blib.cpp:2141-2147 | the reported rectangle is 1 to 65536 columns wide and 2 to 65536 rows high; the width is 65536, too wide for a Uint16, exactly when the vertices span every Sint16 column, and the height exactly when they span every row |
| Trigons.WideTrigonUpdate | SGE/sge_blib.cpp:2147 | a triangle across every column makes numeric_cast throw, and would reach sge_UpdateRect as width 0 as an int |
| Trigons.TrigonNeverReturns | SGE/sge_blib.cpp:2111-2127 | with its lowest vertex on row 32767 a triangle that is not rejected enters a band loop bounded by 32767 from a start that needs no wrap; the Sint16 counter stays within the bound and repeats every 65536 turns, so the rasteriser as written never returns |
| Trigons.SortVertices | SGE/sge_blib.cpp:2063-2078 | the swaps on locals compute SortedByY |
| Trigons.WalkUpper | SGE/sge_blib.cpp:2094-2118 | the upper loop makes the upper band's calls and leaves edge 1-3 stepped to the lower band |
| Trigons.WalkLower | SGE/sge_blib.cpp:2120-2134 | the lower loop makes the lower band's calls |
| Trigons.WalkTrigon | SGE/sge_blib.cpp:2056-2134 | the whole walk makes TrigonCalls |
| Trigons.DrawTrigon | SGE/sge_blib.cpp:2416-2552 | a rasteriser paints its span calls in order and hands the vertices' bounding rectangle, narrowed as Narrowed says, to sge_UpdateRect, or nothing when rejected |
| Trigons.FilledTrigon | SGE/sge_blib.cpp:2056-2148 | `sge_FilledTrigon` makes the `_HLine` calls TrigonCalls lists and reports TrigonReport through numeric_cast; `sge_FilledTrigonAlpha` (lines 2158-2241) makes the same calls to `_HLineAlpha` and the same report |
| Trigons.FadedTrigon | SGE/sge_blib.cpp:2252-2411 | `sge_FadedTrigon` paints gouraud spans from the colours SDL_GetRGB decodes; its report wraps to Uint16 |
| Trigons.TexturedTrigon | SGE/sge_blib.cpp:2416-2552 | `sge_TexturedTrigon` paints textured spans; its report goes through numeric_cast |
| Trigons.FadedTexturedTrigon | SGE/sge_blib.cpp:2557-2731 | `sge_FadedTexturedTrigon` paints shaded textured spans; its report goes through numeric_cast |
| Trigons.FadedTexturedTrigonColorKeys | SGE/sge_blib.cpp:2922-3099 | the same, with a key list; its report wraps to Uint16 |
| Trigons.PreCalcFadedTexturedTrigon | SGE/sge_blib.cpp:2736-2917 | the same, through pre-calculated palettes; its report goes through numeric_cast |
| Trigons.PreCalcFadedTexturedTrigonColorKeys | SGE/sge_blib.cpp:3104-3281 | the same, through palettes and with a key list; its report wraps to Uint16 |
| Rects.SortQuad | SGE/sge_blib.cpp:3294-3336 | the six conditional swaps order the four vertices by y |
| Rects.SortQuadPermutes | SGE/sge_blib.cpp:3294-3336 | sorting permutes the four vertices, attributes with them |
| Rects.InsertKeepsVertices | SGE/sge_blib.cpp:3316-3336 | moving the fourth vertex into any place keeps the same vertices |
| Rects.InsertLast | SGE/sge_blib.cpp:3316-3336 | the last three swaps move the fourth vertex to its place among three sorted ones |
| Rects.AcceptedIsWalkable | SGE/sge_blib.cpp:3291-3349 | a quad the test `y1 == y3 \|\| y1 == y4 \|\| y4 == y2` lets through has non-zero divisors y3 - y1 and y4 - y2 once sorted |
| Rects.ThreeOnARowRejected | SGE/sge_blib.cpp:3291 | three vertices on one row always include a pair the rejection test compares |
| Rects.UpperBand | SGE/sge_blib.cpp:3570-3595 | one span per row from y1 to y2, or one when flat |
| Rects.MiddleBand | SGE/sge_blib.cpp:3597-3611 | one span per row from y2 + 1 to y3 |
| Rects.LowerBand | SGE/sge_blib.cpp:3613-3638 | one span per row from y3 + 1 to y4, or one when flat; rows up to 32767 included (see Findings) |
| Rects.UpperRow | SGE/sge_blib.cpp:3581-3594 | row y1 + j takes x and texture coordinates from edge 1-2 and the intensity from edge 1-3 on the left, the reverse on the right |
| Rects.MiddleRow | SGE/sge_blib.cpp:3598-3611 | row y2 + 1 + j is between edge 1-3 carried on and edge 2-4 stepped j times |
| Rects.LowerRow | SGE/sge_blib.cpp:3624-3637 | row y3 + 1 + j mixes edge 2-4 and edge 3-4 the same way |
| Rects.RectCalls | SGE/sge_blib.cpp:3286-3436 | a quad makes no span call exactly when the rejection test holds |
| Rects.SortKeepsFit | SGE/sge_blib.cpp:3294-3336 | sorting keeps every vertex's attributes |
| Rects.SortKeepsWidth | SGE/sge_blib.cpp:3294-3336 | a common attribute count survives sorting |
| Rects.RectBandRowNumbers | SGE/sge_blib.cpp:3376-3436 | the row of each span of the three bands |
| Rects.RectRowsExact | SGE/sge_blib.cpp:3376-3436 | the span drawer is called for every row from the top vertex to the bottom one and for no other |
| Rects.BandsCoverRows | SGE/sge_blib.cpp:3376-3436 | bands numbered y1..y2, y2 + 1..y3 and y3 + 1..y4 cover exactly rows y1..y4 |
| Rects.Edge24XBetween | SGE/sge_blib.cpp:3349 | the x edge 2-4 hands over stays between x2 and x4 |
| Rects.UpperRowInDirty | SGE/sge_blib.cpp:3446-3454 | each sloped upper row lies in the reported rectangle |
| Rects.MiddleRowInDirty | SGE/sge_blib.cpp:3446-3454 | each middle row does |
| Rects.LowerRowInDirty | SGE/sge_blib.cpp:3446-3454 | each sloped lower row does |
| Rects.RectBandsInDirty | SGE/sge_blib.cpp:3446-3454 | every span of the three bands does |
| Rects.RectSpansInDirty | SGE/sge_blib.cpp:3446-3454 | every span call of a quad lies inside the rectangle it reports |
| Rects.BandsInRect | SGE/sge_blib.cpp:3376-3436 | three bands inside a rectangle make a run of spans inside it |
| Rects.RectStaysInDirty | SGE/sge_blib.cpp:3286-3455 | a quad changes no pixel outside its reported rectangle or the clip rectangle; a rejected one changes none |
| Rects.InsertBounds | SGE/sge_blib.cpp:3316-3336 | moving the fourth vertex into place keeps the least and greatest x, and puts the least and greatest row first and last |
| Rects.SortQuadBounds | SGE/sge_blib.cpp:3446-3454 | the sorted quad has the extent of the quad as given, its top row on vertex 1 and its bottom row on vertex 4 |
| Rects.RectReportSize | SGE/sge_blib.cpp:3446-3454 | the reported rectangle is 1 to 65536 columns wide and 2 to 65536 rows high; the width is 65536 exactly when the vertices span every Sint16 column, the height exactly when they span every row |
| Rects.WideRectUpdate | SGE/sge_blib.cpp:3454 | a quad across every column reaches sge_UpdateRect as width 0 |
| Rects.MiddleStartFits | SGE/sge_blib.cpp:3401 | the middle loop's start y2 + 1 of an accepted quad is at most y4, so it never wraps |
| Rects.RectNeverReturns | SGE/sge_blib.cpp:3386-3424 | with its lowest vertex on row 32767 a quad that is not rejected enters the middle or lower loop, bounded by 32767, from a start that needs no wrap; the Sint16 counter stays within the bound and repeats every 65536 turns, so the rasteriser as written never returns |
| Rects.Edge24Intensity | SGE/sge_blib.cpp:3531-3544 | edge 2-4's intensity starts at vertex 2's but steps by (j4 - j1) / (y4 - y2), because the step is taken from i2 while it still holds vertex 1's |
| Rects.LowerIntensityLeavesRange | SGE/sge_blib.cpp:3544 | so the lower band can hand out an intensity outside the vertices' range: 150 from intensities 0 and 100 |
| Rects.SortQuadVertices | SGE/sge_blib.cpp:3294-3336 | the swaps on locals compute SortQuad |
| Rects.WalkUpper | SGE/sge_blib.cpp:3570-3595 | the upper loop makes the upper band's calls and leaves edge 1-3 stepped to the middle band |
| Rects.UpperAccumulators | SGE/sge_blib.cpp:3581-3594 | the upper loop's mixed accumulators after j rows are the two edges' accumulators, mixed |
| Rects.WalkMiddle | SGE/sge_blib.cpp:3597-3611 | the middle loop makes the middle band's calls and leaves edge 2-4 stepped to the lower band |
| Rects.WalkLower | SGE/sge_blib.cpp:3613-3638 | the lower loop makes the lower band's calls |
| Rects.LowerAccumulators | SGE/sge_blib.cpp:3624-3637 | the lower loop's accumulators after j rows are edges 2-4 and 3-4, mixed |
| Rects.MixAdvance | SGE/sge_blib.cpp:3581-3594 | mixed accumulators step as their two sources do, channel by channel |
| Rects.MixStep | SGE/sge_blib.cpp:3581-3594 | one step of mixed accumulators is the mix of one step of each |
| Rects.MixMix | SGE/sge_blib.cpp:3581-3594 | mixing a mix back recovers the first accumulators |
| Rects.MixSame | SGE/sge_blib.cpp:3581-3594 | mixing accumulators with themselves changes nothing |
| Rects.WalkRect | SGE/sge_blib.cpp:3286-3436 | the whole walk makes RectCalls |
| Rects.DrawRect | SGE/sge_blib.cpp:3286-3455 | a quad rasteriser paints its span calls in order and hands the vertices' bounding rectangle, its width and height wrapped to Uint16, to sge_UpdateRect, or nothing when rejected |
| Rects.TexturedRect | SGE/sge_blib.cpp:3286-3455 | `sge_TexturedRect` paints textured spans; its report wraps to Uint16 |
| Rects.FadedTexturedRect | SGE/sge_blib.cpp:3460-3657 | `sge_FadedTexturedRect`: vertices 1 and 3 take intensity I1, vertices 2 and 4 take I2; the source key is tested |
| Rects.PreCalcFadedTexturedRect | SGE/sge_blib.cpp:3662-3862 | `sge_PreCalcFadedTexturedRect`, with Uint16 intensities and palettes |
| PolyEdges.MakeLine | SGE/sge_blib.cpp:4026-4070 | an edge record with its upper end first, accumulators at that end and steps `((b - a) << 16) / (y2 - y1)`, or 0 when flat |
| PolyEdges.LineAfter | SGE/sge_blib.cpp:3881-3885 | updates change only the accumulators and the values handed out |
| PolyEdges.LineAfterAcc | SGE/sge_blib.cpp:4322-4338 | after k updates the accumulators have taken k steps and the values handed out are those one step earlier |
| PolyEdges.RowsStep | SGE/sge_blib.cpp:3958 | every row an edge crosses adds one update |
| PolyEdges.CrossingX | SGE/sge_blib.cpp:3958-3968 | on each row an edge crosses, the x it hands out is `(x1 << 16) + k * fm` shifted down, and lies between its ends' x |
| PolyEdges.CrossingColour | SGE/sge_blib.cpp:4322-4338 | on a shaded edge every colour handed out lies between the colours of its ends |
| PolyEdges.Selected | SGE/sge_blib.cpp:3954-3970 | the edges crossing row y and not flat, each exactly once, in array order |
| PolyEdges.GetScanline | SGE/sge_blib.cpp:3948-3977 | updates exactly the crossing edges and returns them radix-sorted by x |
| PolyEdges.SelectedSnoc | SGE/sge_blib.cpp:3954-3970 | the collection loop adds one more edge at a time, and only a crossing one |
| PolyEdges.SelectedStepRow | SGE/sge_blib.cpp:3968 | updating edges leaves the rows they cross alone |
| PolyEdges.SelectedAgree | SGE/sge_blib.cpp:3958 | edges with the same ends cross the same rows |
| PolyEdges.LinesAtStep | SGE/sge_blib.cpp:4090-4092 | one get_scanline moves the table from row y to row y + 1 |
| PolyEdges.LinesAtStart | SGE/sge_blib.cpp:4090 | no edge has been updated before the first row of the scan |
| PolyEdges.SelectedLinesAt | SGE/sge_blib.cpp:4090-4092 | the updated edges cross the same rows as the original ones |
| PolyEdges.Dedup | SGE/sge_blib.cpp:4100-4102 | the list as the pairing loop walks it holds only edges of the table |
| PolyEdges.RemoveDup | SGE/sge_blib.cpp:3980-3986 | remove_dup at position i keeps the list up to i, and what is left of the walk from i is the edge at i followed by the walk from i + 1 of the new list |
| PolyEdges.DedupWalk | SGE/sge_blib.cpp:4100-4102 | the walk so far plus the walk over the rest is the walk over the whole list |
| PolyEdges.DedupKeeps | SGE/sge_blib.cpp:3980-3986 | removing doubles keeps the first edge and brings in no edge |
| PolyEdges.DedupNoDup | SGE/sge_blib.cpp:3983-3985 | without doubled neighbours the whole list is kept |
| PolyEdges.DedupSorted | SGE/sge_blib.cpp:3980-3986 | a list sorted by x stays sorted once doubles are dropped |
| RadixSort.Digit | SGE/sge_blib.cpp:3916 | `(x >> (4 * i)) & 0xF` is a digit in [0, 15], for a negative x too |
| RadixSort.Low | SGE/sge_blib.cpp:3912-3916 | the number formed by the low i digits is below 16^i |
| RadixSort.RSort | SGE/sge_blib.cpp:3895-3945 | rsort returns an empty list unchanged, otherwise the result of four passes |
| RadixSort.Distribute | SGE/sge_blib.cpp:3914-3924 | each bucket receives, in list order, exactly the elements of its digit |
| RadixSort.Recombine | SGE/sge_blib.cpp:3926-3941 | the buckets are linked in digit order and emptied |
| RadixSort.PassCount | SGE/sge_blib.cpp:3912-3942 | a pass keeps every element exactly as often as before |
| RadixSort.RadixCount | SGE/sge_blib.cpp:3912-3942 | so does any number of passes |
| RadixSort.RadixPermutes | SGE/sge_blib.cpp:3895-3945 | the sort permutes the list |
| RadixSort.RadixMembers | SGE/sge_blib.cpp:3895-3945 | the sort brings in no element |
| RadixSort.RadixNil | SGE/sge_blib.cpp:3897-3898 | an empty list stays empty |
| RadixSort.SameCounts | SGE/sge_blib.cpp:3895-3945 | two lists holding every value equally often are permutations of each other |
| RadixSort.BucketMembers | SGE/sge_blib.cpp:3914-3924 | a bucket holds exactly the elements of its digit |
| RadixSort.BucketSorted | SGE/sge_blib.cpp:3918-3923 | a bucket keeps the order of the list it was filled from |
| RadixSort.DigitOrder | SGE/sge_blib.cpp:3916 | a smaller digit i means a smaller number formed by the low i + 1 digits |
| RadixSort.DigitSame | SGE/sge_blib.cpp:3916 | equal digits i leave the low i + 1 digits as far apart as the low i |
| RadixSort.GatherSorted | SGE/sge_blib.cpp:3926-3941 | buckets 0..k-1 of a pass over a list sorted on the low i digits are sorted on the low i + 1 |
| RadixSort.RadixSorts | SGE/sge_blib.cpp:3912-3942 | after i passes over edges in increasing order the list is sorted on the low i digits, ties in edge order |
| RadixSort.LowIsUint16 | SGE/sge_blib.cpp:3912 | the four digits make up the key read as a Uint16 |
| RadixSort.SortedByLow16 | SGE/sge_blib.cpp:3895-3945 | the sort orders the list by the key read as a Uint16, equal keys in edge order |
| RadixSort.SortedByX | SGE/sge_blib.cpp:3895-3945 | for keys in [0, 65535] the sorted list never puts a larger x before a smaller one |
| Polygons.FeedOpens | SGE/sge_blib.cpp:4104-4105 | a crossing into an empty pen sets x1 = x + 1 |
| Polygons.FeedCloses | SGE/sge_blib.cpp:4106-4124 | a crossing into a pen with x1 set closes the pair and fills it, except a reversed pair in the opaque case |
| Polygons.RunPairs | SGE/sge_blib.cpp:4097-4125 | with crossings in [0, 32766] the loop fills first with second, third with fourth, and an unpaired last crossing is left in x1 |
| Polygons.RunOpens | SGE/sge_blib.cpp:4104-4105 | an odd crossing opens a pair |
| Polygons.RunCloses | SGE/sge_blib.cpp:4106-4124 | an even crossing closes the pair the one before it opened |
| Polygons.RunAgree | SGE/sge_blib.cpp:4097 | the colours left in the pen from the row before change no fill |
| Polygons.RowList | SGE/sge_blib.cpp:4092-4102 | the edges of a row's sorted list, doubles dropped, all edges of the table |
| Polygons.TakeCrossing | SGE/sge_blib.cpp:4102-4124 | one turn of the pairing loop, as the source writes it |
| Polygons.FillCallsConcat | SGE/sge_blib.cpp:4118-4121 | the calls of two runs of fills are the calls of each, in order |
| Polygons.RunSnoc | SGE/sge_blib.cpp:4100-4125 | the loop over one more edge is one more turn |
| Polygons.PairRow | SGE/sge_blib.cpp:4097-4125 | the pairing loop of a row makes the fill calls of the pairs of its de-doubled crossings |
| Fillers.FirstRejected | SGE/sge_blib.cpp:4033-4042 | the first edge with a negative coordinate, every edge before it accepted |
| Fillers.WidenBox | SGE/sge_blib.cpp:4044-4055 | the source's comparisons widen the box as Widen does |
| Fillers.Outline | SGE/sge_blib.cpp:4077-4079 | each edge draws at most one outline line |
| Fillers.Decompose | SGE/sge_blib.cpp:4009-4080 | the loop fills every edge record, widens the box and draws the outline, stopping at the first rejected edge after drawing the outline of those before it |
| Fillers.TakeEdge | SGE/sge_blib.cpp:4012-4079 | one turn of the decomposition loop |
| Fillers.StoreLine | SGE/sge_blib.cpp:4057-4075 | line[i] becomes the record of edge i |
| Fillers.NothingDecomposed | SGE/sge_blib.cpp:4005-4006 | before the first edge the box is the starting box and no outline is drawn |
| Fillers.FirstRejectedStep | SGE/sge_blib.cpp:4033-4042 | the next edge is the first rejected one exactly when it is rejected |
| Fillers.DecomposeStep | SGE/sge_blib.cpp:4044-4079 | one more edge widens the box and adds its outline |
| Fillers.FillPolygon | SGE/sge_blib.cpp:3992-4142 | a filler returns PolygonOutcome: -1 for fewer than three vertices or a rejected edge, otherwise 0 after the outline and every row of the box |
| Fillers.ScanBox | SGE/sge_blib.cpp:4086-4141 | the accepted branch scans every row of the box and reports it |
| Fillers.AcceptedIsDone | SGE/sge_blib.cpp:4086-4141 | an accepted polygon returns 0 with the box reported |
| Fillers.OutcomeCases | SGE/sge_blib.cpp:4009-4141 | the outcome of a polygon with three or more vertices, branch by branch |
| Fillers.ScanRows | SGE/sge_blib.cpp:4090-4126 | the scan loop makes every row's calls from ymin to ymax once, in order |
| Fillers.ScanStep | SGE/sge_blib.cpp:4090-4126 | one more row appends that row's calls |
| Fillers.ScanNeverEnds | SGE/sge_blib.cpp:4090 | with ymax = 32767 the loop test always holds and the counter repeats every 65536 turns |
| Fillers.ScanRow | SGE/sge_blib.cpp:4091-4125 | one turn of the scan: get_scanline, then the pairing loop, moving the table one row on |
| Fillers.RowListIndexes | SGE/sge_blib.cpp:4092 | the list get_scanline returns names edges of the table |
| Fillers.BoxTops | SGE/sge_blib.cpp:4090 | the first row of the scan is at or above every edge, so no edge has been updated yet |
| Fillers.BoxCoversEdges | SGE/sge_blib.cpp:4044-4055 | the box covers both ends of every edge it was widened by |
| Fillers.FilledPolygonAlpha | SGE/sge_blib.cpp:3992-4142 | `sge_FilledPolygonAlpha`: outline with `_Line` when opaque, fills with `_HLine`, or `_HLineAlpha` from x1 - 1 |
| Fillers.AAFilledPolygon | SGE/sge_blib.cpp:4163-4304 | `sge_AAFilledPolygon`: outline with `_AALineAlpha`, fills with `_HLine`, reversed pairs skipped |
| Fillers.FadedPolygonAlpha | SGE/sge_blib.cpp:4343-4535 | `sge_FadedPolygonAlpha`: shaded edges, `_FadedLine` fills when opaque, alpha `sge_DomcLine` fills otherwise |
| Fillers.AAFadedPolygon | SGE/sge_blib.cpp:4545-4728 | `sge_AAFadedPolygon`: outline with `_AAmcLineAlpha`, `_FadedLine` fills |
| FillerProperties.EdgeEnds | SGE/sge_blib.cpp:4012-4031 | both ends of edge e are vertex e and the next one, the upper one first |
| FillerProperties.RejectsNegative | SGE/sge_blib.cpp:4033-4042 | some edge is rejected exactly when some vertex has a negative coordinate |
| FillerProperties.StatusIff | SGE/sge_blib.cpp:3994-4141 | a filler returns 0 exactly for three or more vertices with no negative coordinate, and -1 with no rectangle otherwise |
| FillerProperties.BoxIsBounding | SGE/sge_blib.cpp:4005-4055 | the box of an accepted polygon covers every vertex and each side passes through one |
| FillerProperties.DirtyIsBoundingBox | SGE/sge_blib.cpp:4139 | the reported rectangle is the vertices' bounding box, at least one pixel wide and high |
| FillerProperties.RowCrossingsIn | SGE/sge_blib.cpp:4092-4107 | every crossing of a row lies between the least and greatest x of the vertices |
| FillerProperties.CrossingIn | SGE/sge_blib.cpp:4092 | the x an edge hands out on row y lies between its ends' x |
| FillerProperties.RunWithin | SGE/sge_blib.cpp:4097-4125 | whatever the crossings, every fill starts one past a crossing and ends on one; in the opaque case it runs left to right |
| FillerProperties.RowIn | SGE/sge_blib.cpp:4090-4126 | every call of a row lies in the box |
| FillerProperties.ScanIn | SGE/sge_blib.cpp:4090-4126 | every call of the scan lies in the box |
| FillerProperties.CallsInDirtyRect | SGE/sge_blib.cpp:4077-4139 | every line a filler draws, outline and fill, lies inside the rectangle it reports |
| FillerProperties.BoxFacts | SGE/sge_blib.cpp:4033-4055 | the box of an accepted polygon lies in columns 0 to 32767 and holds both ends of every edge |
| FillerProperties.RowFillsPairs | SGE/sge_blib.cpp:4090-4126 | each row's crossings are sorted by x, and with no vertex in column 32767 the row fills first with second, third with fourth |
| FillerProperties.PairsOrdered | SGE/sge_blib.cpp:4097-4125 | for sorted crossings the fills run left to right between the first and the last crossing |
| Registry.FirstFree | CGame.cpp:79-83 | the first NULL slot, every slot before it taken |
| Registry.Below | CGame.cpp:103-110 | the nearest held slot below slot i, with every slot between empty |
| Registry.MenuIndex | CGame.cpp:99-101 | the first slot holding the menu, no slot before it holding it |
| Registry.WindowIndex | CGame.cpp:157-159 | the first slot holding the window |
| Registry.CallbackIndex | CGame.cpp:202-204 | the first slot holding the callback |
| Registry.HighestPriority | CGame.cpp:125-132 | the highest priority held, 0 when none is positive: at least every held priority and attained unless 0 |
| Registry.FreeSlot | CGame.cpp:79-92 | registering succeeds exactly when some slot is free |
| Registry.RegisterMenuOutcome | CGame.cpp:73-93 | the menu goes in the first free slot, active; every other slot keeps its menu, inactive |
| Registry.UnregisterMenuOutcome | CGame.cpp:95-120 | unregistering succeeds exactly when the menu is held; the first slot holding it is cleared and at most the nearest held slot below changes, becoming active |
| Registry.MenuRoundTrip | CGame.cpp:73-120 | registering a new menu and unregistering it leaves every slot holding the menu it held |
| Registry.NewMenuIndex | CGame.cpp:79-101 | a newly registered menu is found in the slot it was put in |
| Registry.MenuIndexIs | CGame.cpp:99-101 | the first slot holding a menu is the one the search finds |
| Registry.AsWrittenAgreesWhenHeld | CGame.cpp:103-110 | when `Menus[i - 1]` is held it is the nearest held slot below |
| Registry.ActivationOfEmptySlot | CGame.cpp:103-110 | register 1, 3, 2 and unregister 3: unregistering 2 then activates the NULL slot 1 |
| Registry.RegisterWindowOutcome | CGame.cpp:122-151 | the window goes in the first free slot, active, one above the highest priority; every other window keeps its priority and becomes inactive |
| Registry.UnregisterWindowOutcome | CGame.cpp:153-178 | unregistering succeeds exactly when the window is held; its first slot is cleared and at most the nearest held slot below changes, becoming active |
| Registry.CallbackRoundTrip | CGame.cpp:180-214 | registering a new callback and unregistering it gives back the table |
| Registry.CallbackIndexIs | CGame.cpp:202-204 | the first slot holding a callback is the one the search finds |
| Registry.UnregisterCallbackFirstOnly | CGame.cpp:202-211 | only the first slot holding a callback is cleared: one registered twice stays registered once |
| Registry.Game.constructor | CGame.cpp:41-46 | every slot of every table starts NULL |
| Registry.Game.RegisterMenu | CGame.cpp:73-93 | NULL fails and changes nothing; otherwise success exactly when a slot is free, and the table becomes RegisteredMenus |
| Registry.Game.UnregisterMenu | CGame.cpp:95-120 | NULL fails; otherwise success exactly when the menu is held, and the table becomes UnregisteredMenus |
| Registry.Game.RegisterWindow | CGame.cpp:122-151 | NULL fails; otherwise success exactly when a slot is free, and the table becomes RegisteredWindows |
| Registry.Game.UnregisterWindow | CGame.cpp:153-178 | NULL fails; otherwise success exactly when the window is held, and the table becomes UnregisteredWindows |
| Registry.Game.RegisterCallback | CGame.cpp:180-196 | NULL fails; otherwise success exactly when a slot is free, and the callback fills the first one |
| Registry.Game.UnregisterCallback | CGame.cpp:198-214 | NULL fails; otherwise success exactly when the callback is held, and its first slot is cleared |
| Registry.ActivateBelow | CGame.cpp:103-110 | the search below slot i finds the nearest held slot and activates it, changing no other slot |
| Registry.HighestHeld | CGame.cpp:125-132 | the priority scan computes HighestPriority and changes nothing |
| Registry.ActivateWindowBelow | CGame.cpp:161-168 | the search below slot i finds the nearest held window and activates it, changing no other slot |

## Left out

- 32-bit overflow of the 16.16 arithmetic (`(dx << 16)`, `k * step`) is not modelled. It is reachable: a difference of two Sint16 values can be as large as 65535, and `65535 << 16` exceeds the Sint32 range. This happens in the span drawers, triangles and quads whose ends lie more than 32767 columns apart. Products such as `(xmin - x1) * step` for very long spans are computed without wrap-around too. Only the polygon fillers stay in range, because they reject negative coordinates.
- Edges.WalkBand: counts rows with an unbounded integer and admits a band ending on row 32767, as intended. The source's Sint16 loop does not end there (see Findings).
- Trigons.UpperBand: lists each row of a band ending on row 32767 once, as intended. The source's Sint16 loop does not end there (Trigons.TrigonNeverReturns, see Findings).
- Trigons.LowerBand: lists each row of a band ending on row 32767 once, as intended. The source's Sint16 loop does not end there (Trigons.TrigonNeverReturns, see Findings).
- Trigons.TrigonCalls: lists the calls of a triangle whose bottom row is 32767 as a finite sequence, as intended. The source's Sint16 loop does not end there (Trigons.TrigonNeverReturns, see Findings).
- Trigons.TrigonRowsExact: covers rows up to 32767, each once, as intended. The source's Sint16 loop does not end there (Trigons.TrigonNeverReturns, see Findings).
- Trigons.TrigonSpansInDirty: is about the finite walk, including a bottom row of 32767, as intended. The source's Sint16 loop does not end there (Trigons.TrigonNeverReturns, see Findings).
- Trigons.TrigonStaysInDirty: is about the finite walk, including a bottom row of 32767, as intended. The source's Sint16 loop does not end there (Trigons.TrigonNeverReturns, see Findings).
- Trigons.WalkUpper: walks a band ending on row 32767 once, as intended. The source's Sint16 loop does not end there (Trigons.TrigonNeverReturns, see Findings).
- Trigons.WalkLower: walks a band ending on row 32767 once, as intended. The source's Sint16 loop does not end there (Trigons.TrigonNeverReturns, see Findings).
- Trigons.WalkTrigon: returns for a triangle whose bottom row is 32767, as intended. The source's Sint16 loop does not end there (Trigons.TrigonNeverReturns, see Findings).
- Trigons.DrawTrigon: returns for a triangle whose bottom row is 32767, as intended. The source's Sint16 loop does not end there (Trigons.TrigonNeverReturns, see Findings).
- Trigons.FilledTrigon: returns for a triangle whose bottom row is 32767, as intended. The source's Sint16 loop does not end there (Trigons.TrigonNeverReturns, see Findings).
- Trigons.FadedTrigon: returns for a triangle whose bottom row is 32767, as intended. The source's Sint16 loop does not end there (Trigons.TrigonNeverReturns, see Findings).
- Trigons.TexturedTrigon: returns for a triangle whose bottom row is 32767, as intended. The source's Sint16 loop does not end there (Trigons.TrigonNeverReturns, see Findings).
- Trigons.FadedTexturedTrigon: returns for a triangle whose bottom row is 32767, as intended. The source's Sint16 loop does not end there (Trigons.TrigonNeverReturns, see Findings).
- Trigons.FadedTexturedTrigonColorKeys: returns for a triangle whose bottom row is 32767, as intended. The source's Sint16 loop does not end there (Trigons.TrigonNeverReturns, see Findings).
- Trigons.PreCalcFadedTexturedTrigon: returns for a triangle whose bottom row is 32767, as intended. The source's Sint16 loop does not end there (Trigons.TrigonNeverReturns, see Findings).
- Trigons.PreCalcFadedTexturedTrigonColorKeys: returns for a triangle whose bottom row is 32767, as intended. The source's Sint16 loop does not end there (Trigons.TrigonNeverReturns, see Findings).
- Rects.UpperBand: lists each row of its band once; an accepted quad's upper band ends above row 32767 (Rects.MiddleStartFits), so this band is never the one that loops.
- Rects.MiddleBand: lists each row of a band ending on row 32767 once, as intended. The source's Sint16 loop does not end there (Rects.RectNeverReturns, see Findings).
- Rects.LowerBand: lists each row of a band ending on row 32767 once, as intended. The source's Sint16 loop does not end there (Rects.RectNeverReturns, see Findings).
- Rects.RectCalls: lists the calls of a quad whose bottom row is 32767 as a finite sequence, as intended. The source's Sint16 loop does not end there (Rects.RectNeverReturns, see Findings).
- Rects.RectRowsExact: covers rows up to 32767, each once, as intended. The source's Sint16 loop does not end there (Rects.RectNeverReturns, see Findings).
- Rects.RectSpansInDirty: is about the finite walk, including a bottom row of 32767, as intended. The source's Sint16 loop does not end there (Rects.RectNeverReturns, see Findings).
- Rects.RectStaysInDirty: is about the finite walk, including a bottom row of 32767, as intended. The source's Sint16 loop does not end there (Rects.RectNeverReturns, see Findings).
- Rects.WalkUpper: walks its band once; an accepted quad's upper band ends above row 32767 (Rects.MiddleStartFits), so this band is never the one that loops.
- Rects.WalkMiddle: walks a band ending on row 32767 once, as intended. The source's Sint16 loop does not end there (Rects.RectNeverReturns, see Findings).
- Rects.WalkLower: walks a band ending on row 32767 once, as intended. The source's Sint16 loop does not end there (Rects.RectNeverReturns, see Findings).
- Rects.WalkRect: returns for a quad whose bottom row is 32767, as intended. The source's Sint16 loop does not end there (Rects.RectNeverReturns, see Findings).
- Rects.DrawRect: returns for a quad whose bottom row is 32767, as intended. The source's Sint16 loop does not end there (Rects.RectNeverReturns, see Findings).
- Rects.TexturedRect: returns for a quad whose bottom row is 32767, as intended. The source's Sint16 loop does not end there (Rects.RectNeverReturns, see Findings).
- Rects.FadedTexturedRect: returns for a quad whose bottom row is 32767, as intended. The source's Sint16 loop does not end there (Rects.RectNeverReturns, see Findings).
- Rects.PreCalcFadedTexturedRect: returns for a quad whose bottom row is 32767, as intended. The source's Sint16 loop does not end there (Rects.RectNeverReturns, see Findings).
- Fillers.FillPolygon: the polygon's rectangle is returned as computed, with no Uint16 narrowing for sge_UpdateRect. None is needed: an accepted polygon has no negative coordinate (FillerProperties.RejectsNegative), so its width and height are at most 32768.
- Surface locking (`SDL_LockSurface`) is not modelled, and neither is the polygon fillers' status -2 when locking fails. `_sge_update` is not modelled either: the rectangle for `sge_UpdateRect` is always returned.
- The public wrappers `sge_FadedLine`, `sge_TexturedLine` and `sge_FadedTexturedLine` are not modelled. They only lock, call the span drawer and report a rectangle.
- The triangle outlines (`sge_Trigon`, `sge_TrigonAlpha`, `sge_AATrigon*`) are not modelled. They only call line primitives outside the core.
- Trigons.FilledTrigon: `_HLine` and `_HLineAlpha` are outside the core, so their calls are returned rather than drawn. The colour and alpha are not recorded, and one method stands for both the plain and the alpha variant.
- The polygon fillers return the calls they make. `_Line`, `_AALineAlpha`, `sge_DomcLine`, `_AAmcLineAlpha`, `_HLine`, `_HLineAlpha` and `_FadedLine` are outside the filler, so no pixels are drawn. Their overloads taking r, g, b are left out: each maps the colour with SDL_MapRGB and forwards.
- The linked lists of the filler are sequences of edge numbers, not `next` pointers. The `plist` array of pointers to `line` is the `line` array itself.
- The `x` of a new `pline` is left uninitialised by the source; here it starts at zero. It is written by `get_scanline` before it is read. The colours `r1..b2` start at 0 in the source (lines 4360 and 4561), and the decomposition loop then leaves the last edge's colours in them. The model starts them empty, before that loop. Polygons.RunAgree shows that no fill depends on what they hold when the pairing loop begins.
- The colours left in the pairing loop from one row to the next are handed on but never read.
- The `fpline` colour accumulators are `Uint32` in the source and unbounded here. They never go negative, because PolyEdges.CrossingColour keeps every colour between its ends.
- RadixSort.RadixSorts: stability is proved for an input list in increasing edge order. That is the only order `get_scanline` produces.
- SDL_GetRGB on the format-translating path and SDL_MapRGB for 8-bit destinations are caller-supplied functions.
- Texel reads outside the texture's buffer are undefined in the source. Here they read 0.
- The texture is a value, so the source and the destination never alias.
- Registry: a menu, window or callback is an identifier, and its active flag and priority live in the slot that holds it. One object held in two slots is two independent entries.
- Registry: `delete` of an unregistered menu or window, and the `_ADMINMODE` counters, are not modelled.
- `CGame::Execute`, the event loop and the rest of `CGame.cpp` are not part of this model.

## Findings

| source | as written | input that shows it | evidently intended | confidence | as-written member | corrected member |
|---|---|---|---|---|---|---|
| SGE/sge_blib.cpp:4090 (also 4259, 4472, 4671) | `for(sy = ymin; sy <= ymax; sy++)` with a Sint16 `sy`: at ymax = 32767 the increment wraps to -32768 and the test never fails | a polygon with a vertex on row 32767, e.g. (0, 0), (1, 32767), (2, 0) | scan rows ymin to ymax once and return | not executed | Fillers.ScanNeverEnds | Fillers.ScanRows |
| SGE/sge_blib.cpp:2127 (also 2111; the same loops at 2201-3243 in the other triangle rasterisers) | `for(y = y2 + 1; y <= y3; y++)` with a Sint16 `y`: at y3 = 32767 the increment wraps to -32768 and the test never fails; the upper loop does the same when y2 = y3 = 32767 | `sge_FilledTrigon` on (0, 0), (5, 10), (10, 32767) | draw rows y1 to y3 once and return | not executed | Trigons.TrigonNeverReturns | Trigons.WalkTrigon |
| SGE/sge_blib.cpp:3424 (also 3401; the same loops at 3598, 3624, 3801 and 3828) | the middle and lower loops of the quad rasterisers count in a Sint16 `y`: with the bottom row at 32767 the last loop that runs never ends | `sge_TexturedRect` on (0, 0), (5, 10), (10, 20), (0, 32767) | draw rows y1 to y4 once and return | not executed | Rects.RectNeverReturns | Rects.WalkRect |
| CGame.cpp:107 | after finding a held slot `Menus[j]` below slot i, activates `Menus[i - 1]`, which may be NULL | register menus 1, 3, 2 in an empty table, unregister 3, then unregister 2 | activate `Menus[j]`, as UnregisterWindow does at CGame.cpp:165 | not executed | Registry.ActivationOfEmptySlot | Registry.Game.UnregisterMenu |
