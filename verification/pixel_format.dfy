// Packed pixel formats and the two colour helpers of the blitting library:
// MapRGB, which packs three 8-bit channels into a pixel value, and ScaleRGB,
// which multiplies each channel of a pixel by a 16.16 intensity factor.
module PixelFormats {
  import opened FixedPoint

  /** Shift and loss amounts are Uint8 fields of an SDL pixel format. */
  type Shift = n: bv8 | n < 32
  type Loss = n: bv8 | n <= 8

  /** The part of an SDL pixel format these helpers read. */
  datatype Format = Format(
    bytesPerPixel: int,
    rMask: bv32, gMask: bv32, bMask: bv32, aMask: bv32,
    rShift: Shift, gShift: Shift, bShift: Shift,
    rLoss: Loss, gLoss: Loss, bLoss: Loss)

  /** Conversion to Uint32. */
  function U32(v: int): bv32
  {
    (v % 0x1_0000_0000) as bv32
  }

  /** Conversion to Uint8. */
  function U8(v: int): bv8
  {
    ToU8(v) as bv8
  }

  /** Packs three 8-bit channels: every channel loses its low `loss` bits, is
      shifted into place, and the alpha mask is or-ed in. */
  function MapRGB(f: Format, r: bv8, g: bv8, b: bv8): bv32
  {
    (((r as bv32) >> f.rLoss) << f.rShift)
      | (((g as bv32) >> f.gLoss) << f.gShift)
      | (((b as bv32) >> f.bLoss) << f.bShift)
      | f.aMask
  }

  /** MapRGB of the integer parts of three 16.16 channel accumulators, each
      narrowed to Uint8. */
  function MapRGBFixPoint(f: Format, r: int, g: int, b: int): bv32
  {
    MapRGB(f, U8(Shr16(r)), U8(Shr16(g)), U8(Shr16(b)))
  }

  /** One channel of a pixel value: masked, shifted down and narrowed to Uint8. */
  function Channel(v: bv32, mask: bv32, shift: Shift): bv8
  {
    (((v & mask) >> shift) & 0xFF) as bv8
  }

  function Red(f: Format, v: bv32): bv8 { Channel(v, f.rMask, f.rShift) }
  function Green(f: Format, v: bv32): bv8 { Channel(v, f.gMask, f.gShift) }
  function Blue(f: Format, v: bv32): bv8 { Channel(v, f.bMask, f.bShift) }

  /** One channel times a 16.16 factor, `(c * factor) >> 16`, saturated to
      [0, 255]. */
  function ScaleChannel(c: bv8, factor: int): bv8
  {
    Clamp8(Shr16(c as int * factor)) as bv8
  }

  /** Each channel of `value` scaled by the intensity `factor`, packed again. */
  function ScaleRGB(f: Format, value: bv32, factor: int): bv32
  {
    MapRGB(f, ScaleChannel(Red(f, value), factor),
              ScaleChannel(Green(f, value), factor),
              ScaleChannel(Blue(f, value), factor))
  }

  /** A 32-bit format whose three colour channels are whole bytes in distinct
      lanes with no precision lost, and whose alpha mask covers none of them
      (ARGB8888, XRGB8888, ABGR8888, ...). */
  predicate ByteAligned(f: Format)
  {
    && f.rLoss == 0 && f.gLoss == 0 && f.bLoss == 0
    && f.rShift & 7 == 0 && f.gShift & 7 == 0 && f.bShift & 7 == 0
    && f.rShift != f.gShift && f.gShift != f.bShift && f.rShift != f.bShift
    && f.rMask == 0xFF << f.rShift
    && f.gMask == 0xFF << f.gShift
    && f.bMask == 0xFF << f.bShift
    && f.aMask & (f.rMask | f.gMask | f.bMask) == 0
  }

  /** In a byte-aligned format MapRGB loses nothing: each channel reads back. */
  lemma MapRGBReadsBack(f: Format, r: bv8, g: bv8, b: bv8)
    requires ByteAligned(f)
    ensures Red(f, MapRGB(f, r, g, b)) == r
    ensures Green(f, MapRGB(f, r, g, b)) == g
    ensures Blue(f, MapRGB(f, r, g, b)) == b
  {
    RedReadsBack(f, r, g, b);
    GreenReadsBack(f, r, g, b);
    BlueReadsBack(f, r, g, b);
  }

  lemma RedReadsBack(f: Format, r: bv8, g: bv8, b: bv8)
    requires ByteAligned(f)
    ensures Red(f, MapRGB(f, r, g, b)) == r
  {
    if f.rShift == 0 {
    } else if f.rShift == 8 {
    } else if f.rShift == 16 {
    } else {
      assert f.rShift == 24;
    }
  }

  lemma GreenReadsBack(f: Format, r: bv8, g: bv8, b: bv8)
    requires ByteAligned(f)
    ensures Green(f, MapRGB(f, r, g, b)) == g
  {
    if f.gShift == 0 {
    } else if f.gShift == 8 {
    } else if f.gShift == 16 {
    } else {
      assert f.gShift == 24;
    }
  }

  lemma BlueReadsBack(f: Format, r: bv8, g: bv8, b: bv8)
    requires ByteAligned(f)
    ensures Blue(f, MapRGB(f, r, g, b)) == b
  {
    if f.bShift == 0 {
    } else if f.bShift == 8 {
    } else if f.bShift == 16 {
    } else {
      assert f.bShift == 24;
    }
  }

  /** In a byte-aligned format, ScaleRGB scales each channel on its own:
      reading a channel of the result gives that channel of the input times
      the factor, shifted down 16 bits and clamped to [0, 255]. */
  lemma ScaleRGBPerChannel(f: Format, value: bv32, factor: int)
    requires ByteAligned(f)
    ensures Red(f, ScaleRGB(f, value, factor)) == ScaleChannel(Red(f, value), factor)
    ensures Green(f, ScaleRGB(f, value, factor)) == ScaleChannel(Green(f, value), factor)
    ensures Blue(f, ScaleRGB(f, value, factor)) == ScaleChannel(Blue(f, value), factor)
  {
    MapRGBReadsBack(f, ScaleChannel(Red(f, value), factor),
                    ScaleChannel(Green(f, value), factor),
                    ScaleChannel(Blue(f, value), factor));
  }
}
