// The two kinds of surface the span drawers touch: the destination, whose
// pixel buffer they write in place, and the texture they sample, which they
// only read.
module Surfaces {
  import opened FixedPoint
  import opened PixelFormats

  /** The clip rectangle of a surface, inclusive on all four sides. */
  datatype Clip = Clip(xmin: int, xmax: int, ymin: int, ymax: int)

  /** The geometry of a destination surface: its pixel format, its pitch and
      size in pixels, its clip rectangle, and SDL_MapRGB for its palette
      (consulted only when the surface has one byte per pixel). */
  datatype Target = Target(
    format: Format, pitch: nat, width: nat, height: nat, clip: Clip,
    mapPalette: (bv8, bv8, bv8) -> int)
  {
    function Bpp(): int { format.bytesPerPixel }

    /** What every surface handed to the drawers satisfies: a supported
        depth, rows no wider than the pitch, a clip rectangle inside the
        surface (SDL derives it from a rectangle of non-negative size, so
        xmax >= xmin - 1 and ymax >= ymin - 1), and, at 24 bits, colour shifts that address one of the
        three bytes of a pixel. */
    predicate Valid()
    {
      && 1 <= Bpp() <= 4
      && width <= pitch
      && 0 <= clip.xmin <= clip.xmax + 1 && clip.xmax < width
      && 0 <= clip.ymin <= clip.ymax + 1 && clip.ymax < height
      && (Bpp() == 3 ==>
            Lane(format.rShift) < 3 && Lane(format.gShift) < 3 && Lane(format.bShift) < 3)
    }
  }

  /** The byte of a pixel that a channel shift addresses (`shift / 8`). */
  function Lane(s: Shift): int
  {
    (s / 8) as int
  }

  /** One more than the largest value a pixel of `bpp` bytes holds. */
  function PixelRange(bpp: int): int
  {
    if bpp == 1 then 0x100
    else if bpp == 2 then 0x1_0000
    else if bpp == 3 then 0x100_0000
    else 0x1_0000_0000
  }

  /** The value of a byte lane: lane k of a 24-bit pixel is its k-th byte in
      memory, least significant first. */
  function LaneWeight(lane: int): int
  {
    if lane == 0 then 1 else if lane == 1 then 0x100 else 0x1_0000
  }

  /** Byte `lane` of a pixel value. */
  function GetByte(v: int, lane: int): Uint8
  {
    ToU8(v / LaneWeight(lane))
  }

  /** A pixel value with byte `lane` replaced by the low byte of `b`. */
  function SetByte(v: int, lane: int, b: int): int
  {
    v + (ToU8(b) - GetByte(v, lane)) * LaneWeight(lane)
  }

  /** A texture: pixel values row by row with `pitch` pixels per row, its
      depth, its colour key, and SDL_GetRGB of the pixel at a position, which
      the format-translating paths read. */
  datatype Texture = Texture(
    bytesPerPixel: int, pitch: int, pixels: seq<int>, colorkey: int,
    rgbAt: (int, int) -> (bv8, bv8, bv8))

  /** The texel at (x, y), read as a pixel of the texture's depth. The drawers
      do not bound texture coordinates; a read outside the buffer, undefined
      in the source, reads 0 here. */
  function Texel(src: Texture, x: int, y: int): (v: int)
    ensures 0 <= v < PixelRange(src.bytesPerPixel)
  {
    var i := y * src.pitch + x;
    if 0 <= i < |src.pixels| then src.pixels[i] % PixelRange(src.bytesPerPixel) else 0
  }

  /** A destination surface: fixed geometry and a row-major pixel buffer that
      the drawers update in place. */
  class Surface {
    const target: Target
    const pixels: array<int>

    predicate Valid()
    {
      target.Valid() && pixels.Length == target.pitch * target.height
    }

    constructor (t: Target, buffer: array<int>)
      requires t.Valid() && buffer.Length == t.pitch * t.height
      ensures Valid() && target == t && pixels == buffer
    {
      target := t;
      pixels := buffer;
    }
  }

  /** The pixel at column x of row y lies inside a buffer of `height` rows of
      `pitch` pixels, and distinct (x, y) give distinct indices. */
  lemma RowMajor(pitch: int, height: int, x: int, y: int)
    requires 0 <= x < pitch && 0 <= y < height
    ensures 0 <= y * pitch + x < pitch * height
  {
    MulBetween(y + 1, height, pitch);
    assert (y + 1) * pitch == y * pitch + pitch;
  }

  lemma RowMajorInjective(pitch: int, x: int, y: int, x': int, y': int)
    requires 0 <= x < pitch && 0 <= x' < pitch
    requires y * pitch + x == y' * pitch + x'
    ensures x == x' && y == y'
  {
    if y < y' {
      RowBefore(pitch, y, y');
    } else if y' < y {
      RowBefore(pitch, y', y);
    }
  }

  lemma RowBefore(pitch: int, y: int, y': int)
    requires pitch > 0 && y < y'
    ensures y * pitch + pitch <= y' * pitch
  {
    var d := y' - y;
    MulBetween(1, d, pitch);
    assert y' * pitch == y * pitch + d * pitch;
  }
}
