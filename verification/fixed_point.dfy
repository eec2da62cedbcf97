// The C++ integer operations the rasteriser is built from, written out
// explicitly: truncating division, the arithmetic right shift of 16.16
// fixed-point values, and the wrap-around of the narrowing casts to Uint8,
// Uint16 and Sint16.
module FixedPoint {

  /** 1.0 in 16.16 fixed point: `v << 16` is `v * One`. */
  const One: int := 65536

  /** The SDL integer types of parameters and fields. */
  type Sint16 = v: int | -0x8000 <= v < 0x8000
  type Uint16 = v: int | 0 <= v < 0x1_0000
  type Uint8 = v: int | 0 <= v < 0x100

  function Abs(v: int): nat { if v < 0 then -v else v }

  function Min(a: int, b: int): int { if a <= b then a else b }

  function Max(a: int, b: int): int { if a <= b then b else a }

  /** C++ `a / b` for a positive divisor: the quotient rounded toward zero
      (Dafny's own `/` rounds toward minus infinity for a negative `a`). */
  function TruncDiv(a: int, b: int): (q: int)
    requires b > 0
    ensures a >= 0 ==> 0 <= q * b <= a < q * b + b
    ensures a <= 0 ==> q * b - b < a <= q * b <= 0
  {
    if a >= 0 then a / b else -((-a) / b)
  }

  /** `v >> 16` on a signed value: an arithmetic shift, so the floor of v / 2^16. */
  function Shr16(v: int): (r: int)
    ensures r * One <= v < r * One + One
  {
    v / One
  }

  /** Conversion to Uint16: reduction modulo 2^16. */
  function Wrap16(v: int): (r: Uint16)
    ensures 0 <= v < 65536 ==> r == v
    ensures (v - r) % 65536 == 0
  {
    v % 65536
  }

  /** Conversion to Uint8: reduction modulo 2^8. */
  function ToU8(v: int): (r: Uint8)
    ensures 0 <= v < 256 ==> r == v
    ensures (v - r) % 256 == 0
  {
    v % 256
  }

  /** Conversion to Sint16: the two's-complement reinterpretation of the low
      16 bits. */
  function ToS16(v: int): (r: Sint16)
    ensures -32768 <= v < 32768 ==> r == v
    ensures (v - r) % 65536 == 0
  {
    var w := v % 65536;
    if w >= 32768 then w - 65536 else w
  }

  /** Saturation to the byte range [0, 255]. */
  function Clamp8(v: int): (r: int)
    ensures 0 <= r <= 255
    ensures 0 <= v <= 255 ==> r == v
    ensures v < 0 ==> r == 0
    ensures v > 255 ==> r == 255
  {
    if v > 255 then 255 else if v < 0 then 0 else v
  }

  /** The 16.16 step that carries a value from `a` to `b` over `d` unit steps:
      `((b - a) << 16) / d` with C++ division. */
  function FixStep(a: int, b: int, d: int): int
    requires d > 0
  {
    TruncDiv((b - a) * One, d)
  }

  /** The fixed-point accumulator that starts at `a << 16`, after k steps. */
  function FixAt(a: int, b: int, d: int, k: int): int
    requires d > 0
  {
    a * One + k * FixStep(a, b, d)
  }

  /** Because the step is truncated toward zero, the integer part of the
      accumulator never leaves the range between the two end values while
      at most d steps have been taken. */
  lemma FixAtBetween(a: int, b: int, d: int, k: int)
    requires d > 0 && 0 <= k <= d
    ensures Min(a, b) <= Shr16(FixAt(a, b, d, k)) <= Max(a, b)
  {
    var m := FixStep(a, b, d);
    var v := FixAt(a, b, d, k);
    if a <= b {
      assert 0 <= m * d <= (b - a) * One;
      MulSign(m, d);
      MulBetween(k, d, m);
      assert a * One <= v <= b * One;
      FloorBetween(v, a, b);
    } else {
      assert (b - a) * One <= m * d <= 0;
      MulSign(-m, d);
      MulBetween(k, d, -m);
      assert b * One <= v <= a * One;
      FloorBetween(v, b, a);
    }
  }

  lemma MulSign(m: int, d: int)
    requires d > 0 && m * d >= 0
    ensures m >= 0
  {
  }

  lemma MulBetween(k: int, d: int, m: int)
    requires 0 <= k <= d && m >= 0
    ensures 0 <= k * m <= d * m
  {
    assert d * m - k * m == (d - k) * m;
  }

  lemma FloorBetween(v: int, lo: int, hi: int)
    requires lo * One <= v < (hi + 1) * One
    ensures lo <= Shr16(v) <= hi
  {
  }

  /** After all d steps the accumulator lands on `b` when the values fall
      (b <= a), but may stop one short of `b` when they rise: the truncated
      step under-shoots unless d divides (b - a) << 16. */
  lemma FixAtEnd(a: int, b: int, d: int)
    requires 0 < d <= One
    ensures b <= a ==> Shr16(FixAt(a, b, d, d)) == b
    ensures a < b ==> b - 1 <= Shr16(FixAt(a, b, d, d)) <= b
  {
    var m := FixStep(a, b, d);
    var v := FixAt(a, b, d, d);
    assert v == a * One + d * m;
    if b <= a {
      assert (b - a) * One <= m * d < (b - a) * One + d;
      assert b * One <= v < b * One + One;
      FloorBetween(v, b, b);
    } else {
      assert m * d <= (b - a) * One < m * d + d;
      assert b * One - One < v <= b * One;
      FloorBetween(v, b - 1, b);
    }
  }

  /** A rising edge from 0 to 1 over three rows ends on 0, not on 1. */
  lemma FixAtEndUndershoots()
    ensures Shr16(FixAt(0, 1, 3, 3)) == 0
  {
    assert FixStep(0, 1, 3) == 21845;
  }

  // ---------------------------------------------------------------------
  // A Sint16 loop counter, as in `for (y = y0; y <= last; y++)` with y a
  // Sint16: y++ wraps from 32767 to -32768.

  function NextRow(y: Sint16): (r: Sint16)
    ensures y < 32767 ==> r == y + 1
    ensures y == 32767 ==> r == -32768
  {
    ToS16(y + 1)
  }

  /** The Sint16 counter after k turns of such a loop. */
  function RowCounter(y0: Sint16, k: nat): Sint16
  {
    if k == 0 then y0 else NextRow(RowCounter(y0, k - 1))
  }

  lemma {:induction false} RowCounterWraps(y0: Sint16, k: nat)
    ensures RowCounter(y0, k) == ToS16(y0 + k)
  {
    if k > 0 {
      RowCounterWraps(y0, k - 1);
      var p := y0 + k - 1;
      var w: int := ToS16(p);
      assert (p - w) % 65536 == 0;
      assert ToS16(w + 1) == ToS16(p + 1) by {
        assert (p + 1) - (w + 1) == p - w;
        SameLow16(w + 1, p + 1);
      }
    }
  }

  lemma SameLow16(a: int, b: int)
    requires (b - a) % 65536 == 0
    ensures ToS16(a) == ToS16(b)
  {
    var q := (b - a) / 65536;
    assert b == a + 65536 * q;
    assert b % 65536 == a % 65536;
  }

  /** Every 65536 turns the counter is back where it was. */
  lemma CounterCycles(y0: Sint16, k: nat)
    ensures RowCounter(y0, k + 65536) == RowCounter(y0, k)
  {
    RowCounterWraps(y0, k);
    RowCounterWraps(y0, k + 65536);
    SameLow16(y0 + k, y0 + k + 65536);
  }

  /** Below 32767 the Sint16 counter is the unbounded one on every turn up
      to the one that leaves the loop. */
  lemma {:induction false} CounterAgrees(y0: Sint16, last: Sint16, k: nat)
    requires last < 32767 && y0 + k <= last + 1
    ensures RowCounter(y0, k) == y0 + k
  {
    if k > 0 {
      CounterAgrees(y0, last, k - 1);
    }
  }
}
