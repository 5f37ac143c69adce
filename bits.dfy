/**
 * Fixed-width unsigned and signed integers as the driver uses them (uint8_t,
 * uint16_t, short), and the decoders it applies to the bytes it reads back:
 * little-endian word assembly, bit tests, narrowing to a byte and
 * reinterpretation as a two's-complement short.
 *
 * C's `<<`, `>>`, `|` and `&` are applied only to non-negative values here,
 * so they are written arithmetically: `x >> k` is k halvings, and
 * `(high << 8) | low` with `low < 256` is `high * 256 + low`.
 */
module Bits {

  /** uint8_t */
  type uint8 = x: int | 0 <= x < 0x100
  /** uint16_t (Arduino's `word`) */
  type uint16 = x: int | 0 <= x < 0x1_0000
  /** short: 16-bit two's complement */
  type int16 = x: int | -0x8000 <= x < 0x8000

  function Pow2(k: nat): (p: nat)
    ensures p >= 1
  {
    if k == 0 then 1 else 2 * Pow2(k - 1)
  }

  lemma Pow2Widths()
    ensures Pow2(7) == 0x80 && Pow2(8) == 0x100 && Pow2(15) == 0x8000 && Pow2(16) == 0x1_0000
  {
    assert Pow2(8) == 0x100;
    assert Pow2(12) == 0x1000;
  }

  /** The n least significant bits of w, least significant first. */
  function BitsOf(w: nat, n: nat): (bs: seq<bool>)
    ensures |bs| == n
  {
    if n == 0 then [] else [w % 2 == 1] + BitsOf(w / 2, n - 1)
  }

  /** The number whose binary digits, least significant first, are bs. */
  function FromBits(bs: seq<bool>): nat
  {
    if bs == [] then 0 else (if bs[0] then 1 else 0) + 2 * FromBits(bs[1..])
  }

  /** n bits are enough for every number below 2^n, and they give it back. */
  lemma {:induction false} FromBitsOf(w: nat, n: nat)
    requires w < Pow2(n)
    ensures FromBits(BitsOf(w, n)) == w
  {
    if n > 0 {
      FromBitsOf(w / 2, n - 1);
      assert BitsOf(w, n)[1..] == BitsOf(w / 2, n - 1);
    }
  }

  /** Distinct numbers below 2^n differ in some bit. */
  lemma BitsOfInjective(v: nat, w: nat, n: nat)
    requires v < Pow2(n) && w < Pow2(n)
    requires BitsOf(v, n) == BitsOf(w, n)
    ensures v == w
  {
    FromBitsOf(v, n);
    FromBitsOf(w, n);
  }

  /** The bits of `low + 2^m * high` are those of low followed by those of high. */
  lemma {:induction false} BitsOfConcat(low: nat, high: nat, m: nat, n: nat)
    requires low < Pow2(m)
    ensures BitsOf(low + Pow2(m) * high, m + n) == BitsOf(low, m) + BitsOf(high, n)
  {
    if m > 0 {
      var x := Pow2(m - 1) * high;
      assert Pow2(m) * high == 2 * x;
      assert (low + 2 * x) % 2 == low % 2;
      assert (low + 2 * x) / 2 == low / 2 + x;
      BitsOfConcat(low / 2, high, m - 1, n);
    }
  }

  /** Between two different multiples of d lies at least d. */
  lemma MulGap(d: nat, a: nat, b: nat)
    requires a < b
    ensures d * a + d <= d * b
  {
    var c: nat := b - a - 1;
    assert d * b == d * a + d + d * c;
  }

  /** Division has one quotient: if w == d * q + r with 0 <= r < d, then w / d == q. */
  lemma DivUnique(w: nat, d: nat, q: nat, r: nat)
    requires d > 0 && w == d * q + r && r < d
    ensures w / d == q
  {
    var q' := w / d;
    assert w == d * q' + w % d;
    if q' < q {
      MulGap(d, q', q);
    } else if q' > q {
      MulGap(d, q, q');
    }
  }

  /** Halving, then dividing by b, is dividing by 2 * b. */
  lemma DivHalf(w: nat, b: nat)
    requires b >= 1
    ensures w / 2 / b == w / (2 * b)
  {
    var h, q := w / 2, w / 2 / b;
    var r0, r1 := w % 2, h % b;
    assert h == b * q + r1;
    assert w == 2 * h + r0;
    assert w == (2 * b) * q + (2 * r1 + r0);
    DivUnique(w, 2 * b, q, 2 * r1 + r0);
  }

  /** `w >> k` on an unsigned value: k halvings, which is division by 2^k. */
  function ShiftRight(w: nat, k: nat): (r: nat)
    ensures r == w / Pow2(k)
    ensures r <= w
  {
    if k == 0 then w else DivHalf(w, Pow2(k - 1)); ShiftRight(w / 2, k - 1)
  }

  lemma {:induction false} ShiftRightBit(w: nat, n: nat, k: nat)
    requires k < n
    ensures BitsOf(w, n)[k] == (ShiftRight(w, k) % 2 == 1)
  {
    if k > 0 {
      ShiftRightBit(w / 2, n - 1, k - 1);
    }
  }

  /** `(w >> k) & 1`: bit k of a 16-bit word. */
  function TestBit(w: uint16, k: nat): (b: bool)
    requires k < 16
    ensures b == BitsOf(w, 16)[k]
    ensures b == (w / Pow2(k) % 2 == 1)
  {
    ShiftRightBit(w, 16, k);
    ShiftRight(w, k) % 2 == 1
  }

  /** `(high << 8) | low`: the word whose bytes are low and high. */
  function Assemble(low: uint8, high: uint8): (w: uint16)
    ensures LowByte(w) == low && HighByte(w) == high
  {
    high * 0x100 + low
  }

  /** The conversion of a word to uint8_t: its low byte. */
  function LowByte(w: uint16): (b: uint8)
    ensures (w - b) % 0x100 == 0
  {
    w % 0x100
  }

  function HighByte(w: uint16): uint8
  {
    w / 0x100
  }

  /** Every word is assembled from its own two bytes. */
  lemma AssembleBytes(w: uint16)
    ensures Assemble(LowByte(w), HighByte(w)) == w
  {
  }

  /** Bits 0..7 of a word are those of its low byte, bits 8..15 those of its high byte. */
  lemma AssembleBits(low: uint8, high: uint8)
    ensures BitsOf(Assemble(low, high), 16) == BitsOf(low, 8) + BitsOf(high, 8)
  {
    var p := Pow2(8);
    assert p == 0x100;
    assert Assemble(low, high) == low + p * high;
    BitsOfConcat(low, high, 8, 8);
  }

  /** A bit of an assembled word is the matching bit of the byte it came from. */
  lemma AssembleTestBit(low: uint8, high: uint8, k: nat)
    requires k < 16
    ensures TestBit(Assemble(low, high), k) == if k < 8 then TestBit(low, k) else TestBit(high, k - 8)
  {
    AssembleBits(low, high);
    AssembleBits(low, 0);
    AssembleBits(high, 0);
  }

  /** Reinterpretation of a uint16_t as a short (two's complement). */
  function ToInt16(w: uint16): (s: int16)
    ensures (s - w) % 0x1_0000 == 0
  {
    if w < 0x8000 then w else w - 0x1_0000
  }

  /** The conversion of a short back to uint16_t. */
  function FromInt16(s: int16): (w: uint16)
    ensures (w - s) % 0x1_0000 == 0
  {
    if s < 0 then s + 0x1_0000 else s
  }

  /** The two conversions are inverse bijections between uint16_t and short. */
  lemma Int16RoundTrip(w: uint16, s: int16)
    ensures FromInt16(ToInt16(w)) == w
    ensures ToInt16(FromInt16(s)) == s
  {
  }

  /** A short is negative exactly when bit 15 of its word is set. */
  lemma Int16Sign(w: uint16)
    ensures ToInt16(w) < 0 <==> TestBit(w, 15)
  {
    Pow2Widths();
    if w < 0x8000 {
      TopBit(w, 0);
    } else {
      TopBit(w - 0x8000, 1);
    }
  }

  /** Bit 15 of `low + 2^15 * top` is the lowest bit of top. */
  lemma TopBit(low: nat, top: nat)
    requires low < Pow2(15)
    ensures BitsOf(low + Pow2(15) * top, 16)[15] == (top % 2 == 1)
  {
    BitsOfConcat(low, top, 15, 1);
  }
}
