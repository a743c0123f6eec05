/** Two's complement words and the fixed-point macros of the codec.

    A C integer is modelled by the mathematical integer it denotes.  Storing a value into
    a 16, 32 or 64 bit word, or computing a macro on 32 bits, is written out with `Wrap16`,
    `Wrap32` or `Wrap64`; a right shift of a signed word is division rounding down. */
module FixedPoint {

  const MAXINT16 := 0x7fff
  const MAXINT32 := 0x7fffffff

  predicate Is16(x: int) { -0x8000 <= x < 0x8000 }

  predicate Is32(x: int) { -0x80000000 <= x < 0x80000000 }

  predicate Words(e: seq<int>) { forall i :: 0 <= i < |e| ==> Is16(e[i]) }

  predicate BoundedBy(x: int, m: nat) { x <= m && -x <= m }

  function Wrap16(x: int): int { (x + 0x8000) % 0x10000 - 0x8000 }

  function Wrap32(x: int): int { (x + 0x80000000) % 0x1_0000_0000 - 0x80000000 }

  predicate Is64(x: int) { -0x8000000000000000 <= x < 0x8000000000000000 }

  function Wrap64(x: int): int { (x + 0x8000000000000000) % 0x1_0000_0000_0000_0000 - 0x8000000000000000 }

  function Pow2(k: nat): (p: nat)
    ensures p >= 1
  {
    if k == 0 then 1 else 2 * Pow2(k - 1)
  }

  function Shr(x: int, k: nat): int { x / Pow2(k) }

  // Shift right after adding half a unit, the sum computed on 32 bits.
  function Pshr(x: int, k: nat): int
    requires k >= 1
  {
    Shr(Wrap32(x + Pow2(k - 1)), k)
  }

  function Saturate(x: int, max: nat): int {
    if x > max then max else if x < -(max + 1) then -(max + 1) else x
  }

  function Abs(x: int): nat { if x > 0 then x else -x }

  // C division, which truncates toward zero.
  function Div(a: int, b: int): int
    requires b > 0
  {
    if a >= 0 then a / b else -((-a) / b)
  }

  /** The split product of a 16 bit and a 32 bit word: the high part of `b` times `a`, plus
      the low `k` bits of `b` times `a` shifted down, every step on 32 bits. */
  function Mult16x32(a: int, b: int, k: nat): int {
    Wrap32(Wrap32(a * Shr(b, k)) + Shr(Wrap32(a * (b % Pow2(k))), k))
  }

  // The rounding variant: half a unit is added to the low part only.
  function MultRound16x32(a: int, b: int, k: nat): int
    requires k >= 1
  {
    Wrap32(Wrap32(a * Shr(b, k)) + Pshr(Wrap32(a * (b % Pow2(k))), k))
  }

  lemma Pow2Table()
    ensures Pow2(1) == 2 && Pow2(2) == 4 && Pow2(3) == 8 && Pow2(4) == 16 && Pow2(7) == 128
    ensures Pow2(11) == 2048 && Pow2(12) == 4096 && Pow2(13) == 8192
    ensures Pow2(14) == 16384 && Pow2(15) == 32768 && Pow2(16) == 65536
  {
    assert Pow2(4) == 16;
    assert Pow2(8) == 256;
    assert Pow2(12) == 4096;
  }

  lemma Wrap32Id(x: int)
    requires Is32(x)
    ensures Wrap32(x) == x
  {}

  lemma Wrap64Id(x: int)
    requires Is64(x)
    ensures Wrap64(x) == x
  {}

  lemma Wrap32Fits(x: int)
    ensures Wrap32(x) == x <==> Is32(x)
  {}

  lemma Wrap32Add(x: int, y: int)
    ensures Wrap32(Wrap32(x) + y) == Wrap32(x + y)
    ensures Wrap32(x + Wrap32(y)) == Wrap32(x + y)
  {}

  lemma MulMono(a: int, b: int, c: nat)
    requires a <= b
    ensures a * c <= b * c
  {}

  lemma MulBound(x: int, y: int, a: nat, b: nat)
    requires BoundedBy(x, a) && BoundedBy(y, b)
    ensures BoundedBy(x * y, a * b)
  {
    var m: nat, n: nat := Abs(x), Abs(y);
    MulMono(m, a, n);
    MulMono(n, b, a);
    assert x * y == m * n || x * y == -(m * n);
  }

  lemma Product16(x: int, b: int)
    requires Is16(x)
    ensures BoundedBy(x * b, 0x8000 * Abs(b))
  {
    var m := Abs(b);
    MulMono(x, 0x8000, m);
    MulMono(-0x8000, x, m);
    if b < 0 { assert x * b == -(x * m); }
  }

  lemma MulCancel(a: int, b: int, c: int)
    requires c > 0 && a * c < b * c
    ensures a < b
  {
    if a >= b { MulMono(b, a, c); }
  }

  lemma {:induction false} Pow2Mono(j: nat, k: nat)
    requires j <= k
    ensures Pow2(j) <= Pow2(k)
  {
    if j < k { Pow2Mono(j, k - 1); }
  }

  lemma {:induction false} Pow2Add(j: nat, k: nat)
    ensures Pow2(j + k) == Pow2(j) * Pow2(k)
  {
    if k > 0 {
      Pow2Add(j, k - 1);
      assert Pow2(j + k) == 2 * Pow2(j + (k - 1));
      assert Pow2(j) * (2 * Pow2(k - 1)) == 2 * (Pow2(j) * Pow2(k - 1));
    }
  }

  // The quotient is the only q with q*d <= x < (q+1)*d.
  lemma DivUnique(x: int, d: int, q: int)
    requires d > 0 && q * d <= x < (q + 1) * d
    ensures x / d == q
  {
    var p := x / d;
    assert p * d <= x < (p + 1) * d;
    if p < q {
      MulMono(p + 1, q, d);
      assert false;
    } else if p > q {
      MulMono(q + 1, p, d);
      assert false;
    }
  }

  lemma QuotientInRange(x: int, d: int, lo: int, hi: int)
    requires d > 0 && lo * d <= x < (hi + 1) * d
    ensures lo <= x / d <= hi
  {
    MulCancel(x / d, hi + 1, d);
    MulCancel(lo - 1, x / d, d);
  }

  lemma DivMono(x: int, y: int, d: int)
    requires d > 0 && x <= y
    ensures x / d <= y / d
  {
    var p, q := x / d, y / d;
    assert p * d <= x && y < (q + 1) * d;
    MulCancel(p, q + 1, d);
  }

  lemma DivDiv(x: int, d: int, e: int)
    requires d > 0 && e > 0
    ensures d * e > 0 && (x / d) / e == x / (d * e)
  {
    var p := x / d;
    var q := p / e;
    var low := q * e;
    assert low <= p <= low + e - 1;
    MulMono(low, p, d);
    MulMono(p, low + e - 1, d);
    assert p * d <= x < p * d + d;
    assert low * d == q * (d * e);
    assert (low + e - 1) * d + d == (q + 1) * (d * e);
    DivUnique(x, d * e, q);
  }

  // Splitting b at bit k splits the quotient of a*b exactly, whatever the sign of b.
  lemma SplitQuotient(a: int, b: int, d: int, h: int)
    requires d > 0
    ensures a * (b / d) + (a * (b % d) + h) / d == (a * b + h) / d
  {
    var hi, lo := b / d, b % d;
    var q := (a * lo + h) / d;
    assert q * d <= a * lo + h < (q + 1) * d;
    assert a * b == a * (hi * d + lo) == (a * hi) * d + a * lo;
    assert (a * hi + q) * d == (a * hi) * d + q * d;
    assert (a * hi + q + 1) * d == (a * hi) * d + (q + 1) * d;
    DivUnique(a * b + h, d, a * hi + q);
  }

  lemma SmallProduct(a: int, lo: int, d: int)
    requires Is16(a) && 0 <= lo < d <= 0x8000
    ensures -0x40000000 <= a * lo <= 0x3fff8000
  {
    MulMono(a, 0x7fff, lo);
    MulMono(-0x8000, a, lo);
  }

  // The two wrapped halves of the product, put together again.
  lemma HalvesAdd(high: int, low: int, half: int, d: int)
    requires d > 0 && Is32(low) && Is32(low + half)
    ensures Wrap32(Wrap32(high) + Wrap32(Wrap32(low) + half) / d) == Wrap32(high + (low + half) / d)
  {
    Wrap32Id(low);
    Wrap32Id(low + half);
    Wrap32Add(high, (low + half) / d);
  }

  lemma RoundedSplit(a: int, b: int, d: int, half: int)
    requires Is16(a) && Is32(b) && 0 <= half < d <= 0x8000
    ensures Wrap32(Wrap32(a * (b / d)) + Wrap32(Wrap32(a * (b % d)) + half) / d) == Wrap32((a * b + half) / d)
  {
    SmallProduct(a, b % d, d);
    HalvesAdd(a * (b / d), a * (b % d), half, d);
    SplitQuotient(a, b, d, half);
  }

  // Without rounding.
  lemma PlainSplit(a: int, b: int, d: int)
    requires Is16(a) && Is32(b) && 0 < d <= 0x8000
    ensures Wrap32(Wrap32(a * (b / d)) + Wrap32(a * (b % d)) / d) == Wrap32((a * b) / d)
  {
    RoundedSplit(a, b, d, 0);
    SmallProduct(a, b % d, d);
    Wrap32Id(a * (b % d));
  }

  /** For every 16 bit `a`, every `b` of either sign and k <= 15, the split product is the
      floor of a*b/2^k reduced to 32 bits; so it is exact precisely when that floor fits. */
  lemma SplitMultiplyIsFloor(a: int, b: int, k: nat)
    requires Is16(a) && Is32(b) && k <= 15
    ensures Mult16x32(a, b, k) == Wrap32((a * b) / Pow2(k))
    ensures Mult16x32(a, b, k) == (a * b) / Pow2(k) <==> Is32((a * b) / Pow2(k))
  {
    Pow2Table();
    Pow2Mono(k, 15);
    PlainSplit(a, b, Pow2(k));
    Wrap32Fits((a * b) / Pow2(k));
  }

  /** The rounding split product is the nearest multiple, reduced to 32 bits. */
  lemma SplitMultiplyRounds(a: int, b: int, k: nat)
    requires Is16(a) && Is32(b) && 1 <= k <= 15
    ensures MultRound16x32(a, b, k) == Wrap32((a * b + Pow2(k - 1)) / Pow2(k))
    ensures MultRound16x32(a, b, k) == (a * b + Pow2(k - 1)) / Pow2(k)
       <==> Is32((a * b + Pow2(k - 1)) / Pow2(k))
  {
    Pow2Table();
    Pow2Mono(k, 15);
    Pow2Mono(k - 1, 14);
    RoundedSplit(a, b, Pow2(k), Pow2(k - 1));
    Wrap32Fits((a * b + Pow2(k - 1)) / Pow2(k));
  }

  // Halving a 32 bit word until bit 30 is set, counting.
  function LeadingZeros(x: nat): nat
    requires x < 0x80000000
    decreases 0x80000000 - x
  {
    if x == 0 then 31 else if x < 0x40000000 then 1 + LeadingZeros(2 * x) else 0
  }

  /** The count is the unique shift that brings a positive word into [2^30, 2^31). */
  lemma {:induction false} LeadingZerosNormalises(x: nat)
    requires 0 < x < 0x80000000
    ensures LeadingZeros(x) <= 30
    ensures 0x40000000 <= x * Pow2(LeadingZeros(x)) < 0x80000000
    decreases 0x80000000 - x
  {
    if x < 0x40000000 {
      LeadingZerosNormalises(2 * x);
      var p := Pow2(LeadingZeros(2 * x));
      assert (2 * x) * p == x * (2 * p);
      if LeadingZeros(2 * x) == 30 {
        assert Pow2(30) == 0x40000000 by { Pow2Table(); Pow2Add(15, 15); }
        MulMono(2, 2 * x, p);
        assert false;
      }
    } else {
      assert Pow2(0) == 1;
    }
  }

  method CountLeadingZeros(x: nat) returns (zeros: nat)
    requires x < 0x80000000
    ensures zeros == LeadingZeros(x)
  {
    if x == 0 { return 31; }
    zeros := 0;
    var y := x;
    while y < 0x40000000
      invariant 0 < y < 0x80000000
      invariant zeros + LeadingZeros(y) == LeadingZeros(x)
      decreases 0x80000000 - y
    {
      zeros := zeros + 1;
      y := 2 * y;
    }
  }
}
