/** The pitch gain of a subframe: a quotient of two 64 bit sums narrowed to 32 bits and clamped. */
module PitchGain {
  import opened Common
  import opened FixedPoint

  const ONE_POINT_2_IN_Q14 := 19661

  predicate IsVector(v: seq<int>) { |v| == L_SUBFRAME && forall i :: 0 <= i < |v| ==> Is16(v[i]) }

  function Dot(x: seq<int>, y: seq<int>, n: nat): int
    requires n <= |x| && n <= |y|
  {
    if n == 0 then 0 else Dot(x, y, n - 1) + x[n - 1] * y[n - 1]
  }

  lemma TermBound(x: int, y: int)
    requires Is16(x) && Is16(y)
    ensures 0 <= y * y <= 0x40000000 && x * y <= 0x8000 * (y * y)
  {
    var m: nat := Abs(y);
    MulMono(x, 0x8000, m);
    MulMono(-0x8000, x, m);
    MulMono(m, 0x8000, m);
    MulMono(m, 0x8000, 0x8000);
    assert y * y == m * m;
    if m > 0 { MulMono(1, m, m); }
    if y < 0 { assert x * y == -(x * m); }
  }

  /** Because |y| <= y^2 for integers, the scalar product is at most 32768 times the energy. */
  lemma {:induction false} DotBound(x: seq<int>, y: seq<int>, n: nat)
    requires IsVector(x) && IsVector(y) && n <= L_SUBFRAME
    ensures 0 <= Dot(y, y, n) <= 0x40000000 * n && Dot(x, y, n) <= 0x8000 * Dot(y, y, n)
  {
    if n > 0 {
      DotBound(x, y, n - 1);
      TermBound(x[n - 1], y[n - 1]);
    }
  }

  lemma {:induction false} DotFits(x: seq<int>, y: seq<int>, n: nat)
    requires IsVector(x) && IsVector(y) && n <= L_SUBFRAME
    ensures -0x40000000 * n <= Dot(x, y, n) <= 0x40000000 * n
  {
    if n > 0 {
      DotFits(x, y, n - 1);
      var a, b := x[n - 1], y[n - 1];
      var m: nat := Abs(b);
      MulMono(a, 0x8000, m);
      MulMono(-0x8000, a, m);
      if b < 0 { assert a * b == -(a * m); }
    }
  }

  // g is the largest gain in Q14, up to 1.2, that does not overshoot xy / yy.
  predicate IsGain(g: int, xy: int, yy: int) {
    && 0 <= g <= ONE_POINT_2_IN_Q14 && g * yy <= xy * 0x4000
    && (g < ONE_POINT_2_IN_Q14 ==> xy * 0x4000 < (g + 1) * yy)
  }

  lemma QuotientFits(xy: int, yy: int)
    requires 0 < xy <= 0x8000 * yy
    ensures yy > 0 && 0 <= (xy * 0x4000) / yy <= 0x20000000
  {
    QuotientInRange(xy * 0x4000, yy, 0, 0x20000000);
  }

  lemma ClampedIsGain(xy: int, yy: int, q: int)
    requires yy > 0 && q * yy <= xy * 0x4000 < (q + 1) * yy && q >= 0
    ensures IsGain(if q > ONE_POINT_2_IN_Q14 then ONE_POINT_2_IN_Q14 else q, xy, yy)
  {
    if q > ONE_POINT_2_IN_Q14 { MulMono(ONE_POINT_2_IN_Q14, q, yy); }
  }

  /** For all 16 bit vectors: the sums fit 64 bits; when the scalar product is not positive the gain
      is zero; otherwise the denominator is not zero, the quotient survives the narrowing to 32
      bits, and the gain is the exact truncated quotient clamped to [0, 1.2]. */
  method ComputeAdaptativeCodebookGain(x: seq<int>, y: seq<int>) returns (gain: int, xy: int, yy: int)
    requires IsVector(x) && IsVector(y)
    ensures xy == Dot(x, y, L_SUBFRAME) && yy == Dot(y, y, L_SUBFRAME)
    ensures xy <= 0 ==> gain == 0
    ensures xy > 0 ==> yy > 0 && IsGain(gain, xy, yy)
  {
    xy, yy := 0, 0;
    var i := 0;
    while i < L_SUBFRAME
      invariant 0 <= i <= L_SUBFRAME
      invariant xy == Dot(x, y, i) && yy == Dot(y, y, i)
    {
      DotFits(x, y, i + 1);
      DotBound(x, y, i + 1);
      Wrap64Id(Dot(x, y, i + 1));
      Wrap64Id(Dot(y, y, i + 1));
      xy := Wrap64(xy + x[i] * y[i]);
      yy := Wrap64(yy + y[i] * y[i]);
      i := i + 1;
    }
    if xy <= 0 { return 0, xy, yy; }
    DotBound(x, y, L_SUBFRAME);
    DotFits(x, y, L_SUBFRAME);
    QuotientFits(xy, yy);
    gain := Narrowed(xy, yy);
    var q := (xy * 0x4000) / yy;
    ClampedIsGain(xy, yy, q);
    if gain > ONE_POINT_2_IN_Q14 { gain := ONE_POINT_2_IN_Q14; }
  }

  // The shift on 64 bits, the truncating division, the narrowing.
  method Narrowed(xy: int, yy: int) returns (gain: int)
    requires 0 < xy <= 0x40000000 * L_SUBFRAME && yy > 0 && (xy * 0x4000) / yy <= 0x20000000
    ensures gain == (xy * 0x4000) / yy && gain >= 0
  {
    Wrap64Id(xy * 0x4000);
    var quotient := Div(Wrap64(xy * 0x4000), yy);
    Wrap32Id(quotient);
    gain := Wrap32(quotient);
  }
}
