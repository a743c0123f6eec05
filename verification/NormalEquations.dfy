/** What the Levinson recursion computes.  As long as no value wraps, the coefficients of every order solve
    the normal equations of the correlations, and the residual energy is what they leave, up to
    stated rounding bounds.  The equations are written out from a and r alone. */
module NormalEquations {
  import opened FixedPoint
  import opened StepUp
  import opened LpAnalysis

  // ----- the equations -----

  function Apart(i: nat, j: nat): nat { if i >= j then i - j else j - i }

  // The first n terms of the sum over j of a[j] * r[|l - j|].
  function Lag(a: seq<int>, r: seq<int>, l: nat, n: nat): int
    requires n <= |a| <= |r| && l < |r|
  {
    if n == 0 then 0 else Lag(a, r, l, n - 1) + a[n - 1] * r[Apart(l, n - 1)]
  }

  // Equation l of the coefficients a: zero for a solution when 1 <= l < |a|.
  function Equation(a: seq<int>, r: seq<int>, l: nat): int
    requires |a| <= |r| && l < |r|
  {
    Lag(a, r, l, |a|)
  }

  // In units of 2^31, with m coefficients: how far the residual and the equations can be off.
  function ResidualBound(m: nat): nat { if m <= 2 then 2 else ResidualBound(m - 1) + 2 * (m - 1) + 1 }

  function EquationBound(m: nat): nat {
    if m <= 2 then 1 else 2 * EquationBound(m - 1) + ResidualBound(m - 1) + 2 * (m - 1) + 1
  }

  predicate Solves(s: Stage, r: seq<int>) {
    && 1 <= |s.a| <= |r|
    && BoundedBy(Equation(s.a, r, 0) - ONE_IN_Q27 * s.residual, TWO_31 * ResidualBound(|s.a|))
    && forall l :: 1 <= l < |s.a| ==> BoundedBy(Equation(s.a, r, l), TWO_31 * EquationBound(|s.a|))
  }

  // ----- one order on exact sums -----

  // The first n terms with the coefficients in the opposite order.
  function Mirrored(a: seq<int>, r: seq<int>, l: nat, n: nat): int
    requires n <= |a| <= |r| && l < |r|
  {
    if n == 0 then 0 else Mirrored(a, r, l, n - 1) + a[|a| - n] * r[Apart(l, n - 1)]
  }

  lemma {:induction false} MirrorSplits(a: seq<int>, r: seq<int>, l: nat, n: nat)
    requires n <= |a| <= |r| && l < |a|
    ensures Mirrored(a, r, l, n) + Lag(a, r, |a| - 1 - l, |a| - n) == Lag(a, r, |a| - 1 - l, |a|)
  {
    if n > 0 {
      MirrorSplits(a, r, l, n - 1);
      assert Apart(|a| - 1 - l, |a| - n) == Apart(l, n - 1);
    }
  }

  // Coefficients b made from a with one more entry of zero, and the part of each that the floors lost.
  predicate MadeFrom(b: seq<int>, a: seq<int>, k: int) {
    |b| == |a| && forall j :: 0 <= j < |a| ==> 0 <= TWO_31 * a[j] + k * a[|a| - 1 - j] - TWO_31 * b[j] < TWO_31
  }

  function Lost(b: seq<int>, a: seq<int>, k: int): (t: seq<int>)
    requires |b| == |a|
    ensures |t| == |a|
  {
    seq(|a|, j requires 0 <= j < |a| => TWO_31 * a[j] + k * a[|a| - 1 - j] - TWO_31 * b[j])
  }

  lemma TermsAdd(x: int, y: int, k: int, z: int, t: int, v: int)
    requires t == TWO_31 * x + k * y - TWO_31 * z
    ensures TWO_31 * (z * v) == TWO_31 * (x * v) + k * (y * v) - t * v
  {
    assert t * v == TWO_31 * (x * v) + k * (y * v) - TWO_31 * (z * v) by {
      assert (k * y) * v == k * (y * v);
    }
  }

  lemma {:induction false} LagsAdd(b: seq<int>, a: seq<int>, k: int, r: seq<int>, l: nat, n: nat)
    requires |b| == |a| <= |r| && n <= |a| && l < |r|
    ensures TWO_31 * Lag(b, r, l, n) == TWO_31 * Lag(a, r, l, n) + k * Mirrored(a, r, l, n) - Lag(Lost(b, a, k), r, l, n)
  {
    if n > 0 {
      LagsAdd(b, a, k, r, l, n - 1);
      var j := n - 1;
      TermsAdd(a[j], a[|a| - 1 - j], k, b[j], Lost(b, a, k)[j], r[Apart(l, j)]);
      assert k * (Mirrored(a, r, l, j) + a[|a| - n] * r[Apart(l, j)]) == k * Mirrored(a, r, l, j) + k * (a[|a| - n] * r[Apart(l, j)]);
    }
  }

  predicate Bounded32(r: seq<int>) { forall i :: 0 <= i < |r| ==> BoundedBy(r[i], TWO_31) }

  lemma SmallTimes(t: int, v: int)
    requires 0 <= t < TWO_31 && BoundedBy(v, TWO_31)
    ensures BoundedBy(t * v, TWO_31 * TWO_31)
  {
    var w: nat := Abs(v);
    MulMono(t, TWO_31, w);
    MulMono(w, TWO_31, TWO_31);
    assert t * v == t * w || t * v == -(t * w);
  }

  lemma {:induction false} LostBound(t: seq<int>, r: seq<int>, l: nat, n: nat)
    requires n <= |t| <= |r| && l < |r| && Bounded32(r) && forall j :: 0 <= j < |t| ==> 0 <= t[j] < TWO_31
    ensures BoundedBy(Lag(t, r, l, n), n * (TWO_31 * TWO_31))
  {
    if n > 0 {
      LostBound(t, r, l, n - 1);
      SmallTimes(t[n - 1], r[Apart(l, n - 1)]);
    }
  }

  /** One order on the equations: each takes in k times its mirror image, up to what the floors lost. */
  lemma EquationStep(b: seq<int>, a: seq<int>, k: int, r: seq<int>, l: nat) returns (lost: int)
    requires MadeFrom(b, a, k) && |a| <= |r| && l < |a| && Bounded32(r)
    ensures TWO_31 * Equation(b, r, l) == TWO_31 * Equation(a, r, l) + k * Equation(a, r, |a| - 1 - l) - lost
    ensures BoundedBy(lost, |a| * (TWO_31 * TWO_31))
  {
    lost := Lag(Lost(b, a, k), r, l, |a|);
    LagsAdd(b, a, k, r, l, |a|);
    MirrorSplits(a, r, l, |a|);
    LostBound(Lost(b, a, k), r, l, |a|);
  }

  lemma {:induction false} LagPrefix(a: seq<int>, x: int, r: seq<int>, l: nat, n: nat)
    requires n <= |a| < |r| && l < |r|
    ensures Lag(a + [x], r, l, n) == Lag(a, r, l, n)
  {
    if n > 0 { LagPrefix(a, x, r, l, n - 1); }
  }

  lemma ZeroAdds(a: seq<int>, r: seq<int>, l: nat)
    requires |a| < |r| && l < |r|
    ensures Equation(a + [0], r, l) == Equation(a, r, l)
  {
    LagPrefix(a, 0, r, l, |a|);
  }

  // ----- no wrap -----

  // Floors of a[j] * r[m - j], added from j = 1 to below n.
  function FloorSum(a: seq<int>, r: seq<int>, m: nat, n: nat): int
    requires 1 <= n <= m <= |a| && m < |r|
  {
    if n == 1 then 0 else FloorSum(a, r, m, n - 1) + (a[n - 1] * r[m - (n - 1)]) / TWO_31
  }

  // What the source divides by the residual, on unbounded integers.
  function Numerator(a: seq<int>, r: seq<int>): int
    requires 1 <= |a| < |r|
  {
    16 * FloorSum(a, r, |a|, |a|) + r[|a|]
  }

  // Nothing on the way from one stage to the next leaves 32 bits; the reflection is below one.
  predicate SumsFit(a: seq<int>, r: seq<int>)
    requires 1 <= |a| < |r|
  {
    && (forall n :: 1 <= n <= |a| ==> Is32(FloorSum(a, r, |a|, n)))
    && (forall n :: 1 <= n < |a| ==> Is32((a[n] * r[|a| - n]) / TWO_31))
    && Is32(16 * FloorSum(a, r, |a|, |a|)) && Is32(Numerator(a, r))
  }

  // The floor of k times the mirror image of coefficient j.
  function Image(a: seq<int>, k: int, j: nat): int
    requires 1 <= j < |a|
  {
    (k * a[|a| - j]) / TWO_31
  }

  predicate RaiseFits(a: seq<int>, k: int) {
    forall j :: 1 <= j < |a| ==> Is32(Image(a, k, j)) && Is32(a[j] + Image(a, k, j))
  }

  predicate Fits(s: Stage, r: seq<int>)
    requires 2 <= |s.a| < |r|
  {
    SumsFit(s.a, r) && Abs(Numerator(s.a, r)) < Abs(s.residual) && RaiseFits(s.a, NextReflection(s, r))
  }

  // No order up to i wraps or divides by zero.
  predicate NoWrap(r: seq<int>, i: nat)
    requires |r| == ORDER + 1 && r[0] > 0 && 1 <= i <= ORDER
  {
    forall n :: 1 <= n < i ==> Fits(StageOf(r, n), r)
  }

  lemma {:induction false} PartialIsFloorSum(a: seq<int>, r: seq<int>, n: nat)
    requires 1 <= n <= |a| < |r| && SumsFit(a, r)
    ensures Partial(a, r, |a|, n) == FloorSum(a, r, |a|, n)
  {
    if n > 1 {
      PartialIsFloorSum(a, r, n - 1);
      Wrap32Id((a[n - 1] * r[|a| - (n - 1)]) / TWO_31);
      Wrap32Id(FloorSum(a, r, |a|, n));
    }
  }

  lemma {:induction false} FloorSumNear(a: seq<int>, r: seq<int>, m: nat, n: nat)
    requires 1 <= n <= m <= |a| < |r| && m < |r| && |a| <= |r|
    ensures var rest := Lag(a, r, m, n) - a[0] * r[m] - TWO_31 * FloorSum(a, r, m, n); 0 <= rest <= (n - 1) * TWO_31
  {
    if n == 1 {
      assert Lag(a, r, m, 0) == 0;
    } else {
      FloorSumNear(a, r, m, n - 1);
      var x := a[n - 1] * r[m - (n - 1)];
      assert Apart(m, n - 1) == m - (n - 1);
      assert 0 <= x - TWO_31 * (x / TWO_31) < TWO_31;
    }
  }

  /** The numerator is the equation of the next lag in Q31. */
  lemma NumeratorIsEquation(a: seq<int>, r: seq<int>)
    requires 1 <= |a| < |r| && a[0] == ONE_IN_Q27
    ensures var rest := Equation(a, r, |a|) - ONE_IN_Q27 * Numerator(a, r); 0 <= rest <= (|a| - 1) * TWO_31
  {
    FloorSumNear(a, r, |a|, |a|);
  }

  lemma TruncatedQuotient(x: int, e: int) returns (rest: int)
    requires e != 0
    ensures DivSigned(x, e) * e == x - rest && Abs(rest) < Abs(e)
  {
    var d, n: nat := Abs(e), Abs(x);
    var q := n / d;
    assert q * d <= n < q * d + d;
    rest := x - DivSigned(x, e) * e;
    assert DivSigned(x, e) == q || DivSigned(x, e) == -q;
    assert DivSigned(x, e) * e == if x >= 0 then q * d else -(q * d) by {
      QuotientSign(x, e, q, d);
    }
  }

  lemma QuotientSign(x: int, e: int, q: int, d: nat)
    requires e != 0 && d == Abs(e) && q == Abs(x) / d
    ensures DivSigned(x, e) * e == if x >= 0 then q * d else -(q * d)
  {
    assert DivSigned(x, e) == if (x >= 0) == (e > 0) then q else -q by {
      assert x == 0 ==> q == 0;
    }
    assert q * d == q * e || q * d == -(q * e);
    assert (-q) * e == -(q * e);
  }

  // The reflection makes the residual times k and the numerator cancel.
  lemma ReflectionCancels(s: Stage, r: seq<int>) returns (rest: int)
    requires 2 <= |s.a| < |r| && Fits(s, r) && BoundedBy(s.residual, TWO_31)
    ensures var k := NextReflection(s, r);
      k * s.residual == -(TWO_31 * Numerator(s.a, r)) + rest && Abs(rest) < Abs(s.residual) && Abs(k) < TWO_31
  {
    var sum, e := Numerator(s.a, r), s.residual;
    PartialIsFloorSum(s.a, r, |s.a|);
    Wrap32Id(16 * FloorSum(s.a, r, |s.a|, |s.a|));
    Wrap32Id(sum);
    rest := TruncatedQuotient(sum * TWO_31, e);
    var q := DivSigned(sum * TWO_31, e);
    ReflectionFits(sum, e, q, rest);
    Wrap32Id(-q);
    assert (-q) * e == -(q * e);
  }

  lemma ReflectionFits(sum: int, e: int, q: int, rest: int)
    requires Abs(sum) < Abs(e) <= TWO_31 && q * e == sum * TWO_31 - rest && Abs(rest) < Abs(e)
    requires q == DivSigned(sum * TWO_31, e)
    ensures Abs(q) < TWO_31
  {
    var d: nat, n: nat := Abs(e), Abs(sum);
    MulMono(n, d - 1, TWO_31);
    assert (d - 1) * TWO_31 == TWO_31 * d - TWO_31;
    QuotientInRange(n * TWO_31, d, 0, TWO_31 - 1);
    assert Abs(sum * TWO_31) == n * TWO_31;
  }

  lemma FloorLeaves(x: int)
    ensures 0 <= x - TWO_31 * (x / TWO_31) < TWO_31
  {}

  lemma LastLeaves(k: int)
    ensures 0 <= k * ONE_IN_Q27 - TWO_31 * (k / 16) < TWO_31
  {
    assert 0 <= k - 16 * (k / 16) <= 15;
  }

  lemma RaisedIsMade(a: seq<int>, k: int)
    requires 1 <= |a| && a[0] == ONE_IN_Q27 && RaiseFits(a, k)
    ensures MadeFrom(Raised(a, k), a + [0], k)
  {
    var b, e := Raised(a, k), a + [0];
    var m := |a|;
    forall j | 0 <= j <= m ensures 0 <= TWO_31 * e[j] + k * e[m - j] - TWO_31 * b[j] < TWO_31 {
      if j == 0 {
        assert e[m] == 0 && b[0] == e[0];
      } else if j < m {
        assert e[m - j] == a[m - j];
        assert Is32(Image(a, k, j)) && Is32(a[j] + Image(a, k, j));
        Wrap32Id(Image(a, k, j));
        Wrap32Id(a[j] + Image(a, k, j));
        assert b[j] == a[j] + Image(a, k, j);
        FloorLeaves(k * a[m - j]);
      } else {
        LastLeaves(k);
      }
    }
  }

  // ----- one order on the bounds -----

  lemma Unit(x: int, m: int)
    requires -TWO_31 * m <= TWO_31 * x <= TWO_31 * m
    ensures -m <= x <= m
  {}

  // A lag between the ends.
  lemma MiddleLag(next: int, here: int, mirror: int, k: int, lost: int, bound: nat, n: nat)
    requires TWO_31 * next == TWO_31 * here + k * mirror - lost && BoundedBy(k, TWO_31)
    requires BoundedBy(here, bound) && BoundedBy(mirror, bound) && BoundedBy(lost, n * (TWO_31 * TWO_31))
    ensures BoundedBy(next, 2 * bound + TWO_31 * n)
  {
    MulBound(k, mirror, TWO_31, bound);
    assert n * (TWO_31 * TWO_31) == TWO_31 * (TWO_31 * n);
    Unit(next, 2 * bound + TWO_31 * n);
  }

  // The lag that the reflection closes: numerator and residual cancel.
  lemma NewLag(next: int, s: int, l0: int, k: int, lost: int, e: int, sum: int, rest: int, c: nat, n: nat)
    requires n >= 2 && TWO_31 * next == TWO_31 * s + k * l0 - lost && BoundedBy(k, TWO_31) && BoundedBy(e, TWO_31)
    requires BoundedBy(l0 - ONE_IN_Q27 * e, c) && 0 <= s - ONE_IN_Q27 * sum <= (n - 2) * TWO_31
    requires k * e == -(TWO_31 * sum) + rest && BoundedBy(rest, TWO_31) && BoundedBy(lost, n * (TWO_31 * TWO_31))
    ensures BoundedBy(next, c + TWO_31 * (2 * n - 1))
  {
    var eta, sigma := l0 - ONE_IN_Q27 * e, s - ONE_IN_Q27 * sum;
    MulBound(k, eta, TWO_31, c);
    assert k * l0 == ONE_IN_Q27 * (k * e) + k * eta by {
      assert k * (ONE_IN_Q27 * e) == ONE_IN_Q27 * (k * e);
      assert k * (ONE_IN_Q27 * e + eta) == k * (ONE_IN_Q27 * e) + k * eta;
    }
    assert TWO_31 * next == TWO_31 * sigma + ONE_IN_Q27 * rest + k * eta - lost;
    assert n * (TWO_31 * TWO_31) == TWO_31 * (TWO_31 * n);
    Unit(next, c + TWO_31 * (2 * n - 1));
  }

  lemma SquareOfReflection(k: int)
    requires Abs(k) < TWO_31
    ensures var q := (k * k) / TWO_31;
      && 0 <= q <= TWO_31 - 2 && 0 <= k * k - TWO_31 * q < TWO_31
      && Q31(k, k) == q && Wrap32(ONE_IN_Q31 - Q31(k, k)) == TWO_31 - 1 - q
  {
    var p: nat := Abs(k);
    MulMono(p, TWO_31 - 1, p);
    MulMono(p, TWO_31 - 1, TWO_31 - 1);
    assert k * k == p * p;
    assert (TWO_31 - 1) * (TWO_31 - 1) == TWO_31 * (TWO_31 - 2) + 1;
    QuotientInRange(k * k, TWO_31, 0, TWO_31 - 2);
    FloorLeaves(k * k);
    Wrap32Id((k * k) / TWO_31);
    Wrap32Id(TWO_31 - 1 - (k * k) / TWO_31);
  }

  lemma NextResidual(e: int, k: int)
    requires Abs(k) < TWO_31 && BoundedBy(e, TWO_31)
    ensures var z := TWO_31 - 1 - (k * k) / TWO_31; var next := Q31(e, Wrap32(ONE_IN_Q31 - Q31(k, k)));
      next == (e * z) / TWO_31 && 0 <= e * z - TWO_31 * next < TWO_31 && BoundedBy(next, TWO_31)
  {
    var z := TWO_31 - 1 - (k * k) / TWO_31;
    SquareOfReflection(k);
    MulBound(e, z, TWO_31, TWO_31 - 1);
    FloorLeaves(e * z);
    QuotientInRange(e * z, TWO_31, -(TWO_31 - 1), TWO_31 - 1);
    Wrap32Id((e * z) / TWO_31);
  }

  // E (1 - k^2) in units of 2^-62, with what two floors lose.
  lemma ResidualIdentity(e: int, k: int, q: int, next: int, low: int, lower: int)
    requires k * k == TWO_31 * q + low && e * (TWO_31 - 1 - q) == TWO_31 * next + lower
    ensures TWO_31 * (TWO_31 * next) == TWO_31 * (TWO_31 * e) - TWO_31 * e - (k * k) * e + e * low - TWO_31 * lower
  {
    assert e * (TWO_31 - 1 - q) == TWO_31 * e - e - e * q;
    assert (k * k) * e == TWO_31 * (q * e) + low * e;
    assert q * e == e * q && low * e == e * low;
  }

  // Lag zero keeps to the residual.
  lemma ZeroLag(next: int, l0: int, s: int, k: int, lost: int, e: int, sum: int, rest: int, e1: int, low: int, lower: int, c: nat, n: nat)
    requires n >= 2 && TWO_31 * next == TWO_31 * l0 + k * s - lost && BoundedBy(k, TWO_31) && BoundedBy(e, TWO_31)
    requires BoundedBy(l0 - ONE_IN_Q27 * e, c) && 0 <= s - ONE_IN_Q27 * sum <= (n - 2) * TWO_31
    requires k * e == -(TWO_31 * sum) + rest && BoundedBy(rest, TWO_31) && BoundedBy(lost, n * (TWO_31 * TWO_31))
    requires 0 <= low < TWO_31 && 0 <= lower < TWO_31
    requires TWO_31 * (TWO_31 * e1) == TWO_31 * (TWO_31 * e) - TWO_31 * e - (k * k) * e + e * low - TWO_31 * lower
    ensures BoundedBy(next - ONE_IN_Q27 * e1, c + TWO_31 * (2 * n - 1))
  {
    var eta, sigma := l0 - ONE_IN_Q27 * e, s - ONE_IN_Q27 * sum;
    MulBound(k, sigma, TWO_31, (n - 2) * TWO_31);
    MulBound(k, rest, TWO_31, TWO_31);
    MulBound(e, low, TWO_31, TWO_31);
    SquaredTimes(k, e, sum, rest);
    assert k * s == ONE_IN_Q27 * (k * sum) + k * sigma by {
      assert k * (ONE_IN_Q27 * sum) == ONE_IN_Q27 * (k * sum);
      assert k * (ONE_IN_Q27 * sum + sigma) == k * (ONE_IN_Q27 * sum) + k * sigma;
    }
    assert 16 * ONE_IN_Q27 == TWO_31;
    var d := next - ONE_IN_Q27 * e1;
    assert 16 * (TWO_31 * d) == 16 * (TWO_31 * eta) + k * rest + 16 * (k * sigma) - 16 * lost + TWO_31 * e - e * low + TWO_31 * lower;
    assert n * (TWO_31 * TWO_31) == TWO_31 * (TWO_31 * n) && TWO_31 * ((n - 2) * TWO_31) == TWO_31 * (TWO_31 * (n - 2));
    Unit(d, c + TWO_31 * (2 * n - 1));
  }

  lemma SquaredTimes(k: int, e: int, sum: int, rest: int)
    requires k * e == -(TWO_31 * sum) + rest
    ensures (k * k) * e == -(TWO_31 * (k * sum)) + k * rest
  {
    assert (k * k) * e == k * (k * e);
    assert k * (-(TWO_31 * sum) + rest) == k * (-(TWO_31 * sum)) + k * rest;
    assert k * (-(TWO_31 * sum)) == -(TWO_31 * (k * sum));
  }

  lemma MiddleEquation(a: seq<int>, b: seq<int>, k: int, r: seq<int>, l: nat, bound: nat)
    requires 1 <= l < |a| < |r| && Bounded32(r) && MadeFrom(b, a + [0], k) && BoundedBy(k, TWO_31)
    requires forall j :: 1 <= j < |a| ==> BoundedBy(Equation(a, r, j), bound)
    ensures BoundedBy(Equation(b, r, l), 2 * bound + TWO_31 * (|a| + 1))
  {
    var lost := EquationStep(b, a + [0], k, r, l);
    ZeroAdds(a, r, l);
    ZeroAdds(a, r, |a| - l);
    MiddleLag(Equation(b, r, l), Equation(a, r, l), Equation(a, r, |a| - l), k, lost, bound, |a| + 1);
  }

  // What is known of one order: its reflection k, the residual e before it, and what the division left.
  predicate Cancels(a: seq<int>, b: seq<int>, k: int, r: seq<int>, e: int, rest: int, c: nat) {
    && 2 <= |a| < |r| && Bounded32(r) && a[0] == ONE_IN_Q27 && MadeFrom(b, a + [0], k)
    && BoundedBy(k, TWO_31) && BoundedBy(e, TWO_31) && BoundedBy(rest, TWO_31)
    && k * e == -(TWO_31 * Numerator(a, r)) + rest && BoundedBy(Equation(a, r, 0) - ONE_IN_Q27 * e, c)
  }

  lemma NewEquation(a: seq<int>, b: seq<int>, k: int, r: seq<int>, e: int, rest: int, c: nat)
    requires Cancels(a, b, k, r, e, rest, c)
    ensures BoundedBy(Equation(b, r, |a|), c + TWO_31 * (2 * |a| + 1))
  {
    var lost := EquationStep(b, a + [0], k, r, |a|);
    ZeroAdds(a, r, |a|);
    ZeroAdds(a, r, 0);
    NumeratorIsEquation(a, r);
    NewLag(Equation(b, r, |a|), Equation(a, r, |a|), Equation(a, r, 0), k, lost, e, Numerator(a, r), rest, c, |a| + 1);
  }

  lemma ZeroEquation(a: seq<int>, b: seq<int>, k: int, r: seq<int>, e: int, rest: int, c: nat)
    requires Cancels(a, b, k, r, e, rest, c) && Abs(k) < TWO_31
    ensures var next := Q31(e, Wrap32(ONE_IN_Q31 - Q31(k, k)));
      BoundedBy(next, TWO_31) && BoundedBy(Equation(b, r, 0) - ONE_IN_Q27 * next, c + TWO_31 * (2 * |a| + 1))
  {
    var next := Q31(e, Wrap32(ONE_IN_Q31 - Q31(k, k)));
    var lost := EquationStep(b, a + [0], k, r, 0);
    ZeroAdds(a, r, 0);
    ZeroAdds(a, r, |a|);
    NumeratorIsEquation(a, r);
    SquareOfReflection(k);
    NextResidual(e, k);
    var q := (k * k) / TWO_31;
    var low, lower := k * k - TWO_31 * q, e * (TWO_31 - 1 - q) - TWO_31 * next;
    ResidualIdentity(e, k, q, next, low, lower);
    ZeroLag(Equation(b, r, 0), Equation(a, r, 0), Equation(a, r, |a|), k, lost, e, Numerator(a, r), rest, next, low, lower, c, |a| + 1);
  }

  // What every order keeps.
  predicate Good(s: Stage, r: seq<int>) {
    2 <= |s.a| <= |r| && s.a[0] == ONE_IN_Q27 && BoundedBy(s.residual, TWO_31) && Solves(s, r)
  }

  lemma BoundsGrow(m: nat)
    requires m >= 2
    ensures TWO_31 * ResidualBound(m + 1) == TWO_31 * ResidualBound(m) + TWO_31 * (2 * m + 1)
    ensures TWO_31 * EquationBound(m + 1) == 2 * (TWO_31 * EquationBound(m)) + TWO_31 * ResidualBound(m) + TWO_31 * (2 * m + 1)
  {}

  lemma OrderKeepsGood(s: Stage, r: seq<int>)
    requires 2 <= |s.a| < |r| && Bounded32(r) && Good(s, r) && Fits(s, r)
    ensures Good(NextStage(s, r), r)
  {
    var k, t, m := NextReflection(s, r), NextStage(s, r), |s.a|;
    var c, bound := TWO_31 * ResidualBound(m), TWO_31 * EquationBound(m);
    var rest := ReflectionCancels(s, r);
    RaisedIsMade(s.a, k);
    BoundsGrow(m);
    assert Cancels(s.a, t.a, k, r, s.residual, rest, c);
    forall l | 1 <= l <= m ensures BoundedBy(Equation(t.a, r, l), TWO_31 * EquationBound(m + 1)) {
      if l < m { MiddleEquation(s.a, t.a, k, r, l, bound); } else { NewEquation(s.a, t.a, k, r, s.residual, rest, c); }
    }
    ZeroEquation(s.a, t.a, k, r, s.residual, rest, c);
  }

  // ----- the first order -----

  lemma FirstNumbers(r0: int, r1: int, f: int) returns (rest: int)
    requires 0 < r0 <= MAXINT32 && Abs(r1) < r0 && f == -Div(r1 * ONE_IN_Q27, r0)
    ensures f * r0 == -(ONE_IN_Q27 * r1) + rest && Abs(rest) < r0 && Abs(f) < ONE_IN_Q27
  {
    var x := r1 * ONE_IN_Q27;
    rest := TruncatedQuotient(x, r0);
    var q := DivSigned(x, r0);
    assert (-q) * r0 == -(q * r0);
    FirstFits(Abs(r1), r0);
    assert Abs(x) == Abs(r1) * ONE_IN_Q27;
  }

  lemma FirstFits(a: nat, r0: int)
    requires 0 <= a < r0
    ensures 0 <= (a * ONE_IN_Q27) / r0 < ONE_IN_Q27
  {
    MulMono(a, r0 - 1, ONE_IN_Q27);
    assert (r0 - 1) * ONE_IN_Q27 == ONE_IN_Q27 * r0 - ONE_IN_Q27;
    QuotientInRange(a * ONE_IN_Q27, r0, 0, ONE_IN_Q27 - 1);
  }

  lemma SquareOfFirst(f: int)
    requires Abs(f) < ONE_IN_Q27
    ensures var q := (f * f) / 0x800000;
      && 0 <= q <= TWO_31 - 2 && 0 <= f * f - 0x800000 * q < 0x800000
      && Wrap32(ONE_IN_Q31 - Q23(f, f)) == TWO_31 - 1 - q
  {
    var p: nat := Abs(f);
    MulMono(p, ONE_IN_Q27 - 1, p);
    MulMono(p, ONE_IN_Q27 - 1, ONE_IN_Q27 - 1);
    assert f * f == p * p;
    QuotientInRange(f * f, 0x800000, 0, TWO_31 - 2);
    Wrap32Id((f * f) / 0x800000);
    Wrap32Id(TWO_31 - 1 - (f * f) / 0x800000);
  }

  lemma FirstIdentity(r0: int, r1: int, f: int, rest: int, q: int, low: int, e: int, lower: int)
    requires f * r0 == -(ONE_IN_Q27 * r1) + rest && f * f == 0x800000 * q + low
    requires r0 * (TWO_31 - 1 - q) == TWO_31 * e + lower
    ensures ONE_IN_Q27 * (ONE_IN_Q27 * r0 + f * r1 - ONE_IN_Q27 * e) == f * rest + 0x800000 * r0 - low * r0 + 0x800000 * lower
  {
    assert f * (f * r0) == (f * f) * r0;
    assert f * (-(ONE_IN_Q27 * r1) + rest) == -(ONE_IN_Q27 * (f * r1)) + f * rest;
    assert (0x800000 * q + low) * r0 == 0x800000 * (q * r0) + low * r0;
    assert r0 * (TWO_31 - 1 - q) == TWO_31 * r0 - r0 - q * r0;
  }

  lemma FirstBound(f: int, rest: int, r0: int, low: int, lower: int, d: int)
    requires ONE_IN_Q27 * d == f * rest + 0x800000 * r0 - low * r0 + 0x800000 * lower
    requires BoundedBy(f, ONE_IN_Q27) && BoundedBy(rest, TWO_31) && 0 < r0 <= TWO_31 && 0 <= low <= 0x800000 && 0 <= lower <= TWO_31
    ensures BoundedBy(d, 2 * TWO_31)
  {
    MulBound(f, rest, ONE_IN_Q27, TWO_31);
    MulBound(low, r0, 0x800000, TWO_31);
  }

  lemma FirstSolves(r: seq<int>)
    requires IsCorrelations(r)
    ensures Good(FirstStage(r), r)
  {
    FirstReflectionExact(r);
    var f, a, e := FirstCoefficient(r), FirstStage(r).a, FirstStage(r).residual;
    var rest := FirstNumbers(r[0], r[1], f);
    SquareOfFirst(f);
    var q := (f * f) / 0x800000;
    var z := TWO_31 - 1 - q;
    MulBound(r[0], z, TWO_31, TWO_31 - 1);
    FloorLeaves(r[0] * z);
    QuotientInRange(r[0] * z, TWO_31, -(TWO_31 - 1), TWO_31 - 1);
    Wrap32Id((r[0] * z) / TWO_31);
    FirstIdentity(r[0], r[1], f, rest, q, f * f - 0x800000 * q, e, r[0] * z - TWO_31 * e);
    FirstBound(f, rest, r[0], f * f - 0x800000 * q, r[0] * z - TWO_31 * e, ONE_IN_Q27 * r[0] + f * r[1] - ONE_IN_Q27 * e);
    TwoTerms(a, r, 0);
    TwoTerms(a, r, 1);
  }

  lemma TwoTerms(a: seq<int>, r: seq<int>, l: nat)
    requires |a| == 2 && |a| <= |r| && l <= 1
    ensures Equation(a, r, l) == a[0] * r[l] + a[1] * r[1 - l]
  {
    assert Lag(a, r, l, 0) == 0;
    assert Lag(a, r, l, 1) == a[0] * r[l];
  }

  predicate IsCorrelations(r: seq<int>) {
    |r| == ORDER + 1 && Bounded32(r) && 0 < r[0] <= MAXINT32 && Abs(r[1]) < r[0]
  }

  /** Without wraps, after every order: each equation of the coefficients is zero and the residual is
      equation zero, up to the rounding bounds. */
  lemma {:induction false} RecursionSolves(r: seq<int>, i: nat)
    requires IsCorrelations(r) && 1 <= i <= ORDER && NoWrap(r, i)
    ensures Good(StageOf(r, i), r)
  {
    if i == 1 {
      FirstSolves(r);
    } else {
      var s := StageOf(r, i - 1);
      RecursionSolves(r, i - 1);
      assert Fits(s, r);
      OrderKeepsGood(s, r);
      StageAfter(r, i);
    }
  }

  lemma BoundsOfAll(m: nat)
    requires m == ORDER + 1
    ensures ResidualBound(m) == 119 && EquationBound(m) == 8535
  {
    assert ResidualBound(3) == 7 && ResidualBound(4) == 14 && ResidualBound(5) == 23 && ResidualBound(6) == 34;
    assert ResidualBound(7) == 47 && ResidualBound(8) == 62 && ResidualBound(9) == 79 && ResidualBound(10) == 98;
    assert EquationBound(3) == 9 && EquationBound(4) == 32 && EquationBound(5) == 87 && EquationBound(6) == 208;
    assert EquationBound(7) == 463 && EquationBound(8) == 988 && EquationBound(9) == 2055 && EquationBound(10) == 4208;
  }

  /** All ten orders: the ten normal equations hold within 8535 units of 2^31 where a full one is 2^58,
      and the residual energy is equation zero within 1904 of its own units. */
  lemma LastSolves(r: seq<int>, l: nat)
    requires IsCorrelations(r) && NoWrap(r, |r| - 1) && 1 <= l <= ORDER
    ensures BoundedBy(Equation(LastStage(r).a, r, l), 8535 * TWO_31)
    ensures BoundedBy(Equation(LastStage(r).a, r, 0) - ONE_IN_Q27 * LastStage(r).residual, 1904 * ONE_IN_Q27)
  {
    RecursionSolves(r, |r| - 1);
    BoundsOfAll(|r|);
  }

  // ----- the coefficients that leave -----

  // No coefficient saturates on its way to Q12.
  predicate NoSaturation(a: seq<int>) { forall j :: 0 <= j < |a| ==> Abs(a[j]) < 0x3fff0000 }

  function InQ12(lp: seq<int>): seq<int> { [4096] + lp }

  lemma RoundedNear(x: int)
    requires Abs(x) < 0x3fff0000
    ensures BoundedBy(0x8000 * Rounded12(x) - x, 0x4000)
  {
    Pow2Table();
    Wrap32Id(x + 0x4000);
  }

  lemma {:induction false} LagOfNear(b: seq<int>, a: seq<int>, r: seq<int>, l: nat, n: nat)
    requires |b| == |a| <= |r| && n <= |a| && l < |r| && Bounded32(r)
    requires forall j :: 0 <= j < |a| ==> BoundedBy(0x8000 * b[j] - a[j], 0x4000)
    ensures BoundedBy(0x8000 * Lag(b, r, l, n) - Lag(a, r, l, n), n * (0x4000 * TWO_31))
  {
    if n > 0 {
      LagOfNear(b, a, r, l, n - 1);
      var v := r[Apart(l, n - 1)];
      MulBound(0x8000 * b[n - 1] - a[n - 1], v, 0x4000, TWO_31);
      assert (0x8000 * b[n - 1] - a[n - 1]) * v == 0x8000 * (b[n - 1] * v) - a[n - 1] * v;
    }
  }

  /** The LP coefficients in Q12 solve the same equations: 4096 r(l) and the sum of lp(j) r(|l - j|) add up
      to at most six times 2^31, where a full equation is 2^43. */
  lemma LpSolves(r: seq<int>, l: nat)
    requires IsCorrelations(r) && NoWrap(r, |r| - 1) && 1 <= l <= ORDER
    requires NoSaturation(LastStage(r).a)
    ensures BoundedBy(Equation(InQ12(LpOf(LastStage(r).a)), r, l), 6 * TWO_31)
  {
    RecursionSolves(r, |r| - 1);
    LastSolves(r, l);
    RoundedSolve(LastStage(r).a, r, l);
  }

  lemma RoundedAll(a: seq<int>, j: nat)
    requires |a| == ORDER + 1 && a[0] == ONE_IN_Q27 && NoSaturation(a) && j < |a|
    ensures BoundedBy(0x8000 * InQ12(LpOf(a))[j] - a[j], 0x4000)
  {
    if j > 0 { RoundedNear(a[j]); }
  }

  lemma RoundedSolve(a: seq<int>, r: seq<int>, l: nat)
    requires |a| == |r| == ORDER + 1 && l < |r| && Bounded32(r) && a[0] == ONE_IN_Q27 && NoSaturation(a)
    requires BoundedBy(Equation(a, r, l), 8535 * TWO_31)
    ensures BoundedBy(Equation(InQ12(LpOf(a)), r, l), 6 * TWO_31)
  {
    var b := InQ12(LpOf(a));
    forall j | 0 <= j < |a| ensures BoundedBy(0x8000 * b[j] - a[j], 0x4000) { RoundedAll(a, j); }
    LagOfNear(b, a, r, l, |a|);
    RoundedBound(Equation(b, r, l), Equation(a, r, l), |a|);
  }

  lemma RoundedBound(x: int, y: int, n: nat)
    requires n == 11 && BoundedBy(y, 8535 * TWO_31) && BoundedBy(0x8000 * x - y, n * (0x4000 * TWO_31))
    ensures BoundedBy(x, 6 * TWO_31)
  {}

  // ----- what reaches the recursion -----

  /** The lag-windowed coefficients of every signal are correlations in this sense. */
  lemma FrameIsCorrelations(noLag: seq<int>)
    requires |noLag| == ORDER + 1 && IsClear(noLag[0], noLag[1])
    ensures IsCorrelations(Lagged(noLag))
  {
    WindowKeepsClear(noLag[0], noLag[1]);
    forall i | 1 <= i <= ORDER ensures BoundedBy(Lagged(noLag)[i], TWO_31) { WordIsBounded(noLag[i], i); }
  }

  lemma WordIsBounded(x: int, i: nat)
    requires i <= ORDER
    ensures BoundedBy(LagWindowed(i, x), TWO_31)
  {}

  // A frame without any correlation: the recursion changes nothing and never wraps.
  predicate IsWhite(r: seq<int>) {
    |r| == ORDER + 1 && ORDER < r[0] <= MAXINT32 && forall j :: 1 <= j <= ORDER ==> r[j] == 0
  }

  predicate IsFlat(s: Stage, r: seq<int>, i: nat)
    requires |r| > 0
  {
    |s.a| == i + 1 && s.a[0] == ONE_IN_Q27 && (forall j :: 1 <= j <= i ==> s.a[j] == 0) && s.residual == r[0] - i
  }

  lemma {:induction false} NothingAdds(a: seq<int>, r: seq<int>, m: nat, n: nat)
    requires 1 <= n <= m <= |a| && m < |r| && forall j :: 1 <= j < |r| ==> r[j] == 0
    ensures FloorSum(a, r, m, n) == 0
  {
    if n > 1 {
      NothingAdds(a, r, m, n - 1);
      assert a[n - 1] * r[m - (n - 1)] == 0;
    }
  }

  lemma {:induction false} NothingAddsWrapped(a: seq<int>, r: seq<int>, n: nat)
    requires 1 <= n <= |a| < |r| && forall j :: 1 <= j < |r| ==> r[j] == 0
    ensures Partial(a, r, |a|, n) == 0
  {
    if n > 1 {
      NothingAddsWrapped(a, r, n - 1);
      assert a[n - 1] * r[|a| - (n - 1)] == 0;
    }
  }

  lemma WhiteFits(s: Stage, r: seq<int>, i: nat)
    requires IsWhite(r) && 1 <= i < ORDER && IsFlat(s, r, i)
    ensures Fits(s, r) && NextReflection(s, r) == 0
  {
    WhiteSums(s.a, r);
    NothingAddsWrapped(s.a, r, |s.a|);
    WhiteReflection(s, r);
    assert forall j :: 1 <= j < |s.a| ==> Image(s.a, 0, j) == 0;
  }

  lemma WhiteSums(a: seq<int>, r: seq<int>)
    requires 2 <= |a| < |r| && forall j :: 1 <= j < |r| ==> r[j] == 0
    ensures SumsFit(a, r) && Numerator(a, r) == 0
  {
    forall n | 1 <= n <= |a| ensures FloorSum(a, r, |a|, n) == 0 { NothingAdds(a, r, |a|, n); }
    assert forall n :: 1 <= n < |a| ==> a[n] * r[|a| - n] == 0;
  }

  lemma WhiteReflection(s: Stage, r: seq<int>)
    requires 2 <= |s.a| < |r| && r[|s.a|] == 0 && Partial(s.a, r, |s.a|, |s.a|) == 0 && s.residual > 0
    ensures NextReflection(s, r) == 0
  {}

  lemma WhiteStep(s: Stage, r: seq<int>, i: nat)
    requires IsWhite(r) && 1 <= i < ORDER && IsFlat(s, r, i)
    ensures IsFlat(NextStage(s, r), r, i + 1)
  {
    WhiteFits(s, r, i);
    LosesOne(s.residual);
  }

  lemma LosesOne(e: int)
    requires 0 < e <= MAXINT32
    ensures Q31(e, Wrap32(ONE_IN_Q31 - Q31(0, 0))) == e - 1 && Q31(e, Wrap32(ONE_IN_Q31 - Q23(0, 0))) == e - 1
  {
    assert e * ONE_IN_Q31 == (e - 1) * TWO_31 + (TWO_31 - e);
    DivUnique(e * ONE_IN_Q31, TWO_31, e - 1);
  }

  lemma WhiteFirst(r: seq<int>)
    requires IsWhite(r)
    ensures IsFlat(FirstStage(r), r, 1)
  {
    LosesOne(r[0]);
    assert FirstCoefficient(r) == 0;
  }

  lemma {:induction false} WhiteStages(r: seq<int>, i: nat)
    requires IsWhite(r) && 1 <= i <= ORDER
    ensures IsFlat(StageOf(r, i), r, i)
  {
    if i == 1 {
      WhiteFirst(r);
    } else {
      WhiteStages(r, i - 1);
      WhiteStep(StageOf(r, i - 1), r, i - 1);
      StageAfter(r, i);
    }
  }

  /** The bounds are about something: without correlation no order wraps. */
  lemma WhiteNeverWraps(r: seq<int>, i: nat)
    requires IsWhite(r) && 1 <= i <= ORDER
    ensures NoWrap(r, i)
  {
    forall n | 1 <= n < i ensures Fits(StageOf(r, n), r) {
      WhiteStages(r, n);
      WhiteFits(StageOf(r, n), r, n);
    }
  }
}
