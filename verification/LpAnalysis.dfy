/** From signals to LP coefficients: the autocorrelation of a frame, or the block sum of several
    frames, never reaches r(1) = r(0) or r(1) = -r(0).  So the first reflection is exact, the energy
    left after it is positive, and the result is the step-up of its own reflections. */
module LpAnalysis {
  import opened FixedPoint
  import opened Autocorrelation
  import opened BlockFloat
  import opened StepUp
  import opened LpWindow

  // ----- how close neighbouring samples can come to cancelling -----

  // The first square and the squares of all sums of neighbours before m.
  function NeighbourPower(w: seq<int>, m: nat): int
    requires 1 <= m <= |w|
  {
    if m == 1 then w[0] * w[0] else NeighbourPower(w, m - 1) + (w[m - 1] + w[m - 2]) * (w[m - 1] + w[m - 2])
  }

  lemma SquareOfSum(x: int, y: int)
    ensures (x + y) * (x + y) == x * x + 2 * (x * y) + y * y
  {}

  /** Twice r(0) + r(1) is a sum of squares. */
  lemma {:induction false} NeighbourIdentity(w: seq<int>, m: nat)
    requires 1 <= m <= |w|
    ensures 2 * (Energy(w, m) + Correlation(w, 1, m)) == NeighbourPower(w, m) + w[m - 1] * w[m - 1]
  {
    if m == 1 {
      assert Energy(w, 0) == 0;
    } else {
      NeighbourIdentity(w, m - 1);
      SquareOfSum(w[m - 1], w[m - 2]);
      assert Energy(w, m) == Energy(w, m - 1) + w[m - 1] * w[m - 1];
      assert Correlation(w, 1, m) == Correlation(w, 1, m - 1) + w[m - 1] * w[m - 2];
    }
  }

  lemma Regroup(x: int, y: int, z: int)
    ensures (x * y) * z == x * (y * z)
  {}

  lemma Distribute(x: int, y: int, z: int)
    ensures x * (y + z) == x * y + x * z
  {}

  lemma Scaled2(m: int, d: int)
    ensures (m * d) * (m * d) == (m * m) * (d * d)
  {
    Regroup(m, d, m * d);
    Regroup(d, m, d);
    Regroup(m, m, d * d);
    assert d * (m * d) == (d * m) * d == (m * d) * d;
    Regroup(m, d, d);
  }

  // m (d - u)^2 <= m (m + 1) d^2 + (m + 1) u^2, because (m d + u)^2 is not negative.
  lemma WeightedSquare(m: nat, d: int, u: int)
    ensures m * ((d - u) * (d - u)) <= (m * (m + 1)) * (d * d) + (m + 1) * (u * u)
  {
    Square(m * d + u);
    SquareOfSum(m * d, u);
    Scaled2(m, d);
    Regroup(m, d, u);
    SquareOfSum(d, -u);
    assert d * (-u) == -(d * u) && (-u) * (-u) == u * u;
    WeighedTerms(m, d * d, d * u, u * u);
  }

  lemma WeighedTerms(m: nat, dd: int, du: int, uu: int)
    requires (m * m) * dd + 2 * (m * du) + uu >= 0
    ensures m * (dd - 2 * du + uu) <= (m * (m + 1)) * dd + (m + 1) * uu
  {
    Distribute(m, dd, -2 * du + uu);
    Distribute(m, -2 * du, uu);
    assert m * (-2 * du) == -2 * (m * du);
    Distribute(m, m, 1);
    assert (m * m + m) * dd == (m * m) * dd + m * dd;
    assert (m + 1) * uu == m * uu + uu;
  }

  lemma SampleStep(m: nat, d: int, u: int, before: int)
    requires m >= 1 && u * u <= m * before
    ensures (d - u) * (d - u) <= (m + 1) * (before + d * d)
  {
    WeightedSquare(m, d, u);
    StepTerms(m, (d - u) * (d - u), d * d, u * u, before);
  }

  lemma StepTerms(m: nat, x: int, dd: int, uu: int, before: int)
    requires m >= 1 && m * x <= (m * (m + 1)) * dd + (m + 1) * uu && uu <= m * before
    ensures x <= (m + 1) * (before + dd)
  {
    MulMono(uu, m * before, m + 1);
    Regroup(m, m + 1, dd);
    Regroup(m, before, m + 1);
    Distribute(m, (m + 1) * before, (m + 1) * dd);
    Distribute(m + 1, before, dd);
    assert before * (m + 1) == (m + 1) * before;
    var y := (m + 1) * (before + dd);
    assert m * x <= m * y;
    if x > y {
      MulMono(y + 1, x, m);
      Distribute(m, y, 1);
      assert false;
    }
  }

  // A sample is reached from zero by as many steps as it has predecessors.
  lemma {:induction false} SampleBound(w: seq<int>, m: nat)
    requires 1 <= m <= |w|
    ensures w[m - 1] * w[m - 1] <= m * NeighbourPower(w, m)
  {
    if m > 1 {
      SampleBound(w, m - 1);
      SampleStep(m - 1, w[m - 1] + w[m - 2], w[m - 2], NeighbourPower(w, m - 1));
    }
  }

  lemma {:induction false} EnergyBound(w: seq<int>, m: nat)
    requires 1 <= m <= |w|
    ensures 2 * Energy(w, m) <= (m * (m + 1)) * NeighbourPower(w, m) && NeighbourPower(w, m) >= 0
  {
    SampleBound(w, m);
    if m == 1 {
      assert Energy(w, 0) == 0;
      Square(w[0]);
    } else {
      var before, d := NeighbourPower(w, m - 1), w[m - 1] + w[m - 2];
      EnergyBound(w, m - 1);
      Square(d);
      assert Energy(w, m) == Energy(w, m - 1) + w[m - 1] * w[m - 1];
      EnergyTerms(m, Energy(w, m - 1), w[m - 1] * w[m - 1], before, before + d * d);
    }
  }

  lemma EnergyTerms(m: nat, e: int, xx: int, before: int, p: int)
    requires m >= 1 && 2 * e <= ((m - 1) * m) * before && before <= p && xx <= m * p
    ensures 2 * (e + xx) <= (m * (m + 1)) * p
  {
    var k: nat := (m - 1) * m;
    MulMono(before, p, k);
    assert k + 2 * m == m * (m + 1);
    assert (k + 2 * m) * p == k * p + 2 * (m * p);
  }

  const STEPS := 57840

  lemma SumMargin(w: seq<int>)
    requires |w| <= 240
    ensures Energy(w, |w|) <= STEPS * (Energy(w, |w|) + Correlation(w, 1, |w|))
  {
    var m := |w|;
    if m > 0 {
      var p, e, c := NeighbourPower(w, m), Energy(w, m), Correlation(w, 1, m);
      EnergyBound(w, m);
      NeighbourIdentity(w, m);
      Square(w[m - 1]);
      MulMono(m, 240, m + 1);
      MulMono(m + 1, 241, 240);
      MulMono(m * (m + 1), STEPS, p);
      assert p <= 2 * (e + c);
    }
  }

  // Every other sample with its sign turned.
  function Alternated(w: seq<int>): (a: seq<int>)
    ensures |a| == |w|
  {
    seq(|w|, i requires 0 <= i < |w| => if i % 2 == 0 then w[i] else -w[i])
  }

  lemma {:induction false} AlternatedSums(w: seq<int>, m: nat)
    requires m <= |w|
    ensures Energy(Alternated(w), m) == Energy(w, m)
    ensures Correlation(Alternated(w), 1, m) == -Correlation(w, 1, m)
  {
    if m > 0 {
      var a := Alternated(w);
      AlternatedSums(w, m - 1);
      assert Energy(a, m) == Energy(a, m - 1) + a[m - 1] * a[m - 1];
      assert Energy(w, m) == Energy(w, m - 1) + w[m - 1] * w[m - 1];
      assert a[m - 1] * a[m - 1] == w[m - 1] * w[m - 1];
      if m > 1 {
        assert a[m - 1] * a[m - 2] == -(w[m - 1] * w[m - 2]);
      }
    }
  }

  /** r(0) <= 240 * 241 * (r(0) + r(1)), and the same with r(0) - r(1), for every signal of up to 240
      samples. */
  lemma NeighbourMargin(w: seq<int>)
    requires |w| <= 240
    ensures Energy(w, |w|) <= STEPS * (Energy(w, |w|) + Correlation(w, 1, |w|))
    ensures Energy(w, |w|) <= STEPS * (Energy(w, |w|) - Correlation(w, 1, |w|))
  {
    SumMargin(w);
    SumMargin(Alternated(w));
    AlternatedSums(w, |w|);
  }

  // ----- through the normalisation -----

  const MARGIN := 18000

  // What the autocorrelation of a frame hands on: r(0) fills 31 bits, r(1) stays clear of r(0) and -r(0).
  predicate IsClear(r0: int, r1: int) {
    0x40000000 <= r0 <= MAXINT32 && r0 + r1 >= MARGIN && r0 - r1 >= MARGIN
  }

  lemma ScaledMargin(e: int, c: int, s: int)
    requires 0 < e && -e <= c <= e && Normalises(e, s) && e <= STEPS * (e + c) && e <= STEPS * (e - c)
    ensures IsClear(Scaled(e, s), Scaled(c, s))
  {
    NormalisedFits(c, e, s);
    if s >= 0 {
      LeftMargin(e, c, Pow2(s));
      LeftMargin(e, -c, Pow2(s));
      assert (-c) * Pow2(s) == -(c * Pow2(s));
    } else {
      RightMargin(e, c, Pow2(-s));
      RightMargin(e, -c, Pow2(-s));
      FloorOfNegative(c, Pow2(-s));
    }
  }

  lemma FloorOfNegative(c: int, p: nat)
    requires p >= 1
    ensures (-c) / p <= -(c / p)
  {
    var y := c / p;
    assert y * p <= c;
    assert (-y + 1) * p == -(y * p) + p;
    MulCancel((-c) / p, -y + 1, p);
  }

  lemma LeftMargin(e: int, c: int, p: nat)
    requires p >= 1 && e <= STEPS * (e + c) && e * p >= 0x40000000
    ensures e * p + c * p >= MARGIN
  {
    MulMono(e, STEPS * (e + c), p);
    Regroup(STEPS, e + c, p);
    assert (e + c) * p == e * p + c * p;
  }

  lemma RightMargin(e: int, c: int, p: nat)
    requires p >= 1 && e <= STEPS * (e + c) && e / p >= 0x40000000
    ensures e / p + c / p >= MARGIN
  {
    var x, y := e / p, c / p;
    assert x * p <= e < x * p + p && c < y * p + p;
    assert (x + y + 2) * p == x * p + y * p + 2 * p;
    MulMono(e + c, (x + y + 2) * p, STEPS);
    Regroup(STEPS, x + y + 2, p);
    var bound := STEPS * (x + y + 2);
    assert (bound + 1) * p == bound * p + p;
    MulCancel(x, bound + 1, p);
  }

  /** The normalised coefficients of every signal are clear of r(1) = r(0) and r(1) = -r(0). */
  lemma SignalIsClear(w: seq<int>, scale: int)
    requires IsSignal(w) && Normalises(Floored(Energy(w, |w|)), scale)
    ensures IsClear(Scaled(Floored(Energy(w, |w|)), scale), Scaled(Correlation(w, 1, |w|), scale))
  {
    CorrelationBound(w, 1, |w|);
    EnergyGrows(w, 0, |w|);
    NeighbourMargin(w);
    ScaledMargin(Floored(Energy(w, |w|)), Correlation(w, 1, |w|), scale);
  }

  // The lag window, in Q15; the first entry is not used.
  function LagWindow(i: nat): int
    requires i <= ORDER
  {
    if i == 0 then 32767 else if i == 1 then 32728 else if i == 2 then 32619 else if i == 3 then 32438
    else if i == 4 then 32187 else if i == 5 then 31867 else if i == 6 then 31480 else if i == 7 then 31029
    else if i == 8 then 30517 else if i == 9 then 29946 else 29321
  }

  function LagWindowed(i: nat, x: int): int
    requires i <= ORDER
  {
    MultRound16x32(LagWindow(i), x, 15)
  }

  lemma WindowKeepsClear(r0: int, r1: int)
    requires IsClear(r0, r1)
    ensures IsClear(r0, LagWindowed(1, r1))
  {
    Pow2Table();
    var y := (32728 * r1 + 0x4000) / 0x8000;
    assert y * 0x8000 <= 32728 * r1 + 0x4000 < (y + 1) * 0x8000;
    assert if r1 >= 0 then 0 <= y <= r1 else r1 <= y <= 0;
    SplitMultiplyRounds(32728, r1, 15);
  }

  function Lagged(r: seq<int>): (l: seq<int>)
    requires |r| == ORDER + 1
    ensures |l| == ORDER + 1 && l[0] == r[0]
  {
    seq(ORDER + 1, i requires 0 <= i <= ORDER => if i == 0 then r[0] else LagWindowed(i, r[i]))
  }

  // ----- the energy after the first order -----

  const LEAST_MARGIN := 2000

  // What reaches the recursion: r(1) on neither side at r(0).
  predicate IsApart(r0: int, r1: int) {
    0x8000000 <= r0 <= MAXINT32 && r0 + r1 >= LEAST_MARGIN && r0 - r1 >= LEAST_MARGIN
  }

  // The size of the first coefficient: at least a sixteenth of the margin below one in Q27.
  lemma FirstSize(r0: int, r1: int)
    requires IsApart(r0, r1)
    ensures var size := Abs(r1) * ONE_IN_Q27 / r0; 0 <= size <= ONE_IN_Q27 - 125
  {
    var a: nat := Abs(r1);
    MulMono(a, r0 - LEAST_MARGIN, ONE_IN_Q27);
    assert (r0 - LEAST_MARGIN) * ONE_IN_Q27 == ONE_IN_Q27 * r0 - LEAST_MARGIN * ONE_IN_Q27;
    assert (ONE_IN_Q27 - 125 + 1) * r0 == ONE_IN_Q27 * r0 - 124 * r0;
    QuotientInRange(a * ONE_IN_Q27, r0, 0, ONE_IN_Q27 - 125);
  }

  lemma SizeOfFirst(r: seq<int>)
    requires |r| == ORDER + 1 && IsApart(r[0], r[1])
    ensures FirstCoefficient(r) == -Div(r[1] * ONE_IN_Q27, r[0]) && Abs(FirstCoefficient(r)) <= ONE_IN_Q27 - 125
  {
    FirstSize(r[0], r[1]);
    FirstReflectionExact(r);
    assert r[1] < 0 ==> -(r[1] * ONE_IN_Q27) == Abs(r[1]) * ONE_IN_Q27;
  }

  // One minus the square of a coefficient in Q27, in Q31, is at least 16 times what it lacks to one.
  lemma SquareLeaves(c: int)
    requires Abs(c) <= ONE_IN_Q27 - 125
    ensures 1999 <= ONE_IN_Q31 - Q23(c, c) <= ONE_IN_Q31
    ensures Wrap32(ONE_IN_Q31 - Q23(c, c)) == ONE_IN_Q31 - Q23(c, c)
  {
    var f: nat := Abs(c);
    var top: nat := ONE_IN_Q27 - 125;
    assert c * c == f * f;
    MulMono(f, top, f);
    MulMono(f, top, top);
    QuotientInRange(f * f, 0x800000, 0, 0x80000000 - 2000);
  }

  lemma EnergyLeft(r0: int, left: int)
    requires 0x8000000 <= r0 <= MAXINT32 && 1999 <= left <= ONE_IN_Q31
    ensures 0 < Q31(r0, left) <= r0
  {
    MulMono(1999, left, r0);
    MulMono(left, TWO_31, r0);
    assert 1999 * r0 >= TWO_31 && r0 * left == left * r0;
    QuotientInRange(r0 * left, TWO_31, 1, r0);
  }

  /** For every r(1) that a signal or a block sum gives, the energy left after the first order is
      positive: the first division of the recursion never meets zero. */
  lemma FirstResidualPositive(r: seq<int>)
    requires |r| == ORDER + 1 && IsApart(r[0], r[1])
    ensures 0 < StageOf(r, 1).residual <= r[0]
  {
    SizeOfFirst(r);
    var first := FirstCoefficient(r);
    SquareLeaves(first);
    EnergyLeft(r[0], ONE_IN_Q31 - Q23(first, first));
  }

  method Recurse(r: seq<int>) returns (found: bool, lp: array<int>, k: array<int>, residualEnergy: int)
    requires |r| == ORDER + 1 && IsApart(r[0], r[1])
    ensures lp.Length == k.Length == ORDER && fresh(lp) && fresh(k) && (found <==> Divides(r, |r| - 1))
    ensures StageOf(r, 1).residual > 0
    ensures found ==> k[..] == LastStage(r).k && lp[..] == FromReflections(k[..]) && residualEnergy == LastStage(r).residual
  {
    FirstResidualPositive(r);
    LevinsonIsFromReflections(r);
    found, lp, k, residualEnergy := Levinson(r);
  }

  // ----- a speech frame -----

  // The exact correlations of a signal under one common shift.
  predicate IsNormalised(w: seq<int>, scale: int, r: seq<int>)
    requires IsSignal(w) && |r| == COEFFICIENTS
  {
    && Normalises(Floored(Energy(w, |w|)), scale)
    && r[0] == Scaled(Floored(Energy(w, |w|)), scale)
    && forall i :: 1 <= i < COEFFICIENTS ==> r[i] == Scaled(Correlation(w, i, |w|), scale)
  }

  method Analyse(w: seq<int>) returns (r: array<int>, scale: int)
    requires IsSignal(w)
    ensures fresh(r) && r.Length == COEFFICIENTS && IsNormalised(w, scale, r[..]) && IsClear(r[0], r[1])
  {
    r := new int[COEFFICIENTS];
    scale := ComputeAutocorrelation(w, r);
    SignalIsClear(w, scale);
  }

  /** The LP analysis of a speech frame: window, correlate, normalise, apply the lag window, run the
      recursion.  Whatever the signal, the reflections are those of the recursion on the lag-windowed
      coefficients, its first division is safe, and the LP coefficients are the step-up of the
      reflections. */
  method ComputeLp(signal: seq<int>) returns (found: bool, lp: array<int>, k: array<int>, noLag: seq<int>, scale: int)
    requires IsBuffer(signal)
    ensures lp.Length == k.Length == ORDER && |noLag| == COEFFICIENTS
    ensures IsNormalised(Windowed(signal), scale, noLag) && IsClear(noLag[0], noLag[1])
    ensures StageOf(Lagged(noLag), 1).residual > 0 && (found <==> Divides(Lagged(noLag), ORDER))
    ensures found ==> k[..] == LastStage(Lagged(noLag)).k && lp[..] == FromReflections(k[..])
  {
    var w := WindowSignal(signal);
    var r;
    r, scale := Analyse(w);
    noLag := r[..];
    WindowKeepsClear(r[0], r[1]);
    LagAll(r);
    assert r[..] == Lagged(noLag);
    var residualEnergy;
    found, lp, k, residualEnergy := Recurse(r[..]);
  }

  method LagAll(r: array<int>)
    requires r.Length == COEFFICIENTS
    modifies r
    ensures r[0] == old(r[0]) && forall i :: 1 <= i < r.Length ==> r[i] == LagWindowed(i, old(r[i]))
  {
    var i := 1;
    while i < r.Length
      invariant 1 <= i <= r.Length
      invariant r[0] == old(r[0])
      invariant forall k :: 1 <= k < i ==> r[k] == LagWindowed(k, old(r[k]))
      invariant forall k :: i <= k < r.Length ==> r[k] == old(r[k])
    {
      r[i] := MultRound16x32(LagWindow(i), r[i], 15);
      i := i + 1;
    }
  }

  // ----- through the block sum -----

  predicate AllClear(r: seq<seq<int>>, scales: seq<int>) {
    IsFrames(r, scales) && forall j :: 0 <= j < |r| ==> IsClear(r[j][0], r[j][1])
  }

  lemma ShiftedClear(r0: int, r1: int, d: nat)
    requires IsClear(r0, r1)
    ensures Shr(r0, d) >= 0 && Shr(r0, d) + Shr(r1, d) >= -1 && Shr(r0, d) - Shr(r1, d) >= 0
    ensures d == 0 ==> Shr(r0, d) == r0 && Shr(r1, d) == r1
  {
    var p := Pow2(d);
    DivMono(r1, r0, p);
    var x, y := r0 / p, r1 / p;
    assert x * p <= r0 < x * p + p && y * p <= r1 < y * p + p;
    assert (x + y + 2) * p == x * p + y * p + 2 * p;
    MulCancel(0, x + y + 2, p);
    MulCancel(0, x + 1, p);
    if d == 0 { assert Pow2(d) == 1; }
  }

  // The sums over the first n frames, one of them perhaps at the least scale.
  lemma {:induction false} RescaledClear(r: seq<seq<int>>, scales: seq<int>, least: int, n: nat)
    requires AllClear(r, scales) && Spread(scales, least) && n <= |r|
    ensures var s0, s1 := Rescaled(r, scales, least, 0, n), Rescaled(r, scales, least, 1, n);
      && s0 >= 0 && s0 + s1 + n >= 0 && s0 - s1 >= 0
      && (least in scales[..n] ==> s0 >= 0x40000000 && s0 + s1 >= MARGIN - n && s0 - s1 >= MARGIN)
  {
    if n > 0 {
      RescaledClear(r, scales, least, n - 1);
      ShiftedClear(r[n - 1][0], r[n - 1][1], scales[n - 1] - least);
      assert scales[..n] == scales[..n - 1] + [scales[n - 1]];
    }
  }

  lemma ShiftedDownApart(s0: int, s1: int, right: nat)
    requires right <= 3 && s0 >= 0x40000000 && s0 + s1 >= MARGIN - MAX_FRAMES && s0 - s1 >= MARGIN
    requires s0 / Pow2(right) <= MAXINT32
    ensures IsApart(s0 / Pow2(right), s1 / Pow2(right))
  {
    Pow2Table();
    assert Pow2(0) == 1;
    assert right == 0 || right == 1 || right == 2 || right == 3;
  }

  // The coefficients of the frames at the least scale, summed and shifted down together.
  function BlockSum(r: seq<seq<int>>, scales: seq<int>, least: int, right: nat): (s: seq<int>)
    requires IsFrames(r, scales) && Spread(scales, least)
    ensures |s| == COEFFICIENTS
  {
    seq(COEFFICIENTS, i requires 0 <= i < COEFFICIENTS => Rescaled(r, scales, least, i, |r|) / Pow2(right))
  }

  lemma BlockSumApart(r: seq<seq<int>>, scales: seq<int>, least: int, right: nat)
    requires AllClear(r, scales) && Spread(scales, least) && least in scales && right <= 3
    requires BlockSum(r, scales, least, right)[0] <= MAXINT32
    ensures var s := BlockSum(r, scales, least, right); IsApart(s[0], s[1])
  {
    assert scales[..|r|] == scales;
    RescaledClear(r, scales, least, |r|);
    ShiftedDownApart(Rescaled(r, scales, least, 0, |r|), Rescaled(r, scales, least, 1, |r|), right);
  }

  // The outcome of the recursion on coefficients that are apart.
  predicate IsResultOf(s: seq<int>, found: bool, lp: seq<int>, k: seq<int>, residualEnergy: int)
    requires |s| == ORDER + 1 && |lp| == |k| == ORDER
  {
    && IsApart(s[0], s[1]) && StageOf(s, 1).residual > 0 && (found <==> Divides(s, ORDER))
    && (found ==> k == LastStage(s).k && lp == FromReflections(k) && residualEnergy == LastStage(s).residual)
  }

  /** The LP analysis of a noise frame, from the block sum of some frames: the shifts of the sum stay
      below 32 if and only if no two scales are 32 or more apart; then the reflections are those of
      the recursion on the sum, its first division is safe, and the LP coefficients are the step-up of
      the reflections. */
  method NoiseLp(r: seq<seq<int>>, scales: seq<int>)
    returns (inRange: bool, found: bool, lp: array<int>, k: array<int>, residualEnergy: int, ghost least: int, ghost right: nat)
    requires AllClear(r, scales)
    ensures lp.Length == k.Length == ORDER && IsLeast(least, scales) && right <= 3
    ensures (inRange <==> Spread(scales, least)) && (found ==> inRange)
    ensures inRange ==> IsResultOf(BlockSum(r, scales, least, right), found, lp[..], k[..], residualEnergy)
  {
    var sums := new int[COEFFICIENTS];
    var scale: int;
    inRange, scale, least, right := SumAutocorrelationCoefficients(r, scales, sums);
    found, residualEnergy := false, 0;
    if inRange {
      BlockSumApart(r, scales, least, right);
      assert sums[..] == BlockSum(r, scales, least, right);
      found, lp, k, residualEnergy := Recurse(sums[..]);
    } else {
      lp, k := new int[ORDER], new int[ORDER];
    }
  }
}
