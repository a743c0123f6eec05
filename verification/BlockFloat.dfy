/** Summing up to seven sets of autocorrelation coefficients, each with its own scale, into one
    set with one scale. */
module BlockFloat {
  import opened FixedPoint

  const COEFFICIENTS := 11
  const MAX_FRAMES := 7
  const UNIT := 0x80000000

  predicate IsFrames(r: seq<seq<int>>, scales: seq<int>) {
    && 1 <= |r| == |scales| <= MAX_FRAMES
    && (forall j :: 0 <= j < |r| ==> |r[j]| == COEFFICIENTS)
    && (forall j, i :: 0 <= j < |r| && 0 <= i < COEFFICIENTS ==> Is32(r[j][i]))
  }

  predicate IsLeast(least: int, scales: seq<int>) {
    least in scales && forall j :: 0 <= j < |scales| ==> least <= scales[j]
  }

  // No shift of a 32 bit word by 32 or more.
  predicate Spread(scales: seq<int>, least: int) {
    forall j :: 0 <= j < |scales| ==> 0 <= scales[j] - least <= 31
  }

  method LeastScale(scales: seq<int>) returns (least: int)
    requires scales != []
    ensures IsLeast(least, scales)
  {
    least := scales[0];
    var i := 1;
    while i < |scales|
      invariant 1 <= i <= |scales|
      invariant least in scales && forall j :: 0 <= j < i ==> least <= scales[j]
    {
      if scales[i] < least { least := scales[i]; }
      i := i + 1;
    }
  }

  // The first n frames' coefficient i, each brought to the least scale.
  function Rescaled(r: seq<seq<int>>, scales: seq<int>, least: int, i: nat, n: nat): int
    requires IsFrames(r, scales) && Spread(scales, least) && i < COEFFICIENTS && n <= |r|
  {
    if n == 0 then 0 else Rescaled(r, scales, least, i, n - 1) + Shr(r[n - 1][i], scales[n - 1] - least)
  }

  // The same without any rounding, in units of 2^-31.
  function Exact(r: seq<seq<int>>, scales: seq<int>, least: int, i: nat, n: nat): int
    requires IsFrames(r, scales) && Spread(scales, least) && i < COEFFICIENTS && n <= |r|
  {
    if n == 0 then 0 else Exact(r, scales, least, i, n - 1) + r[n - 1][i] * Pow2(31 - (scales[n - 1] - least))
  }

  lemma ShiftedRange(x: int, k: nat)
    requires Is32(x)
    ensures Is32(Shr(x, k))
  {
    var p := Pow2(k);
    MulMono(1, p, 0x80000000);
    QuotientInRange(x, p, -0x80000000, 0x7fffffff);
  }

  lemma FloorLoss(x: int, d: int, p: nat)
    requires d > 0 && p > 0
    ensures 0 <= x * p - (x / d) * (d * p) < d * p
  {
    var q, low := x / d, x % d;
    assert x == q * d + low;
    assert x * p == q * d * p + low * p;
    assert q * d * p == q * (d * p);
    MulMono(low, d - 1, p);
    assert (d - 1) * p == d * p - p;
    assert 0 <= low * p;
  }

  // One floor loses less than one unit.
  lemma ShiftLoss(x: int, k: nat)
    requires k <= 31
    ensures 0 <= x * Pow2(31 - k) - Shr(x, k) * UNIT < UNIT
  {
    Pow2Add(k, 31 - k);
    Pow2Table();
    Pow2Add(15, 16);
    assert Pow2(k + (31 - k)) == UNIT;
    FloorLoss(x, Pow2(k), Pow2(31 - k));
  }

  lemma {:induction false} RescaledRange(r: seq<seq<int>>, scales: seq<int>, least: int, i: nat, n: nat)
    requires IsFrames(r, scales) && Spread(scales, least) && i < COEFFICIENTS && n <= |r|
    ensures -0x80000000 * n <= Rescaled(r, scales, least, i, n) <= 0x7fffffff * n
  {
    if n > 0 {
      RescaledRange(r, scales, least, i, n - 1);
      ShiftedRange(r[n - 1][i], scales[n - 1] - least);
    }
  }

  lemma LossesAdd(exact: int, sum: int, exactTerm: int, term: int, n: nat, u: nat)
    requires 0 <= exact - sum * u <= n * u && 0 <= exactTerm - term * u < u
    ensures 0 <= (exact + exactTerm) - (sum + term) * u <= (n + 1) * u
  {
    assert (sum + term) * u == sum * u + term * u && (n + 1) * u == n * u + u;
  }

  lemma {:induction false} RescaledLoss(r: seq<seq<int>>, scales: seq<int>, least: int, i: nat, n: nat)
    requires IsFrames(r, scales) && Spread(scales, least) && i < COEFFICIENTS && n <= |r|
    ensures 0 <= Exact(r, scales, least, i, n) - Rescaled(r, scales, least, i, n) * UNIT <= n * UNIT
  {
    if n > 0 {
      RescaledLoss(r, scales, least, i, n - 1);
      var x, d := r[n - 1][i], scales[n - 1] - least;
      ShiftLoss(x, d);
      LossesAdd(Exact(r, scales, least, i, n - 1), Rescaled(r, scales, least, i, n - 1), x * Pow2(31 - d), Shr(x, d), n - 1, UNIT);
    }
  }

  method SumRescaled(r: seq<seq<int>>, scales: seq<int>, least: int, i: nat) returns (sum: int)
    requires IsFrames(r, scales) && Spread(scales, least) && i < COEFFICIENTS
    ensures sum == Rescaled(r, scales, least, i, |r|) && -0x80000000 * |r| <= sum <= 0x7fffffff * |r|
  {
    assert Rescaled(r, scales, least, i, 0) == 0;
    sum := Shr(r[0][i], scales[0] - least);
    var j := 1;
    while j < |r|
      invariant 1 <= j <= |r|
      invariant sum == Rescaled(r, scales, least, i, j)
    {
      RescaledRange(r, scales, least, i, j + 1);
      Wrap64Id(sum + Shr(r[j][i], scales[j] - least));
      sum := Wrap64(sum + Shr(r[j][i], scales[j] - least));
      j := j + 1;
    }
    RescaledRange(r, scales, least, i, |r|);
  }

  // The smallest right shift that brings the largest magnitude into 31 bits.
  predicate BringsDown(max: nat, right: nat) {
    max / Pow2(right) <= MAXINT32 && (right > 0 ==> max / Pow2(right - 1) > MAXINT32)
  }

  method NormalisingShift(max: nat) returns (right: nat)
    requires max <= 0x80000000 * MAX_FRAMES
    ensures BringsDown(max, right) && right <= 3
  {
    var m := max;
    right := 0;
    assert Pow2(0) == 1;
    while m > MAXINT32
      invariant m == max / Pow2(right)
      invariant right > 0 ==> max / Pow2(right - 1) > MAXINT32
      invariant m <= 0xe00000000 / 4 || right < 2
      decreases m
    {
      DivDiv(max, Pow2(right), 2);
      m := m / 2;
      right := right + 1;
    }
    ShiftAtMostThree(max, right);
  }

  lemma ShiftAtMostThree(max: nat, right: nat)
    requires max <= 0x80000000 * MAX_FRAMES && (right > 0 ==> max / Pow2(right - 1) > MAXINT32)
    ensures right <= 3
  {
    if right > 3 {
      Pow2Table();
      Pow2Mono(3, right - 1);
      var p := Pow2(right - 1);
      MulMono(8, p, 0x80000000);
      DivMono(max, 0x80000000 * p - 1, p);
      DivUnique(0x80000000 * p - 1, p, MAXINT32);
      assert false;
    }
  }

  // A sum within the maximum, shifted down by its normalising shift.
  lemma ShiftedDownFits(x: int, max: int, right: nat)
    requires x <= max && -x <= max && BringsDown(max, right)
    ensures Is32(x / Pow2(right))
  {
    var p := Pow2(right);
    var q := max / p;
    assert max < (q + 1) * p;
    MulMono(q + 1, 0x80000000, p);
    assert (-0x80000000) * p == -(0x80000000 * p);
    QuotientInRange(x, p, -0x80000000, 0x7fffffff);
  }

  // Shifting a sum down by p after it has lost at most n units of u.
  lemma ScaledLoss(exact: int, sum: int, n: nat, p: nat, u: nat)
    requires n >= 1 && p >= 1 && u >= 1 && 0 <= exact - sum * u <= n * u
    ensures 0 <= exact - (sum / p) * (p * u) < (n + 1) * (p * u)
  {
    FloorLoss(sum, p, u);
    MulMono(1, p, n * u);
    assert p * (n * u) == n * (p * u);
    assert (n + 1) * (p * u) == n * (p * u) + p * u;
  }

  lemma ResultLoss(r: seq<seq<int>>, scales: seq<int>, least: int, i: nat, right: nat)
    requires IsFrames(r, scales) && Spread(scales, least) && i < COEFFICIENTS
    ensures var step := Pow2(right) * UNIT;
      0 <= Exact(r, scales, least, i, |r|) - (Rescaled(r, scales, least, i, |r|) / Pow2(right)) * step < (|r| + 1) * step
  {
    RescaledLoss(r, scales, least, i, |r|);
    ScaledLoss(Exact(r, scales, least, i, |r|), Rescaled(r, scales, least, i, |r|), |r|, Pow2(right), UNIT);
  }

  // Within |r| + 1 units of the exact sum, never above it.
  predicate Near(r: seq<seq<int>>, scales: seq<int>, least: int, i: nat, right: nat, result: int)
    requires IsFrames(r, scales) && Spread(scales, least) && i < COEFFICIENTS
  {
    var step := Pow2(right) * UNIT;
    0 <= Exact(r, scales, least, i, |r|) - result * step < (|r| + 1) * step
  }

  /** Whatever the least scale, all shifts stay below 32 if and only if no two scales are 32 or more
      apart. */
  lemma SpreadIff(scales: seq<int>, least: int)
    requires IsLeast(least, scales)
    ensures Spread(scales, least) <==> forall j, k :: 0 <= j < |scales| && 0 <= k < |scales| ==> scales[j] - scales[k] <= 31
  {
    var l :| 0 <= l < |scales| && scales[l] == least;
    if forall j, k :: 0 <= j < |scales| && 0 <= k < |scales| ==> scales[j] - scales[k] <= 31 {
      assert forall j :: 0 <= j < |scales| ==> scales[j] - scales[l] <= 31;
    }
  }

  // Whether every shift to the least scale is one that C gives a meaning.
  method ShiftsFit(scales: seq<int>, least: int) returns (fit: bool)
    requires IsLeast(least, scales)
    ensures fit <==> Spread(scales, least)
  {
    var j := 0;
    while j < |scales|
      invariant 0 <= j <= |scales|
      invariant forall k :: 0 <= k < j ==> 0 <= scales[k] - least <= 31
    {
      if scales[j] - least > 31 { return false; }
      j := j + 1;
    }
    fit := true;
  }

  /** For one to seven frames: unless a word is shifted by 32 bits or more, which C leaves open and
      which ends the sum here, it needs a right shift of at most three, every result fits 32 bits, and
      against the exact scaled sum a result is never above it and less than |r| + 1 of its units below. */
  method SumAutocorrelationCoefficients(r: seq<seq<int>>, scales: seq<int>, result: array<int>)
    returns (inRange: bool, scale: int, ghost least: int, ghost right: nat)
    requires IsFrames(r, scales) && result.Length == COEFFICIENTS
    modifies result
    ensures IsLeast(least, scales) && right <= 3 && (inRange <==> Spread(scales, least))
    ensures inRange ==> scale == least - right
    ensures inRange ==> forall i :: 0 <= i < COEFFICIENTS ==> Is32(result[i]) && result[i] == Rescaled(r, scales, least, i, |r|) / Pow2(right)
    ensures inRange ==> forall i :: 0 <= i < COEFFICIENTS ==> Near(r, scales, least, i, right, result[i])
  {
    var minScale := LeastScale(scales);
    least, right := minScale, 0;
    inRange := ShiftsFit(scales, minScale);
    if !inRange { return false, 0, least, right; }
    var sums, max := SumAll(r, scales, minScale);
    var rightShift := NormalisingShift(max);
    right := rightShift;
    ShiftAll(sums[..], max, rightShift, result);
    forall k | 0 <= k < COEFFICIENTS ensures Near(r, scales, least, k, right, result[k]) {
      ResultLoss(r, scales, least, k, right);
    }
    scale := minScale - rightShift;
  }

  method ShiftAll(sums: seq<int>, max: int, right: nat, result: array<int>)
    requires |sums| == result.Length && max >= 0 && BringsDown(max, right)
    requires forall k :: 0 <= k < |sums| ==> sums[k] <= max && -sums[k] <= max
    modifies result
    ensures forall k :: 0 <= k < |sums| ==> Is32(result[k]) && result[k] == sums[k] / Pow2(right)
  {
    var i := 0;
    while i < |sums|
      invariant 0 <= i <= |sums|
      invariant forall k :: 0 <= k < i ==> Is32(result[k]) && result[k] == sums[k] / Pow2(right)
    {
      ShiftedDownFits(sums[i], max, right);
      Wrap32Id(sums[i] / Pow2(right));
      result[i] := Wrap32(sums[i] / Pow2(right));
      i := i + 1;
    }
  }

  // All the sums and the largest magnitude among them.
  method SumAll(r: seq<seq<int>>, scales: seq<int>, least: int) returns (sums: array<int>, max: nat)
    requires IsFrames(r, scales) && Spread(scales, least)
    ensures fresh(sums) && sums.Length == COEFFICIENTS && max <= 0x80000000 * MAX_FRAMES
    ensures forall k :: 0 <= k < COEFFICIENTS ==> sums[k] == Rescaled(r, scales, least, k, |r|) && sums[k] <= max && -sums[k] <= max
  {
    sums := new int[COEFFICIENTS];
    max := 0;
    var i := 0;
    while i < COEFFICIENTS
      invariant 0 <= i <= COEFFICIENTS && max <= 0x80000000 * MAX_FRAMES
      invariant forall k :: 0 <= k < i ==> sums[k] == Rescaled(r, scales, least, k, |r|) && sums[k] <= max && -sums[k] <= max
    {
      sums[i] := SumRescaled(r, scales, least, i);
      if Abs(sums[i]) > max { max := Abs(sums[i]); }
      i := i + 1;
    }
  }
}
