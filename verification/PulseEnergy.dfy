/** Why the pulse search may cross-multiply: on the matrix of the codec every energy it meets is
    positive.  Twice the exact energy is the energy of the filtered pulses themselves, which is at
    least the square of the first response sample; halving, scaling and rounding take less. */
module PulseEnergy {
  import opened Common
  import opened FixedPoint
  import opened Autocorrelation
  import opened Phi
  import opened PulseSearch
  import FixedCodeword

  // The response delayed by a.
  function Delayed(h: seq<int>, a: nat, n: nat): int
    requires |h| == L_SUBFRAME && n < L_SUBFRAME
  {
    if a <= n then h[n - a] else 0
  }

  // Products of two delayed responses, summed before n.
  function Gram(h: seq<int>, a: nat, b: nat, n: nat): int
    requires |h| == L_SUBFRAME && n <= L_SUBFRAME
  {
    if n == 0 then 0 else Gram(h, a, b, n - 1) + Delayed(h, a, n - 1) * Delayed(h, b, n - 1)
  }

  lemma {:induction false} GramIsCorrelation(h: seq<int>, a: nat, b: nat, n: nat)
    requires |h| == L_SUBFRAME && n <= L_SUBFRAME && b <= a
    ensures Gram(h, a, b, n) == if n >= a then Correlation(h, a - b, n - b) else 0
  {
    if n > 0 { GramIsCorrelation(h, a, b, n - 1); }
  }

  lemma {:induction false} GramSymmetric(h: seq<int>, a: nat, b: nat, n: nat)
    requires |h| == L_SUBFRAME && n <= L_SUBFRAME
    ensures Gram(h, a, b, n) == Gram(h, b, a, n)
  {
    if n > 0 { GramSymmetric(h, a, b, n - 1); }
  }

  lemma PhiIsGram(h: seq<int>, a: nat, b: nat)
    requires |h| == L_SUBFRAME && a < L_SUBFRAME && b < L_SUBFRAME
    ensures PhiAt(h, a, b) == Gram(h, a, b, L_SUBFRAME)
  {
    if a >= b {
      GramIsCorrelation(h, a, b, L_SUBFRAME);
    } else {
      GramIsCorrelation(h, b, a, L_SUBFRAME);
      GramSymmetric(h, a, b, L_SUBFRAME);
    }
  }

  // ----- the filtered pulses -----

  datatype Pulse = Pulse(sign: int, at: nat)

  predicate IsPulse(p: Pulse) { (p.sign == 1 || p.sign == -1 || p.sign == 0) && p.at < L_SUBFRAME }

  function Filtered(h: seq<int>, p: Pulse, n: nat): int
    requires |h| == L_SUBFRAME && n < L_SUBFRAME
  {
    p.sign * Delayed(h, p.at, n)
  }

  // The filtered sum of four pulses; a sign of zero leaves one out.
  function Sum4(h: seq<int>, p: Pulse, q: Pulse, r: Pulse, s: Pulse, n: nat): int
    requires |h| == L_SUBFRAME && n < L_SUBFRAME
  {
    Filtered(h, p, n) + Filtered(h, q, n) + Filtered(h, r, n) + Filtered(h, s, n)
  }

  function Power(h: seq<int>, p: Pulse, q: Pulse, r: Pulse, s: Pulse, n: nat): int
    requires |h| == L_SUBFRAME && n <= L_SUBFRAME
  {
    if n == 0 then 0 else Power(h, p, q, r, s, n - 1) + Sum4(h, p, q, r, s, n - 1) * Sum4(h, p, q, r, s, n - 1)
  }

  // The signed product sum of two pulses before n.
  function Cross(h: seq<int>, p: Pulse, q: Pulse, n: nat): int
    requires |h| == L_SUBFRAME && n <= L_SUBFRAME
  {
    (p.sign * q.sign) * Gram(h, p.at, q.at, n)
  }

  lemma CrossStep(h: seq<int>, p: Pulse, q: Pulse, n: nat)
    requires |h| == L_SUBFRAME && n < L_SUBFRAME
    ensures Cross(h, p, q, n + 1) == Cross(h, p, q, n) + Filtered(h, p, n) * Filtered(h, q, n)
  {
    var k, x, y, g := p.sign * q.sign, Delayed(h, p.at, n), Delayed(h, q.at, n), Gram(h, p.at, q.at, n);
    assert k * (g + x * y) == k * g + k * (x * y);
    assert k * (x * y) == (p.sign * x) * (q.sign * y);
  }

  lemma SquareOfFour(x: int, y: int, z: int, w: int)
    ensures (x + y + z + w) * (x + y + z + w)
         == x * x + y * y + z * z + w * w + 2 * (x * y + x * z + x * w + y * z + y * w + z * w)
  {
    assert (x + y + z + w) * (x + y + z + w) == x * (x + y + z + w) + y * (x + y + z + w) + z * (x + y + z + w) + w * (x + y + z + w);
    assert x * (x + y + z + w) == x * x + x * y + x * z + x * w;
    assert y * (x + y + z + w) == x * y + y * y + y * z + y * w;
    assert z * (x + y + z + w) == x * z + y * z + z * z + z * w;
    assert w * (x + y + z + w) == x * w + y * w + z * w + w * w;
  }

  // Squares and doubled products of the four.
  function Form(h: seq<int>, p: Pulse, q: Pulse, r: Pulse, s: Pulse, n: nat): int
    requires |h| == L_SUBFRAME && n <= L_SUBFRAME
  {
    Cross(h, p, p, n) + Cross(h, q, q, n) + Cross(h, r, r, n) + Cross(h, s, s, n)
    + 2 * (Cross(h, p, q, n) + Cross(h, p, r, n) + Cross(h, p, s, n) + Cross(h, q, r, n) + Cross(h, q, s, n) + Cross(h, r, s, n))
  }

  lemma FormStep(h: seq<int>, p: Pulse, q: Pulse, r: Pulse, s: Pulse, n: nat)
    requires |h| == L_SUBFRAME && n < L_SUBFRAME
    ensures Form(h, p, q, r, s, n + 1) == Form(h, p, q, r, s, n) + Sum4(h, p, q, r, s, n) * Sum4(h, p, q, r, s, n)
  {
    SquareOfFour(Filtered(h, p, n), Filtered(h, q, n), Filtered(h, r, n), Filtered(h, s, n));
    CrossStep(h, p, p, n);
    CrossStep(h, q, q, n);
    CrossStep(h, r, r, n);
    CrossStep(h, s, s, n);
    CrossStep(h, p, q, n);
    CrossStep(h, p, r, n);
    CrossStep(h, p, s, n);
    CrossStep(h, q, r, n);
    CrossStep(h, q, s, n);
    CrossStep(h, r, s, n);
  }

  /** The quadratic form of the matrix is the energy of the filtered pulses. */
  lemma {:induction false} FormIsPower(h: seq<int>, p: Pulse, q: Pulse, r: Pulse, s: Pulse, n: nat)
    requires |h| == L_SUBFRAME && n <= L_SUBFRAME
    ensures Form(h, p, q, r, s, n) == Power(h, p, q, r, s, n)
  {
    if n > 0 {
      FormIsPower(h, p, q, r, s, n - 1);
      FormStep(h, p, q, r, s, n - 1);
    }
  }

  lemma {:induction false} PowerAtLeast(h: seq<int>, p: Pulse, q: Pulse, r: Pulse, s: Pulse, n: nat, k: nat)
    requires |h| == L_SUBFRAME && k < n <= L_SUBFRAME
    ensures Power(h, p, q, r, s, n) >= Sum4(h, p, q, r, s, k) * Sum4(h, p, q, r, s, k)
  {
    Square(Sum4(h, p, q, r, s, n - 1));
    if k < n - 1 {
      PowerAtLeast(h, p, q, r, s, n - 1, k);
    } else {
      PowerNotNegative(h, p, q, r, s, n - 1);
    }
  }

  lemma {:induction false} PowerNotNegative(h: seq<int>, p: Pulse, q: Pulse, r: Pulse, s: Pulse, n: nat)
    requires |h| == L_SUBFRAME && n <= L_SUBFRAME
    ensures Power(h, p, q, r, s, n) >= 0
  {
    if n > 0 {
      PowerNotNegative(h, p, q, r, s, n - 1);
      Square(Sum4(h, p, q, r, s, n - 1));
    }
  }

  // p has a sign and comes before every other pulse that has one.
  predicate Leads(p: Pulse, q: Pulse) { q.sign == 0 || p.at < q.at }

  lemma FirstSample(h: seq<int>, p: Pulse, q: Pulse, r: Pulse, s: Pulse)
    requires |h| == L_SUBFRAME && IsPulse(p) && p.sign != 0 && Leads(p, q) && Leads(p, r) && Leads(p, s)
    ensures Sum4(h, p, q, r, s, p.at) * Sum4(h, p, q, r, s, p.at) == h[0] * h[0]
  {
    assert Filtered(h, q, p.at) == 0 && Filtered(h, r, p.at) == 0 && Filtered(h, s, p.at) == 0;
    assert Filtered(h, p, p.at) == p.sign * h[0];
    if p.sign == -1 { NegativeSquare(h[0]); }
  }

  // Some pulse with a sign comes before all the others.
  predicate HasLeader(p: Pulse, q: Pulse, r: Pulse, s: Pulse) {
    || (p.sign != 0 && Leads(p, q) && Leads(p, r) && Leads(p, s))
    || (q.sign != 0 && Leads(q, p) && Leads(q, r) && Leads(q, s))
    || (r.sign != 0 && Leads(r, p) && Leads(r, q) && Leads(r, s))
    || (s.sign != 0 && Leads(s, p) && Leads(s, q) && Leads(s, r))
  }

  /** The filtered pulses have at least the energy of the first response sample. */
  lemma LeaderPower(h: seq<int>, p: Pulse, q: Pulse, r: Pulse, s: Pulse)
    requires |h| == L_SUBFRAME && IsPulse(p) && IsPulse(q) && IsPulse(r) && IsPulse(s) && HasLeader(p, q, r, s)
    ensures Form(h, p, q, r, s, |h|) >= h[0] * h[0]
  {
    FormIsPower(h, p, q, r, s, |h|);
    if p.sign != 0 && Leads(p, q) && Leads(p, r) && Leads(p, s) {
      FirstSample(h, p, q, r, s);
      PowerAtLeast(h, p, q, r, s, |h|, p.at);
    } else if q.sign != 0 && Leads(q, p) && Leads(q, r) && Leads(q, s) {
      FirstSample(h, q, p, r, s);
      PowerAtLeast(h, p, q, r, s, |h|, q.at);
    } else if r.sign != 0 && Leads(r, p) && Leads(r, q) && Leads(r, s) {
      FirstSample(h, r, p, q, s);
      PowerAtLeast(h, p, q, r, s, |h|, r.at);
    } else {
      FirstSample(h, s, p, q, r);
      PowerAtLeast(h, p, q, r, s, |h|, s.at);
    }
  }

  // ----- what rounding takes -----

  function PulseOf(sign: seq<int>, a: nat): Pulse
    requires AreSigns(sign) && a < L_SUBFRAME
  {
    Pulse(sign[a], a)
  }

  lemma FloorTimes(x: int, p: nat)
    requires p > 0
    ensures x - p < (x / p) * p <= x
  {}

  lemma DiagonalLoss(h: seq<int>, sign: seq<int>, scaling: nat, i: nat)
    requires |h| == L_SUBFRAME && AreSigns(sign) && i < L_SUBFRAME
    ensures var p := PulseOf(sign, i);
      2 * (Entry(h, sign, scaling, i, i) * Pow2(scaling)) >= Cross(h, p, p, |h|) - 1 - 2 * Pow2(scaling)
  {
    PhiIsGram(h, i, i);
    FloorTimes(PhiAt(h, i, i) / 2, Pow2(scaling));
    assert sign[i] * sign[i] == 1;
  }

  lemma CrossLoss(h: seq<int>, sign: seq<int>, scaling: nat, i: nat, j: nat)
    requires |h| == L_SUBFRAME && AreSigns(sign) && i < L_SUBFRAME && j < L_SUBFRAME && i != j
    ensures Entry(h, sign, scaling, i, j) * Pow2(scaling)
         >= Cross(h, PulseOf(sign, i), PulseOf(sign, j), |h|) - Pow2(scaling)
  {
    PhiIsGram(h, i, j);
    var u, k := Unsigned(h, scaling, i, j), sign[i] * sign[j];
    FloorTimes(PhiAt(h, i, j), Pow2(scaling));
    assert k == 1 || k == -1;
    if k == -1 { assert (u * k) * Pow2(scaling) == -(u * Pow2(scaling)); }
  }

  // Four halved terms lose at most 4 + 8p, six others 12p, in units of 1/2p.
  lemma DiagonalLosses(h: seq<int>, sign: seq<int>, scaling: nat, a: nat, b: nat, i: nat, j: nat)
    requires |h| == L_SUBFRAME && AreSigns(sign) && a < L_SUBFRAME && b < L_SUBFRAME && i < L_SUBFRAME && j < L_SUBFRAME
    ensures 2 * (DiagonalSum(h, sign, scaling, a, b, i, j) * Pow2(scaling))
         >= DiagonalForm(h, sign, a, b, i, j) - 4 - 8 * Pow2(scaling)
  {
    DiagonalLoss(h, sign, scaling, a);
    DiagonalLoss(h, sign, scaling, b);
    DiagonalLoss(h, sign, scaling, i);
    DiagonalLoss(h, sign, scaling, j);
    Distribute4(Entry(h, sign, scaling, a, a), Entry(h, sign, scaling, b, b),
                Entry(h, sign, scaling, i, i), Entry(h, sign, scaling, j, j), Pow2(scaling));
  }

  lemma Distribute4(w: int, x: int, y: int, z: int, p: int)
    ensures (w + x + y + z) * p == w * p + x * p + y * p + z * p
  {}

  function DiagonalSum(h: seq<int>, sign: seq<int>, scaling: nat, a: nat, b: nat, i: nat, j: nat): int
    requires |h| == L_SUBFRAME && AreSigns(sign) && a < L_SUBFRAME && b < L_SUBFRAME && i < L_SUBFRAME && j < L_SUBFRAME
  {
    Entry(h, sign, scaling, a, a) + Entry(h, sign, scaling, b, b) + Entry(h, sign, scaling, i, i) + Entry(h, sign, scaling, j, j)
  }

  function DiagonalForm(h: seq<int>, sign: seq<int>, a: nat, b: nat, i: nat, j: nat): int
    requires |h| == L_SUBFRAME && AreSigns(sign) && a < L_SUBFRAME && b < L_SUBFRAME && i < L_SUBFRAME && j < L_SUBFRAME
  {
    var p, q, r, t := PulseOf(sign, a), PulseOf(sign, b), PulseOf(sign, i), PulseOf(sign, j);
    Cross(h, p, p, |h|) + Cross(h, q, q, |h|) + Cross(h, r, r, |h|) + Cross(h, t, t, |h|)
  }

  lemma TripleLoss(h: seq<int>, sign: seq<int>, scaling: nat, a: nat, b: nat, c: nat, d: nat, e: nat, f: nat)
    requires |h| == L_SUBFRAME && AreSigns(sign) && a < L_SUBFRAME && b < L_SUBFRAME && c < L_SUBFRAME && d < L_SUBFRAME
    requires e < L_SUBFRAME && f < L_SUBFRAME && a != b && c != d && e != f
    ensures (Entry(h, sign, scaling, a, b) + Entry(h, sign, scaling, c, d) + Entry(h, sign, scaling, e, f)) * Pow2(scaling)
         >= Cross(h, PulseOf(sign, a), PulseOf(sign, b), |h|) + Cross(h, PulseOf(sign, c), PulseOf(sign, d), |h|)
          + Cross(h, PulseOf(sign, e), PulseOf(sign, f), |h|) - 3 * Pow2(scaling)
  {
    CrossLoss(h, sign, scaling, a, b);
    CrossLoss(h, sign, scaling, c, d);
    CrossLoss(h, sign, scaling, e, f);
    Distribute4(Entry(h, sign, scaling, a, b), Entry(h, sign, scaling, c, d), Entry(h, sign, scaling, e, f), 0, Pow2(scaling));
  }

  // What is left of a form above 164 is positive.
  lemma LeftPositive(d: int, c1: int, c2: int, fullD: int, full1: int, full2: int, p: nat)
    requires 1 <= p <= 8 && fullD + 2 * (full1 + full2) > 164
    requires 2 * (d * p) >= fullD - 4 - 8 * p && c1 * p >= full1 - 3 * p && c2 * p >= full2 - 3 * p
    ensures d + c1 + c2 > 0
  {
    Distribute4(d, c1, c2, 0, p);
    MulCancel(0, d + c1 + c2, p);
  }

  // ----- the energies of the search -----

  // The matrix of a response whose first sample stands out from the rounding.
  predicate IsCodecMatrix(phi: seq<seq<int>>, h: seq<int>, sign: seq<int>) {
    && IsScalable(h) && AreSigns(sign) && h[0] * h[0] > 164
    && IsTable(phi) && Holds(phi, h, sign, ScalingFor(PhiAt(h, 0, 0) / 2))
  }

  lemma QuadHasLeader(sign: seq<int>, a: nat, b: nat, i: nat, j: nat)
    requires AreSigns(sign) && AllApart(a, b, i, j)
    ensures HasLeader(PulseOf(sign, a), PulseOf(sign, b), PulseOf(sign, i), PulseOf(sign, j))
  {
    assert a != b && a != i && a != j && b != i && b != j && i != j;
  }

  lemma QuadEnergyPositive(phi: seq<seq<int>>, h: seq<int>, sign: seq<int>, a: nat, b: nat, i: nat, j: nat)
    requires IsCodecMatrix(phi, h, sign) && AllApart(a, b, i, j)
    ensures QuadEnergy(phi, a, b, i, j) > 0
  {
    var scaling := ScalingFor(PhiAt(h, 0, 0) / 2);
    QuadEnergyExact(phi, h, sign, a, b, i, j);
    EntrySymmetric(h, sign, scaling, i, a);
    EntrySymmetric(h, sign, scaling, i, b);
    EntrySymmetric(h, sign, scaling, j, a);
    EntrySymmetric(h, sign, scaling, j, b);
    EntrySymmetric(h, sign, scaling, j, i);
    EntriesPositive(h, sign, a, b, i, j);
  }

  lemma EntriesPositive(h: seq<int>, sign: seq<int>, a: nat, b: nat, i: nat, j: nat)
    requires IsScalable(h) && AreSigns(sign) && h[0] * h[0] > 164 && AllApart(a, b, i, j)
    ensures var s := ScalingFor(PhiAt(h, 0, 0) / 2);
      Entry(h, sign, s, a, a) + Entry(h, sign, s, b, b) + Entry(h, sign, s, i, i) + Entry(h, sign, s, j, j)
      + Entry(h, sign, s, a, b) + Entry(h, sign, s, a, i) + Entry(h, sign, s, a, j)
      + Entry(h, sign, s, b, i) + Entry(h, sign, s, b, j) + Entry(h, sign, s, i, j) > 0
  {
    var s := ScalingFor(PhiAt(h, 0, 0) / 2);
    PhiBound(h, 0, 0);
    ScalingRule(PhiAt(h, 0, 0) / 2);
    Pow2Small();
    Pow2Mono(s, 3);
    QuadFormAbove(h, sign, a, b, i, j);
    DiagonalLosses(h, sign, s, a, b, i, j);
    TripleLoss(h, sign, s, a, b, a, i, a, j);
    TripleLoss(h, sign, s, b, i, b, j, i, j);
    LeftPositive(DiagonalSum(h, sign, s, a, b, i, j),
                 Entry(h, sign, s, a, b) + Entry(h, sign, s, a, i) + Entry(h, sign, s, a, j),
                 Entry(h, sign, s, b, i) + Entry(h, sign, s, b, j) + Entry(h, sign, s, i, j),
                 DiagonalForm(h, sign, a, b, i, j), CrossForm(h, sign, a, b, a, i, a, j), CrossForm(h, sign, b, i, b, j, i, j), Pow2(s));
  }

  function CrossForm(h: seq<int>, sign: seq<int>, a: nat, b: nat, c: nat, d: nat, e: nat, f: nat): int
    requires |h| == L_SUBFRAME && AreSigns(sign) && a < L_SUBFRAME && b < L_SUBFRAME && c < L_SUBFRAME && d < L_SUBFRAME
    requires e < L_SUBFRAME && f < L_SUBFRAME
  {
    Cross(h, PulseOf(sign, a), PulseOf(sign, b), |h|) + Cross(h, PulseOf(sign, c), PulseOf(sign, d), |h|)
    + Cross(h, PulseOf(sign, e), PulseOf(sign, f), |h|)
  }

  lemma QuadFormAbove(h: seq<int>, sign: seq<int>, a: nat, b: nat, i: nat, j: nat)
    requires |h| == L_SUBFRAME && AreSigns(sign) && h[0] * h[0] > 164 && AllApart(a, b, i, j)
    ensures a != b && a != i && a != j && b != i && b != j && i != j
    ensures DiagonalForm(h, sign, a, b, i, j) + 2 * (CrossForm(h, sign, a, b, a, i, a, j) + CrossForm(h, sign, b, i, b, j, i, j)) > 164
  {
    QuadHasLeader(sign, a, b, i, j);
    PulsesAbove(h, PulseOf(sign, a), PulseOf(sign, b), PulseOf(sign, i), PulseOf(sign, j));
  }

  lemma PulsesAbove(h: seq<int>, p: Pulse, q: Pulse, r: Pulse, s: Pulse)
    requires |h| == L_SUBFRAME && IsPulse(p) && IsPulse(q) && IsPulse(r) && IsPulse(s)
    requires h[0] * h[0] > 164 && HasLeader(p, q, r, s)
    ensures Cross(h, p, p, |h|) + Cross(h, q, q, |h|) + Cross(h, r, r, |h|) + Cross(h, s, s, |h|)
      + 2 * (Cross(h, p, q, |h|) + Cross(h, p, r, |h|) + Cross(h, p, s, |h|)
             + (Cross(h, q, r, |h|) + Cross(h, q, s, |h|) + Cross(h, r, s, |h|))) > 164
  {
    LeaderPower(h, p, q, r, s);
  }

  lemma PairEnergyExact(phi: seq<seq<int>>, h: seq<int>, sign: seq<int>, a: nat, b: nat)
    requires IsCodecMatrix(phi, h, sign) && a < L_SUBFRAME && b < L_SUBFRAME && OffTrack(a, b)
    ensures E2(phi, a, b) == phi[a][a] + phi[a][b] + phi[b][b]
  {
    FourPulsesFit(h, sign, a, b, a, b);
    E2Exact(phi, a, b, Abs(phi[a][a]), Abs(phi[a][b]), Abs(phi[b][b]));
  }

  lemma PairEnergyPositive(phi: seq<seq<int>>, h: seq<int>, sign: seq<int>, a: nat, b: nat)
    requires IsCodecMatrix(phi, h, sign) && a < L_SUBFRAME && b < L_SUBFRAME && OffTrack(a, b)
    ensures E2(phi, a, b) > 0
  {
    PairEnergyExact(phi, h, sign, a, b);
    PhiBound(h, 0, 0);
    ScalingRule(PhiAt(h, 0, 0) / 2);
    PairEntriesPositive(h, sign, ScalingFor(PhiAt(h, 0, 0) / 2), a, b);
  }

  lemma PairForm(h: seq<int>, p: Pulse, q: Pulse)
    requires |h| == L_SUBFRAME && IsPulse(p) && IsPulse(q) && h[0] * h[0] > 164 && HasLeader(p, q, Pulse(0, 0), Pulse(0, 0))
    ensures Cross(h, p, p, |h|) + Cross(h, q, q, |h|) + 2 * Cross(h, p, q, |h|) > 164
  {
    LeaderPower(h, p, q, Pulse(0, 0), Pulse(0, 0));
  }

  lemma PairHasLeader(sign: seq<int>, a: nat, b: nat)
    requires AreSigns(sign) && a < L_SUBFRAME && b < L_SUBFRAME && a != b
    ensures HasLeader(PulseOf(sign, a), PulseOf(sign, b), Pulse(0, 0), Pulse(0, 0))
  {}

  lemma PairEntriesPositive(h: seq<int>, sign: seq<int>, s: nat, a: nat, b: nat)
    requires IsResponse(h) && AreSigns(sign) && h[0] * h[0] > 164 && s <= 3 && a < L_SUBFRAME && b < L_SUBFRAME && OffTrack(a, b)
    ensures Entry(h, sign, s, a, a) + Entry(h, sign, s, a, b) + Entry(h, sign, s, b, b) > 0
  {
    var p, q := PulseOf(sign, a), PulseOf(sign, b);
    Pow2Small();
    Pow2Mono(s, 3);
    assert a != b;
    PairHasLeader(sign, a, b);
    PairForm(h, p, q);
    DiagonalLoss(h, sign, s, a);
    DiagonalLoss(h, sign, s, b);
    CrossLoss(h, sign, s, a, b);
    Distribute4(Entry(h, sign, s, a, a), Entry(h, sign, s, b, b), 0, 0, Pow2(s));
    LeftPositive(Entry(h, sign, s, a, a) + Entry(h, sign, s, b, b), Entry(h, sign, s, a, b), 0,
                 Cross(h, p, p, |h|) + Cross(h, q, q, |h|), Cross(h, p, q, |h|), 0, Pow2(s));
  }

  /** Every energy the search meets on the codec's matrix is positive. */
  lemma CodecEnergiesPositive(phi: seq<seq<int>>, h: seq<int>, sign: seq<int>)
    requires IsCodecMatrix(phi, h, sign)
    ensures Positive(phi)
  {
    forall a, b | 0 <= a < L_SUBFRAME && 0 <= b < L_SUBFRAME && OffTrack(a, b) ensures E2(phi, a, b) > 0 {
      PairEnergyPositive(phi, h, sign, a, b);
    }
    forall a, b, i, j | 0 <= a < L_SUBFRAME && 0 <= b < L_SUBFRAME && 0 <= i < L_SUBFRAME && 0 <= j < L_SUBFRAME
      && OffTrack(a, b) && OffTrack(a, i) && OffTrack(a, j) && OffTrack(b, i) && OffTrack(b, j) && OffTrack(i, j)
      ensures QuadEnergy(phi, a, b, i, j) > 0
    {
      QuadEnergyPositive(phi, h, sign, a, b, i, j);
    }
  }

  // The sign word as the source packs it: half of each sign plus one.
  function SignWord(f: Found, sign: seq<int>): int
    requires AreSigns(sign) && OnTracks(f)
  {
    (sign[f.i0] + 1) / 2 + ((sign[f.i1] + 1) / 2) * 2 + ((sign[f.i2] + 1) / 2) * 4 + ((sign[f.i3] + 1) / 2) * 8
  }

  /** What the search found, with the signs of the target, is four pulses on their tracks; coded as the
      source codes them, the decoder gets the same pulses back. */
  lemma FoundPulsesArrive(f: Found, sign: seq<int>)
    requires AreSigns(sign) && OnTracks(f)
    ensures var p := Signed(f, sign);
      && FixedCodeword.OnTracks(p) && SignWord(f, sign) == FixedCodeword.EncodedSigns(p)
      && FixedCodeword.DecodedPulses(SignWord(f, sign), FixedCodeword.EncodedPositions(p)) == p
  {
    var p := Signed(f, sign);
    assert forall k :: 0 <= k < L_SUBFRAME ==> (sign[k] + 1) / 2 == FixedCodeword.SignBit(sign[k] > 0);
    FixedCodeword.PulsesRoundTrip(p);
  }

  /** The search on the codec's matrix, with nothing assumed about the energies: true maxima, and
      pulses that the decoder recovers with their signs. */
  method SearchOnCodecMatrix(d: seq<int>, phi: seq<seq<int>>, ghost h: seq<int>, sign: seq<int>)
    returns (f: Found, positions: nat, signs: int, ghost runs: seq<PulseSearch.Run>, ghost chosen: nat)
    requires IsTarget(d) && IsCodecMatrix(phi, h, sign)
    ensures Usable(RatiosOf(d, phi)) && |runs| == 4 && forall k :: 0 <= k < 4 ==> IsKth(d, RatiosOf(d, phi), runs[k], k)
    ensures chosen < 4 && Sound(runs[chosen]) && f == FoundBy(runs[chosen]) && OnTracks(f)
    ensures forall k :: 0 <= k < 4 ==> AtLeast(runs[chosen].ratio, runs[k].ratio)
    ensures signs >= 0 && FixedCodeword.DecodedPulses(signs, positions) == Signed(f, sign)
  {
    CodecEnergiesPositive(phi, h, sign);
    f, runs, chosen := FixedCodebookSearch(d, phi);
    FoundPulsesArrive(f, sign);
    positions := FixedCodeword.EncodedPositions(Signed(f, sign));
    signs := (sign[f.i0] + 1) / 2 + ((sign[f.i1] + 1) / 2) * 2 + ((sign[f.i2] + 1) / 2) * 4 + ((sign[f.i3] + 1) / 2) * 8;
  }
}
