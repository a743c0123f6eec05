/** The matrix of impulse response correlations for the pulse search: built diagonal by diagonal
    in place, scaled, signed and mirrored. */
module Phi {
  import opened Common
  import opened FixedPoint
  import opened Autocorrelation

  const LAST := 39
  const TRACKS := 5

  // The response, with an energy that the 32 bit accumulator holds.
  predicate IsResponse(h: seq<int>) {
    IsSignal(h) && |h| == L_SUBFRAME && Energy(h, L_SUBFRAME) <= MAXINT32
  }

  predicate IsMatrix(a: array2<int>) { a.Length0 == L_SUBFRAME && a.Length1 == L_SUBFRAME }

  // Sum of h(n-i) * h(n-j) over n from the larger index up, for any two positions.
  function PhiAt(h: seq<int>, i: nat, j: nat): int
    requires |h| == L_SUBFRAME && i < L_SUBFRAME && j < L_SUBFRAME
  {
    if i >= j then Correlation(h, i - j, L_SUBFRAME - j) else Correlation(h, j - i, L_SUBFRAME - i)
  }

  // Entry (i, j) before the signs: the main diagonal is halved, everything is shifted down.
  function Unsigned(h: seq<int>, scaling: nat, i: nat, j: nat): int
    requires |h| == L_SUBFRAME && i < L_SUBFRAME && j < L_SUBFRAME
  {
    Shr(if i == j then PhiAt(h, i, i) / 2 else PhiAt(h, i, j), scaling)
  }

  // The diagonals that are left out join two positions of one track.
  predicate OffTrack(i: int, j: int) { (i - j) % TRACKS != 0 }

  lemma PhiBound(h: seq<int>, i: nat, j: nat)
    requires IsResponse(h) && i < L_SUBFRAME && j < L_SUBFRAME
    ensures -PhiAt(h, 0, 0) <= PhiAt(h, i, j) <= PhiAt(h, 0, 0)
    ensures i == j ==> PhiAt(h, i, i) >= 0
  {
    CorrelationBound(h, if i >= j then i - j else j - i, L_SUBFRAME - if i >= j then j else i);
    EnergyGrows(h, L_SUBFRAME - i, L_SUBFRAME);
  }

  // ----- the diagonals -----

  lemma NextTerm(h: seq<int>, d: nat, t: nat)
    requires IsResponse(h) && t + d < L_SUBFRAME
    ensures Correlation(h, d, t + d + 1) == Correlation(h, d, t + d) + h[t + d] * h[t]
    ensures Is32(h[t] * h[t + d]) && Is32(Correlation(h, d, t + d + 1))
  {
    CorrelationBound(h, d, t + d + 1);
    MulBound(h[t], h[t + d], 0x8000, 0x8000);
  }

  // The main diagonal from its low end: every entry is half an energy.
  method FillMain(h: seq<int>, phi: array2<int>)
    requires IsResponse(h) && IsMatrix(phi)
    modifies phi
    ensures forall i :: 0 <= i < L_SUBFRAME ==> phi[i, i] == PhiAt(h, i, i) / 2
  {
    var acc, i := 0, 0;
    while i < L_SUBFRAME
      invariant 0 <= i <= L_SUBFRAME
      invariant acc == Correlation(h, 0, i)
      invariant forall k :: L_SUBFRAME - i <= k < L_SUBFRAME ==> phi[k, k] == PhiAt(h, k, k) / 2
    {
      NextTerm(h, 0, i);
      Wrap32Id(h[i] * h[i]);
      Wrap32Id(acc + h[i] * h[i]);
      acc := Wrap32(acc + Wrap32(h[i] * h[i]));
      phi[LAST - i, LAST - i] := acc / 2;
      i := i + 1;
    }
  }

  // The diagonal through (39, first), from its low end.
  method FillDiagonal(first: nat, h: seq<int>, phi: array2<int>, scaling: nat)
    requires IsResponse(h) && IsMatrix(phi) && first < LAST
    modifies phi
    ensures forall i, j :: 0 <= j < i < L_SUBFRAME && i - j == LAST - first ==> phi[i, j] == Unsigned(h, scaling, i, j)
    ensures forall i, j :: 0 <= i < L_SUBFRAME && 0 <= j < L_SUBFRAME && i - j != LAST - first ==> phi[i, j] == old(phi[i, j])
  {
    var d := LAST - first;
    var acc, t := 0, 0;
    while t <= first
      invariant 0 <= t <= first + 1
      invariant acc == Correlation(h, d, t + d)
      invariant forall i, j :: 0 <= j < i < L_SUBFRAME && i - j == d && i > LAST - t ==> phi[i, j] == Unsigned(h, scaling, i, j)
      invariant forall i, j :: 0 <= i < L_SUBFRAME && 0 <= j < L_SUBFRAME && i - j != d ==> phi[i, j] == old(phi[i, j])
    {
      NextTerm(h, d, t);
      Wrap32Id(h[t] * h[t + d]);
      Wrap32Id(acc + h[t] * h[t + d]);
      acc := Wrap32(acc + Wrap32(h[t] * h[t + d]));
      if scaling == 0 {
        phi[LAST - t, first - t] := acc;
        assert Pow2(0) == 1;
      } else {
        phi[LAST - t, first - t] := Shr(acc, scaling);
      }
      t := t + 1;
    }
  }

  // The diagonals done before step (i, j) of the two loops.
  predicate Done(d: int, i: int, j: int) {
    OffTrack(d, 0) && 0 < d <= LAST && ((LAST - d) / TRACKS < i || ((LAST - d) / TRACKS == i && (LAST - d) % TRACKS < j))
  }

  predicate FilledBefore(h: seq<int>, phi: array2<int>, scaling: nat, i: int, j: int)
    requires IsMatrix(phi) && |h| == L_SUBFRAME
    reads phi
  {
    forall a, b :: 0 <= b < a < L_SUBFRAME && Done(a - b, i, j) ==> phi[a, b] == Unsigned(h, scaling, a, b)
  }

  lemma DoneNext(d: int, i: int, j: int)
    requires 0 <= i < 8 && 0 <= j < 4
    ensures Done(d, i, j + 1) <==> Done(d, i, j) || d == LAST - (5 * i + j)
  {}

  lemma DoneRow(d: int, i: int)
    ensures Done(d, i, 4) <==> Done(d, i + 1, 0)
    ensures Done(d, 8, 0) <==> OffTrack(d, 0) && 0 < d <= LAST
    ensures !Done(d, 0, 0)
  {}

  method FillOthers(h: seq<int>, phi: array2<int>, scaling: nat)
    requires IsResponse(h) && IsMatrix(phi)
    modifies phi
    ensures forall a, b :: 0 <= b < a < L_SUBFRAME && OffTrack(a, b) ==> phi[a, b] == Unsigned(h, scaling, a, b)
    ensures forall a :: 0 <= a < L_SUBFRAME ==> phi[a, a] == old(phi[a, a])
  {
    var i := 0;
    while i < 8
      invariant 0 <= i <= 8
      invariant FilledBefore(h, phi, scaling, i, 0)
      invariant forall a :: 0 <= a < L_SUBFRAME ==> phi[a, a] == old(phi[a, a])
    {
      FillRow(h, phi, scaling, i);
      i := i + 1;
    }
    forall a, b | 0 <= b < a < L_SUBFRAME && OffTrack(a, b) ensures phi[a, b] == Unsigned(h, scaling, a, b) {
      DoneRow(a - b, 8);
    }
  }

  method FillRow(h: seq<int>, phi: array2<int>, scaling: nat, i: nat)
    requires IsResponse(h) && IsMatrix(phi) && i < 8 && FilledBefore(h, phi, scaling, i, 0)
    modifies phi
    ensures FilledBefore(h, phi, scaling, i + 1, 0)
    ensures forall a :: 0 <= a < L_SUBFRAME ==> phi[a, a] == old(phi[a, a])
  {
    var j := 0;
    while j < 4
      invariant 0 <= j <= 4
      invariant FilledBefore(h, phi, scaling, i, j)
      invariant forall a :: 0 <= a < L_SUBFRAME ==> phi[a, a] == old(phi[a, a])
    {
      FillDiagonal(5 * i + j, h, phi, scaling);
      forall a, b | 0 <= b < a < L_SUBFRAME && Done(a - b, i, j + 1) ensures phi[a, b] == Unsigned(h, scaling, a, b) {
        DoneNext(a - b, i, j);
      }
      j := j + 1;
    }
    forall a, b | 0 <= b < a < L_SUBFRAME && Done(a - b, i + 1, 0) ensures phi[a, b] == Unsigned(h, scaling, a, b) {
      DoneRow(a - b, i);
    }
  }

  // ----- scaling -----

  // The leading-zero rule, as far as its own input fits 31 bits.
  function ScalingFor(top: int): nat
    requires top <= 0x3e666666
  {
    if top > 0x6666666 && LeadingZeros(2 * top + 0x3333333) < 3 then 3 - LeadingZeros(2 * top + 0x3333333) else 0
  }

  lemma Pow2Small()
    ensures Pow2(0) == 1 && Pow2(1) == 2 && Pow2(2) == 4 && Pow2(3) == 8
  {
    Pow2Table();
  }

  /** When the rule scales at all it scales by one to three bits, and the scaled top, doubled, stays
      below 2^28 by the margin the rule adds. */
  lemma ScalingRule(top: int)
    requires 0 <= top <= 0x3e666666
    ensures ScalingFor(top) <= 3 && (top > 0x6666666 <==> ScalingFor(top) >= 1)
    ensures 2 * top < 0x10000000 * Pow2(ScalingFor(top)) - 0x3333333
  {
    Pow2Small();
    if top > 0x6666666 {
      var y := 2 * top + 0x3333333;
      LeadingZerosNormalises(y);
      var z := LeadingZeros(y);
      MulCancel(Pow2(z), 8, y);
      if z >= 3 { Pow2Mono(3, z); }
    }
  }

  /** The normaliser's own input leaves 31 bits exactly above 0x3e666666. */
  lemma NormaliserInputIff(top: int)
    requires 0 <= top <= 0x3fffffff
    ensures 2 * top + 0x3333333 <= MAXINT32 <==> top <= 0x3e666666
  {}

  method ScaleMain(phi: array2<int>) returns (scaling: nat)
    requires IsMatrix(phi) && 0 <= phi[0, 0] <= 0x3e666666
    modifies phi
    ensures scaling == ScalingFor(old(phi[0, 0]))
    ensures forall i :: 0 <= i < L_SUBFRAME ==> phi[i, i] == Shr(old(phi[i, i]), scaling)
  {
    scaling := 0;
    ScalingRule(phi[0, 0]);
    if phi[0, 0] > 0x6666666 {
      var zeros := CountLeadingZeros(2 * phi[0, 0] + 0x3333333);
      scaling := 3 - zeros;
      var i := 0;
      while i < L_SUBFRAME
        invariant 0 <= i <= L_SUBFRAME
        invariant forall k :: 0 <= k < i ==> phi[k, k] == Shr(old(phi[k, k]), scaling)
        invariant forall k :: i <= k < L_SUBFRAME ==> phi[k, k] == old(phi[k, k])
      {
        phi[i, i] := Shr(phi[i, i], scaling);
        i := i + 1;
      }
    } else {
      Pow2Small();
    }
  }

  // ----- signs and mirror -----

  function SignOf(x: int): int { if x >= 0 then 1 else -1 }

  // Absolute values, the signs kept apart.
  method SplitSigns(correlation: array<int>, sign: array<int>)
    requires correlation.Length == sign.Length == L_SUBFRAME && correlation != sign
    modifies correlation, sign
    ensures forall i :: 0 <= i < L_SUBFRAME ==> sign[i] == SignOf(old(correlation[i])) && correlation[i] == Abs(old(correlation[i]))
  {
    var i := 0;
    while i < L_SUBFRAME
      invariant 0 <= i <= L_SUBFRAME
      invariant forall k :: 0 <= k < i ==> sign[k] == SignOf(old(correlation[k])) && correlation[k] == Abs(old(correlation[k]))
      invariant forall k :: i <= k < L_SUBFRAME ==> correlation[k] == old(correlation[k])
    {
      if correlation[i] >= 0 {
        sign[i] := 1;
      } else {
        sign[i] := -1;
        correlation[i] := -correlation[i];
      }
      i := i + 1;
    }
  }

  predicate AreSigns(sign: seq<int>) {
    |sign| == L_SUBFRAME && forall i :: 0 <= i < L_SUBFRAME ==> sign[i] == 1 || sign[i] == -1
  }

  method ApplySigns(phi: array2<int>, sign: seq<int>)
    requires IsMatrix(phi) && AreSigns(sign)
    modifies phi
    ensures forall a, b :: 0 <= b <= a < L_SUBFRAME ==> phi[a, b] == old(phi[a, b]) * (sign[a] * sign[b])
  {
    var i := 0;
    while i < L_SUBFRAME
      invariant 0 <= i <= L_SUBFRAME
      invariant forall a, b :: 0 <= b <= a < i ==> phi[a, b] == old(phi[a, b]) * (sign[a] * sign[b])
      invariant forall a, b :: 0 <= b <= a < L_SUBFRAME && i <= a ==> phi[a, b] == old(phi[a, b])
    {
      ApplyRow(phi, sign, i);
      i := i + 1;
    }
  }

  method ApplyRow(phi: array2<int>, sign: seq<int>, i: nat)
    requires IsMatrix(phi) && AreSigns(sign) && i < L_SUBFRAME
    modifies phi
    ensures forall b :: 0 <= b <= i ==> phi[i, b] == old(phi[i, b]) * (sign[i] * sign[b])
    ensures forall a, b :: 0 <= a < L_SUBFRAME && 0 <= b < L_SUBFRAME && a != i ==> phi[a, b] == old(phi[a, b])
  {
    var j := 0;
    while j <= i
      invariant 0 <= j <= i + 1
      invariant forall b :: 0 <= b < j ==> phi[i, b] == old(phi[i, b]) * (sign[i] * sign[b])
      invariant forall b :: j <= b <= i ==> phi[i, b] == old(phi[i, b])
      invariant forall a, b :: 0 <= a < L_SUBFRAME && 0 <= b < L_SUBFRAME && a != i ==> phi[a, b] == old(phi[a, b])
    {
      var s := if sign[i] > 0 then sign[j] else -sign[j];
      assert s == sign[i] * sign[j];
      phi[i, j] := phi[i, j] * s;
      j := j + 1;
    }
  }

  // One diagonal copied above the main one.
  method MirrorDiagonal(phi: array2<int>, start: nat)
    requires IsMatrix(phi) && start < LAST
    modifies phi
    ensures forall a, b :: 0 <= b < a < L_SUBFRAME && a - b == LAST - start ==> phi[b, a] == phi[a, b]
    ensures forall a, b :: 0 <= a < L_SUBFRAME && 0 <= b < L_SUBFRAME && b - a != LAST - start ==> phi[a, b] == old(phi[a, b])
  {
    var k := 0;
    while k <= start
      invariant 0 <= k <= start + 1
      invariant forall a, b :: 0 <= b < a < L_SUBFRAME && a - b == LAST - start && a > LAST - k ==> phi[b, a] == phi[a, b]
      invariant forall a, b :: 0 <= a < L_SUBFRAME && 0 <= b < L_SUBFRAME && b - a != LAST - start ==> phi[a, b] == old(phi[a, b])
    {
      phi[start - k, LAST - k] := phi[LAST - k, start - k];
      k := k + 1;
    }
  }

  predicate MirroredBefore(phi: array2<int>, i: int, j: int)
    requires IsMatrix(phi)
    reads phi
  {
    forall a, b :: 0 <= b < a < L_SUBFRAME && Done(a - b, i, j) ==> phi[b, a] == phi[a, b]
  }

  method Mirror(phi: array2<int>)
    requires IsMatrix(phi)
    modifies phi
    ensures forall a, b :: 0 <= b < a < L_SUBFRAME && OffTrack(a, b) ==> phi[b, a] == phi[a, b]
    ensures forall a, b :: 0 <= b <= a < L_SUBFRAME ==> phi[a, b] == old(phi[a, b])
  {
    var i := 0;
    while i < 8
      invariant 0 <= i <= 8
      invariant MirroredBefore(phi, i, 0)
      invariant forall a, b :: 0 <= b <= a < L_SUBFRAME ==> phi[a, b] == old(phi[a, b])
    {
      MirrorRow(phi, i);
      i := i + 1;
    }
    forall a, b | 0 <= b < a < L_SUBFRAME && OffTrack(a, b) ensures phi[b, a] == phi[a, b] {
      DoneRow(a - b, 8);
    }
  }

  method MirrorRow(phi: array2<int>, i: nat)
    requires IsMatrix(phi) && i < 8 && MirroredBefore(phi, i, 0)
    modifies phi
    ensures MirroredBefore(phi, i + 1, 0)
    ensures forall a, b :: 0 <= b <= a < L_SUBFRAME ==> phi[a, b] == old(phi[a, b])
  {
    var j := 0;
    while j < 4
      invariant 0 <= j <= 4
      invariant MirroredBefore(phi, i, j)
      invariant forall a, b :: 0 <= b <= a < L_SUBFRAME ==> phi[a, b] == old(phi[a, b])
    {
      MirrorDiagonal(phi, 5 * i + j);
      forall a, b | 0 <= b < a < L_SUBFRAME && Done(a - b, i, j + 1) ensures phi[b, a] == phi[a, b] {
        DoneNext(a - b, i, j);
      }
      j := j + 1;
    }
    forall a, b | 0 <= b < a < L_SUBFRAME && Done(a - b, i + 1, 0) ensures phi[b, a] == phi[a, b] {
      DoneRow(a - b, i);
    }
  }

  // ----- the whole matrix -----

  // What the search reads: the main diagonal, and any two positions on different tracks.
  function Entry(h: seq<int>, sign: seq<int>, scaling: nat, i: nat, j: nat): int
    requires |h| == L_SUBFRAME && AreSigns(sign) && i < L_SUBFRAME && j < L_SUBFRAME
  {
    Unsigned(h, scaling, i, j) * (sign[i] * sign[j])
  }

  // A response whose correlations and scaling rule stay inside 32 bits.
  predicate IsScalable(h: seq<int>) { IsResponse(h) && PhiAt(h, 0, 0) / 2 <= 0x3e666666 }

  // Every entry on the main diagonal or between two tracks is the correlation of its positions -
  // halved on the diagonal, scaled, with the sign of the product of the two target signs - on both sides.
  ghost predicate IsBuilt(h: seq<int>, sign: seq<int>, scaling: nat, phi: array2<int>)
    requires |h| == L_SUBFRAME && AreSigns(sign) && IsMatrix(phi)
    reads phi
  {
    forall i, j :: 0 <= i < L_SUBFRAME && 0 <= j < L_SUBFRAME && (i == j || OffTrack(i, j)) ==> phi[i, j] == Entry(h, sign, scaling, i, j)
  }

  // Whether no sum of the matrix leaves 32 bits: the whole energy decides.
  method EnergyFits(h: seq<int>) returns (fits: bool)
    requires IsSignal(h) && |h| == L_SUBFRAME
    ensures fits <==> IsScalable(h)
  {
    var energy, i := 0, 0;
    while i < L_SUBFRAME
      invariant 0 <= i <= L_SUBFRAME && energy == Energy(h, i)
    {
      energy := energy + h[i] * h[i];
      i := i + 1;
    }
    EnergyGrows(h, 0, L_SUBFRAME);
    fits := energy / 2 <= 0x3e666666;
  }

  /** Unless a signed sum of 32 bits overflows, which C leaves open, which happens if and only if half the
      energy of the response exceeds 0x3e666666, and which ends the method here: whatever the matrix
      held before, nothing the search reads is left over, and the target is split into magnitudes
      and signs. */
  method ComputeImpulseResponseCorrelationMatrix(h: seq<int>, correlation: array<int>, sign: array<int>, phi: array2<int>)
    returns (fits: bool, scaling: nat)
    requires IsSignal(h) && |h| == L_SUBFRAME && IsMatrix(phi)
    requires correlation.Length == sign.Length == L_SUBFRAME && correlation != sign
    modifies correlation, sign, phi
    ensures fits <==> IsScalable(h)
    ensures fits ==> scaling <= 3 && scaling == ScalingFor(PhiAt(h, 0, 0) / 2)
    ensures fits ==> AreSigns(sign[..]) && IsBuilt(h, sign[..], scaling, phi)
    ensures fits ==> forall i :: 0 <= i < L_SUBFRAME ==> sign[i] == SignOf(old(correlation[i])) && correlation[i] == Abs(old(correlation[i]))
  {
    fits := EnergyFits(h);
    if !fits { return false, 0; }
    scaling := BuildMatrix(h, correlation, sign, phi);
  }

  method BuildMatrix(h: seq<int>, correlation: array<int>, sign: array<int>, phi: array2<int>) returns (scaling: nat)
    requires IsScalable(h) && IsMatrix(phi)
    requires correlation.Length == sign.Length == L_SUBFRAME && correlation != sign
    modifies correlation, sign, phi
    ensures scaling <= 3 && scaling == ScalingFor(PhiAt(h, 0, 0) / 2)
    ensures AreSigns(sign[..]) && IsBuilt(h, sign[..], scaling, phi)
    ensures forall i :: 0 <= i < L_SUBFRAME ==> sign[i] == SignOf(old(correlation[i])) && correlation[i] == Abs(old(correlation[i]))
  {
    PhiBound(h, 0, 0);
    FillMain(h, phi);
    scaling := ScaleMain(phi);
    ScalingRule(PhiAt(h, 0, 0) / 2);
    FillOthers(h, phi, scaling);
    SplitSigns(correlation, sign);
    ApplySigns(phi, sign[..]);
    Mirror(phi);
    forall i, j | 0 <= i < L_SUBFRAME && 0 <= j < L_SUBFRAME && (i == j || OffTrack(i, j))
      ensures phi[i, j] == Entry(h, sign[..], scaling, i, j)
    {
      EntrySymmetric(h, sign[..], scaling, i, j);
    }
  }

  lemma EntrySymmetric(h: seq<int>, sign: seq<int>, scaling: nat, i: nat, j: nat)
    requires |h| == L_SUBFRAME && AreSigns(sign) && i < L_SUBFRAME && j < L_SUBFRAME
    ensures Entry(h, sign, scaling, i, j) == Entry(h, sign, scaling, j, i)
    ensures OffTrack(i, j) <==> OffTrack(j, i)
  {
    assert sign[i] * sign[j] == sign[j] * sign[i];
  }

  // ----- energy of four pulses -----

  lemma EntryBound(h: seq<int>, sign: seq<int>, scaling: nat, i: nat, j: nat)
    requires IsResponse(h) && AreSigns(sign) && i < L_SUBFRAME && j < L_SUBFRAME
    ensures Abs(Entry(h, sign, scaling, i, j)) * Pow2(scaling) <= (if i == j then PhiAt(h, 0, 0) / 2 else PhiAt(h, 0, 0)) + Pow2(scaling)
    ensures i == j ==> Entry(h, sign, scaling, i, j) >= 0
  {
    PhiBound(h, i, j);
    var x := if i == j then PhiAt(h, i, i) / 2 else PhiAt(h, i, j);
    var bound := if i == j then PhiAt(h, 0, 0) / 2 else PhiAt(h, 0, 0);
    FloorBound(x, bound, Pow2(scaling));
    var u := Unsigned(h, scaling, i, j);
    assert sign[i] * sign[j] == 1 || sign[i] * sign[j] == -1;
    assert Abs(Entry(h, sign, scaling, i, j)) == Abs(u);
    if i == j { assert sign[i] * sign[j] == 1; }
  }

  lemma FloorBound(x: int, bound: int, p: nat)
    requires p >= 1 && -bound <= x <= bound
    ensures Abs(x / p) * p <= bound + p
    ensures x >= 0 ==> x / p >= 0
  {
    var q := x / p;
    assert q * p <= x < q * p + p;
    assert (-q) * p == -(q * p);
  }

  // Four terms bounded by half of s and six bounded by s, in units of 1/p.
  lemma TenTermsFit(e: seq<int>, s: int, p: nat)
    requires |e| == 10 && 1 <= p <= 8 && 0 <= s < 0x10000000 * p - 0x3333332
    requires forall k :: 0 <= k < 10 ==> e[k] * p <= (if k < 4 then s / 2 else s) + p
    ensures e[0] + e[1] + e[2] + e[3] + e[4] + e[5] + e[6] + e[7] + e[8] + e[9] <= MAXINT32
  {
    var total := e[0] + e[1] + e[2] + e[3] + e[4] + e[5] + e[6] + e[7] + e[8] + e[9];
    assert total * p == e[0] * p + e[1] * p + e[2] * p + e[3] * p + e[4] * p + e[5] * p + e[6] * p + e[7] * p + e[8] * p + e[9] * p;
    assert total * p <= 8 * s + 10 * p;
    assert total * p < 0x80000000 * p;
    MulCancel(total, 0x80000000, p);
  }

  // The magnitudes of all the terms of eq. 55 for four positions.
  function Terms(h: seq<int>, sign: seq<int>, scaling: nat, a: nat, b: nat, c: nat, d: nat): (e: seq<int>)
    requires |h| == L_SUBFRAME && AreSigns(sign) && a < L_SUBFRAME && b < L_SUBFRAME && c < L_SUBFRAME && d < L_SUBFRAME
    ensures |e| == 10
  {
    [Abs(Entry(h, sign, scaling, a, a)), Abs(Entry(h, sign, scaling, b, b)),
     Abs(Entry(h, sign, scaling, c, c)), Abs(Entry(h, sign, scaling, d, d)),
     Abs(Entry(h, sign, scaling, a, b)), Abs(Entry(h, sign, scaling, a, c)), Abs(Entry(h, sign, scaling, a, d)),
     Abs(Entry(h, sign, scaling, b, c)), Abs(Entry(h, sign, scaling, b, d)), Abs(Entry(h, sign, scaling, c, d))]
  }

  /** For any four positions and the scaling the rule picks, the magnitudes of all ten terms
      add up to less than 2^31: the energy and each of its partial sums, in any order, fit. */
  lemma FourPulsesFit(h: seq<int>, sign: seq<int>, a: nat, b: nat, c: nat, d: nat)
    requires IsScalable(h) && AreSigns(sign)
    requires a < L_SUBFRAME && b < L_SUBFRAME && c < L_SUBFRAME && d < L_SUBFRAME
    ensures var e := Terms(h, sign, ScalingFor(PhiAt(h, 0, 0) / 2), a, b, c, d);
      e[0] + e[1] + e[2] + e[3] + e[4] + e[5] + e[6] + e[7] + e[8] + e[9] <= MAXINT32
  {
    var s := PhiAt(h, 0, 0);
    var scaling := ScalingFor(s / 2);
    PhiBound(h, 0, 0);
    ScalingRule(s / 2);
    Pow2Small();
    Pow2Mono(scaling, 3);
    var e := Terms(h, sign, scaling, a, b, c, d);
    var at := [(a, a), (b, b), (c, c), (d, d), (a, b), (a, c), (a, d), (b, c), (b, d), (c, d)];
    forall k | 0 <= k < 10 ensures e[k] * Pow2(scaling) <= (if k < 4 then s / 2 else s) + Pow2(scaling) {
      EntryBound(h, sign, scaling, at[k].0, at[k].1);
    }
    TenTermsFit(e, s, Pow2(scaling));
  }
}
