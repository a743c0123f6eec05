/** The fractional-delay interpolator that builds the adaptive codebook vector in place, in the
    buffer it reads the past from. */
module AdaptiveCodebook {
  import opened Common
  import opened FixedPoint
  import opened PitchDelay

  const L_PAST_EXCITATION := 154
  const TAPS := 10
  const FILTER := 31

  // How the source turns a fraction of -1, 0 or 1 into a phase of 0, 1 or 2.
  function Phase(d: Delay): nat
    requires -1 <= d.third <= 1
  {
    if d.third == 1 then 2 else -d.third
  }

  // The first `taps` pairs of products around position `at`, with filter b.
  function TapSum(b: seq<int>, e: seq<int>, at: nat, phase: nat, taps: nat): int
    requires |b| == FILTER && taps <= TAPS && phase <= 2 && taps <= at + 1 && at + taps < |e|
  {
    if taps == 0 then 0
    else
      var i := taps - 1;
      TapSum(b, e, at, phase, i) + e[at - i] * b[phase + 3 * i] + e[at + 1 + i] * b[3 - phase + 3 * i]
  }

  function Interpolated(b: seq<int>, e: seq<int>, at: nat, phase: nat): int
    requires |b| == FILTER && phase <= 2 && TAPS <= at + 1 && at + TAPS < |e|
  {
    Saturate(Pshr(TapSum(b, e, at, phase, TAPS), 15), MAXINT16)
  }

  /** The definition: the past, and then sample after sample from what is already there. */
  function Extended(b: seq<int>, past: seq<int>, back: nat, phase: nat, n: nat): (e: seq<int>)
    requires |b| == FILTER && |past| == L_PAST_EXCITATION && 19 <= back <= 144 && phase <= 2
    ensures |e| == L_PAST_EXCITATION + n
  {
    if n == 0 then past
    else
      var e := Extended(b, past, back, phase, n - 1);
      e + [Interpolated(b, e, L_PAST_EXCITATION + n - 1 - back, phase)]
  }

  // ----- the accumulator -----

  function TapWeights(b: seq<int>, phase: nat, taps: nat): nat
    requires |b| == FILTER && taps <= TAPS && phase <= 2
  {
    if taps == 0 then 0
    else
      var i := taps - 1;
      TapWeights(b, phase, i) + Abs(b[phase + 3 * i]) + Abs(b[3 - phase + 3 * i])
  }

  // In every phase the weights add up to less than two, with room for the rounding.
  predicate IsFilter(b: seq<int>) {
    |b| == FILTER && forall phase: nat :: phase <= 2 ==> TapWeights(b, phase, TAPS) <= 0xfffe
  }

  lemma {:induction false} TapSumBound(b: seq<int>, e: seq<int>, at: nat, phase: nat, taps: nat)
    requires |b| == FILTER && taps <= TAPS && phase <= 2 && taps <= at + 1 && at + taps < |e| && Words(e)
    ensures TapSum(b, e, at, phase, taps) <= 0x8000 * TapWeights(b, phase, taps)
    ensures -TapSum(b, e, at, phase, taps) <= 0x8000 * TapWeights(b, phase, taps)
  {
    if taps > 0 {
      var i := taps - 1;
      TapSumBound(b, e, at, phase, i);
      Product16(e[at - i], b[phase + 3 * i]);
      Product16(e[at + 1 + i], b[3 - phase + 3 * i]);
    }
  }

  lemma {:induction false} WeightsGrow(b: seq<int>, phase: nat, taps: nat)
    requires |b| == FILTER && taps <= TAPS && phase <= 2
    ensures TapWeights(b, phase, taps) <= TapWeights(b, phase, TAPS)
    decreases TAPS - taps
  {
    if taps < TAPS { WeightsGrow(b, phase, taps + 1); }
  }

  /** For words of 16 bits no partial sum of the accumulator leaves 32 bits, and neither does the
      final sum with the rounding added. */
  lemma AccumulatorFits(b: seq<int>, e: seq<int>, at: nat, phase: nat, taps: nat)
    requires IsFilter(b) && taps <= TAPS && phase <= 2 && taps <= at + 1 && at + taps < |e| && Words(e)
    ensures Is32(TapSum(b, e, at, phase, taps)) && Is32(TapSum(b, e, at, phase, taps) + 0x4000)
  {
    TapSumBound(b, e, at, phase, taps);
    WeightsGrow(b, phase, taps);
  }

  lemma TwoAdds(s: int, x: int, y: int)
    requires Is32(s + x + y)
    ensures Wrap32(Wrap32(s + x) + y) == s + x + y
  {
    Wrap32Add(s + x, y);
    Wrap32Id(s + x + y);
  }

  // ----- in place -----

  lemma SampleIsWord(x: int)
    ensures Is16(Saturate(x, MAXINT16))
  {}

  // Only the samples before `to` are read.
  lemma {:induction false} TapSumPrefix(b: seq<int>, e: seq<int>, to: nat, at: nat, phase: nat, taps: nat)
    requires |b| == FILTER && taps <= TAPS && phase <= 2 && taps <= at + 1 && at + taps < to <= |e|
    ensures TapSum(b, e, at, phase, taps) == TapSum(b, e[..to], at, phase, taps)
  {
    if taps > 0 { TapSumPrefix(b, e, to, at, phase, taps - 1); }
  }

  // Both sides call the delay and phase of a fraction the same, and they are in reach.
  predicate InReach(d: Delay) { -1 <= d.third <= 1 && 19 <= StepBack(d) <= 144 }

  // The buffer holds the vector's first n samples.
  ghost predicate Holds(b: seq<int>, e: array<int>, past: seq<int>, back: nat, phase: nat, n: nat)
    requires |b| == FILTER && |past| == L_PAST_EXCITATION && 19 <= back <= 144 && phase <= 2
    reads e
  {
    e.Length == L_PAST_EXCITATION + L_SUBFRAME && n <= L_SUBFRAME && Words(e[..])
    && e[..L_PAST_EXCITATION + n] == Extended(b, past, back, phase, n)
  }

  // Storing the saturated accumulator makes it one sample more.
  method Store(b: seq<int>, e: array<int>, ghost past: seq<int>, ghost back: nat, ghost phase: nat, n: nat, acc: int)
    requires IsFilter(b) && |past| == L_PAST_EXCITATION && 19 <= back <= 144 && phase <= 2 && n < L_SUBFRAME
    requires Holds(b, e, past, back, phase, n) && acc == TapSum(b, e[..], L_PAST_EXCITATION + n - back, phase, TAPS)
    modifies e
    ensures Holds(b, e, past, back, phase, n + 1)
  {
    ghost var to := L_PAST_EXCITATION + n;
    TapSumPrefix(b, e[..], to, to - back, phase, TAPS);
    SampleIsWord(Pshr(acc, 15));
    ghost var before := e[..to];
    e[L_PAST_EXCITATION + n] := Saturate(Pshr(acc, 15), MAXINT16);
    assert e[..to + 1] == before + [e[to]];
  }

  /** Encoder side.  The fraction is negated first, and a negative result moves the delay by one; the
      loop indexes from the start of the delayed vector, outwards in both directions.  Every sample
      reads inside the buffer and strictly before itself, so what [0, 39] held does not matter. */
  method GenerateAdaptativeCodebookVector(b: seq<int>, e: array<int>, intPitchDelay: int, fracPitchDelay: int)
    requires IsFilter(b) && e.Length == L_PAST_EXCITATION + L_SUBFRAME && Words(e[..]) && InReach(Delay(intPitchDelay, fracPitchDelay))
    modifies e
    ensures var d := Delay(intPitchDelay, fracPitchDelay);
      e[..] == Extended(b, old(e[..L_PAST_EXCITATION]), StepBack(d), Phase(d), L_SUBFRAME)
    ensures Interpolates(b, old(e[..L_PAST_EXCITATION]), e[..], Delay(intPitchDelay, fracPitchDelay))
  {
    ghost var past := e[..L_PAST_EXCITATION];
    var delay, phase := intPitchDelay, -fracPitchDelay;
    if phase < 0 {
      delay := delay + 1;
      phase := 2;
    }
    var delayed := L_PAST_EXCITATION - delay;
    var n := 0;
    while n < L_SUBFRAME
      invariant 0 <= n <= L_SUBFRAME && Holds(b, e, past, delay, phase, n)
    {
      var acc := AccumulateDelayed(b, e, delayed, n, phase);
      Store(b, e, past, delay, phase, n, acc);
      n := n + 1;
    }
    assert e[..] == e[..L_PAST_EXCITATION + n];
    ExtendedInterpolates(b, past, Delay(intPitchDelay, fracPitchDelay), L_SUBFRAME);
  }

  // The encoder's inner loop: positions counted from the delayed vector.
  method AccumulateDelayed(b: seq<int>, e: array<int>, delayed: nat, n: nat, phase: nat) returns (acc: int)
    requires IsFilter(b) && phase <= 2 && TAPS <= delayed + n + 1 && delayed + n + TAPS < e.Length && Words(e[..])
    ensures acc == TapSum(b, e[..], delayed + n, phase, TAPS)
  {
    acc := 0;
    var i, j := 0, 0;
    while i < TAPS
      invariant 0 <= i <= TAPS && j == 3 * i
      invariant acc == TapSum(b, e[..], delayed + n, phase, i)
    {
      AccumulatorFits(b, e[..], delayed + n, phase, i + 1);
      TwoAdds(acc, e[delayed + n - i] * b[phase + j], e[delayed + n + 1 + i] * b[3 - phase + j]);
      acc := Wrap32(acc + e[delayed + n - i] * b[phase + j]);
      acc := Wrap32(acc + e[delayed + n + 1 + i] * b[3 - phase + j]);
      i, j := i + 1, j + 3;
    }
  }

  /** Decoder side.  A fraction of one third moves the delay, any other is negated; the loop keeps two
      positions per sample, one read downwards and one read upwards.  The same vector. */
  method ComputeAdaptativeCodebookVector(b: seq<int>, e: array<int>, intPitchDelay: int, fracPitchDelay: int)
    requires IsFilter(b) && e.Length == L_PAST_EXCITATION + L_SUBFRAME && Words(e[..]) && InReach(Delay(intPitchDelay, fracPitchDelay))
    modifies e
    ensures var d := Delay(intPitchDelay, fracPitchDelay);
      e[..] == Extended(b, old(e[..L_PAST_EXCITATION]), StepBack(d), Phase(d), L_SUBFRAME)
    ensures Interpolates(b, old(e[..L_PAST_EXCITATION]), e[..], Delay(intPitchDelay, fracPitchDelay))
  {
    ghost var past, d := e[..L_PAST_EXCITATION], Delay(intPitchDelay, fracPitchDelay);
    var minusK, phase;
    if fracPitchDelay == 1 {
      minusK, phase := L_PAST_EXCITATION - (intPitchDelay + 1), 2;
    } else {
      minusK, phase := L_PAST_EXCITATION - intPitchDelay, -fracPitchDelay;
    }
    var n := 0;
    while n < L_SUBFRAME
      invariant 0 <= n <= L_SUBFRAME && Holds(b, e, past, StepBack(d), phase, n)
    {
      var acc := AccumulateAround(b, e, minusK + n, minusK + n + 1, phase, 3 - phase);
      Store(b, e, past, StepBack(d), phase, n, acc);
      n := n + 1;
    }
    assert e[..] == e[..L_PAST_EXCITATION + n];
    ExtendedInterpolates(b, past, Delay(intPitchDelay, fracPitchDelay), L_SUBFRAME);
  }

  // The decoder's inner loop: two positions and two filter offsets.
  method AccumulateAround(b: seq<int>, e: array<int>, nMinusK: nat, nMinusKPlusOne: nat, b301: nat, b302: nat) returns (acc: int)
    requires IsFilter(b) && b301 <= 2 && b302 == 3 - b301 && nMinusKPlusOne == nMinusK + 1
    requires TAPS <= nMinusKPlusOne && nMinusK + TAPS < e.Length && Words(e[..])
    ensures acc == TapSum(b, e[..], nMinusK, b301, TAPS)
  {
    acc := 0;
    var j := 0;
    for i := 0 to TAPS
      invariant j == 3 * i
      invariant acc == TapSum(b, e[..], nMinusK, b301, i)
    {
      AccumulatorFits(b, e[..], nMinusK, b301, i + 1);
      TwoAdds(acc, e[nMinusK - i] * b[b301 + j], e[nMinusKPlusOne + i] * b[b302 + j]);
      acc := Wrap32(acc + e[nMinusK - i] * b[b301 + j]);
      acc := Wrap32(acc + e[nMinusKPlusOne + i] * b[b302 + j]);
      j := j + 3;
    }
  }

  // ----- the vector as a recursive definition -----

  /** The past is untouched, and entry n is the filter applied to the entries before it. */
  lemma {:induction false} ExtendedAt(b: seq<int>, past: seq<int>, back: nat, phase: nat, n: nat, m: nat)
    requires |b| == FILTER && |past| == L_PAST_EXCITATION && 19 <= back <= 144 && phase <= 2 && m < n
    ensures var e := Extended(b, past, back, phase, n);
      && e[..L_PAST_EXCITATION] == past
      && e[..L_PAST_EXCITATION + m] == Extended(b, past, back, phase, m)
      && e[L_PAST_EXCITATION + m] == Interpolated(b, e, L_PAST_EXCITATION + m - back, phase)
  {
    var e, before := Extended(b, past, back, phase, n), Extended(b, past, back, phase, n - 1);
    assert e[..L_PAST_EXCITATION + n - 1] == before;
    var at := L_PAST_EXCITATION + m - back;
    if m < n - 1 {
      ExtendedAt(b, past, back, phase, n - 1, m);
      TapSumPrefix(b, e, L_PAST_EXCITATION + n - 1, at, phase, TAPS);
      assert e[..L_PAST_EXCITATION + m] == before[..L_PAST_EXCITATION + m];
      assert e[..L_PAST_EXCITATION] == before[..L_PAST_EXCITATION];
    } else {
      TapSumPrefix(b, e, L_PAST_EXCITATION + m, at, phase, TAPS);
      if m > 0 { ExtendedAt(b, past, back, phase, m, 0); }
      assert e[..L_PAST_EXCITATION] == before[..L_PAST_EXCITATION];
    }
  }

  // ----- the vector from the delay alone -----

  // How far position m is from the instant one delay before sample n, in thirds of a sample.
  function ThirdsFrom(d: Delay, n: int, m: int): int { 3 * (m - (L_PAST_EXCITATION + n)) + 3 * d.whole + d.third }

  // The weight of that distance: the filter is symmetric, and ends after ten samples.
  function WeightAt(b: seq<int>, thirds: int): int
    requires |b| == FILTER
  {
    if -30 < thirds <= 30 then b[Abs(thirds)] else 0
  }

  // All samples of e before position m with their weights for sample n.
  function WeightedSum(b: seq<int>, e: seq<int>, d: Delay, n: int, m: nat): int
    requires |b| == FILTER && m <= |e|
  {
    if m == 0 then 0 else WeightedSum(b, e, d, n, m - 1) + e[m - 1] * WeightAt(b, ThirdsFrom(d, n, m - 1))
  }

  // From position `from` on.
  function WeightedSpan(b: seq<int>, e: seq<int>, d: Delay, n: int, from: nat, m: nat): int
    requires |b| == FILTER && from <= m <= |e|
  {
    if m == from then 0 else WeightedSpan(b, e, d, n, from, m - 1) + e[m - 1] * WeightAt(b, ThirdsFrom(d, n, m - 1))
  }

  // Outside the filter's reach nothing is added.
  lemma {:induction false} NothingBelow(b: seq<int>, e: seq<int>, d: Delay, n: int, m: nat)
    requires |b| == FILTER && m <= |e| && ThirdsFrom(d, n, m) <= -27
    ensures WeightedSum(b, e, d, n, m) == 0
  {
    if m > 0 { NothingBelow(b, e, d, n, m - 1); }
  }

  lemma {:induction false} NothingAbove(b: seq<int>, e: seq<int>, d: Delay, n: int, from: nat, m: nat)
    requires |b| == FILTER && from <= m <= |e| && ThirdsFrom(d, n, from) > 30
    ensures WeightedSum(b, e, d, n, m) == WeightedSum(b, e, d, n, from)
  {
    if m > from { NothingAbove(b, e, d, n, from, m - 1); }
  }

  lemma {:induction false} SumFromSpan(b: seq<int>, e: seq<int>, d: Delay, n: int, from: nat, m: nat)
    requires |b| == FILTER && from <= m <= |e|
    ensures WeightedSum(b, e, d, n, m) == WeightedSum(b, e, d, n, from) + WeightedSpan(b, e, d, n, from, m)
  {
    if m > from { SumFromSpan(b, e, d, n, from, m - 1); }
  }

  lemma {:induction false} SpanFromBelow(b: seq<int>, e: seq<int>, d: Delay, n: int, from: nat, m: nat)
    requires |b| == FILTER && from < m <= |e|
    ensures WeightedSpan(b, e, d, n, from, m)
      == e[from] * WeightAt(b, ThirdsFrom(d, n, from)) + WeightedSpan(b, e, d, n, from + 1, m)
  {
    if m > from + 1 { SpanFromBelow(b, e, d, n, from, m - 1); }
  }

  // The pairs of the source's loop are a span that grows at both ends.
  lemma {:induction false} TapsAreSpan(b: seq<int>, e: seq<int>, d: Delay, n: int, at: nat, taps: nat)
    requires |b| == FILTER && taps <= TAPS && InReach(d) && at == L_PAST_EXCITATION + n - StepBack(d)
    requires taps <= at + 1 && at + taps < |e|
    ensures TapSum(b, e, at, Phase(d), taps) == WeightedSpan(b, e, d, n, at + 1 - taps, at + 1 + taps)
  {
    if taps > 0 {
      var i := taps - 1;
      TapsAreSpan(b, e, d, n, at, i);
      SpanFromBelow(b, e, d, n, at - i, at + 1 + taps);
      WeightsOfTap(b, d, n, at, i);
    }
  }

  // The two weights of a tap.
  lemma WeightsOfTap(b: seq<int>, d: Delay, n: int, at: int, i: nat)
    requires |b| == FILTER && i < TAPS && InReach(d) && at == L_PAST_EXCITATION + n - StepBack(d)
    ensures WeightAt(b, ThirdsFrom(d, n, at - i)) == b[Phase(d) + 3 * i]
    ensures WeightAt(b, ThirdsFrom(d, n, at + 1 + i)) == b[3 - Phase(d) + 3 * i]
  {
    assert ThirdsFrom(d, n, at - i) == -(Phase(d) + 3 * i) && ThirdsFrom(d, n, at + 1 + i) == 3 - Phase(d) + 3 * i;
  }

  lemma TapsAreSum(b: seq<int>, e: seq<int>, d: Delay, n: int, at: nat)
    requires |b| == FILTER && InReach(d) && at == L_PAST_EXCITATION + n - StepBack(d) && TAPS <= at + 1 && at + TAPS < |e|
    ensures TapSum(b, e, at, Phase(d), TAPS) == WeightedSum(b, e, d, n, |e|)
  {
    var from, to := at + 1 - TAPS, at + 1 + TAPS;
    TapsAreSpan(b, e, d, n, at, TAPS);
    NothingBelow(b, e, d, n, from);
    SumFromSpan(b, e, d, n, from, to);
    if to < |e| { NothingAbove(b, e, d, n, to, |e|); }
  }

  // The rounded and saturated sum.
  function Sample(sum: int): int { Saturate((sum + 0x4000) / 0x8000, MAXINT16) }

  // Sample m is the weighted sum of all samples before it.
  predicate SumsUp(b: seq<int>, e: seq<int>, d: Delay, m: nat)
    requires |b| == FILTER && m < |e|
  {
    e[m] == Sample(WeightedSum(b, e[..m], d, m - L_PAST_EXCITATION, m))
  }

  predicate Interpolates(b: seq<int>, past: seq<int>, e: seq<int>, d: Delay) {
    && |b| == FILTER && |past| == L_PAST_EXCITATION <= |e| && e[..L_PAST_EXCITATION] == past
    && forall m :: L_PAST_EXCITATION <= m < |e| ==> SumsUp(b, e, d, m)
  }

  /** The vector, from the delay alone: sample n is the rounded, saturated sum of all samples before it,
      each weighted by its distance in thirds from the instant one delay before n. */
  lemma ExtendedInterpolates(b: seq<int>, past: seq<int>, d: Delay, n: nat)
    requires IsFilter(b) && |past| == L_PAST_EXCITATION && Words(past) && InReach(d)
    ensures Interpolates(b, past, Extended(b, past, StepBack(d), Phase(d), n), d)
  {
    var e := Extended(b, past, StepBack(d), Phase(d), n);
    if n > 0 { ExtendedAt(b, past, StepBack(d), Phase(d), n, 0); }
    forall m | L_PAST_EXCITATION <= m < |e| ensures SumsUp(b, e, d, m) {
      SampleSumsUp(b, past, d, n, m - L_PAST_EXCITATION);
    }
  }

  lemma SampleSumsUp(b: seq<int>, past: seq<int>, d: Delay, n: nat, k: nat)
    requires IsFilter(b) && |past| == L_PAST_EXCITATION && Words(past) && InReach(d) && k < n
    ensures SumsUp(b, Extended(b, past, StepBack(d), Phase(d), n), d, L_PAST_EXCITATION + k)
  {
    ExtendedWords(b, past, StepBack(d), Phase(d), n);
    ExtendedAt(b, past, StepBack(d), Phase(d), n, k);
    FilteredIsSum(b, Extended(b, past, StepBack(d), Phase(d), n), d, L_PAST_EXCITATION + k);
  }

  // The filter at one position, by weights.
  lemma FilteredIsSum(b: seq<int>, e: seq<int>, d: Delay, m: nat)
    requires IsFilter(b) && InReach(d) && L_PAST_EXCITATION <= m < |e| && Words(e)
    ensures Interpolated(b, e, m - StepBack(d), Phase(d)) == Sample(WeightedSum(b, e[..m], d, m - L_PAST_EXCITATION, m))
  {
    var at, phase := m - StepBack(d), Phase(d);
    TapSumPrefix(b, e, m, at, phase, TAPS);
    TapsAreSum(b, e[..m], d, m - L_PAST_EXCITATION, at);
    AccumulatorFits(b, e, at, phase, TAPS);
    RoundsExactly(TapSum(b, e, at, phase, TAPS));
  }

  lemma RoundsExactly(sum: int)
    requires Is32(sum + 0x4000)
    ensures Saturate(Pshr(sum, 15), MAXINT16) == Sample(sum)
  {
    Pow2Table();
    Wrap32Id(sum + 0x4000);
  }

  lemma {:induction false} ExtendedWords(b: seq<int>, past: seq<int>, back: nat, phase: nat, n: nat)
    requires |b| == FILTER && |past| == L_PAST_EXCITATION && Words(past) && 19 <= back <= 144 && phase <= 2
    ensures Words(Extended(b, past, back, phase, n))
  {
    if n > 0 {
      ExtendedWords(b, past, back, phase, n - 1);
      var e := Extended(b, past, back, phase, n - 1);
      SampleIsWord(Pshr(TapSum(b, e, L_PAST_EXCITATION + n - 1 - back, phase, TAPS), 15));
    }
  }

  // ----- the filter of the codec -----

  // In Q15.
  function B30At(i: nat): int
    requires i < FILTER
  {
    if i == 0 then 29443 else if i == 1 then 25207 else if i == 2 then 14701 else if i == 3 then 3143 else if i == 4 then -4402 else if i == 5 then -5850
    else if i == 6 then -2783 else if i == 7 then 1211 else if i == 8 then 3130 else if i == 9 then 2259 else if i == 10 then 0 else if i == 11 then -1652
    else if i == 12 then -1666 else if i == 13 then -464 else if i == 14 then 756 else if i == 15 then 1099 else if i == 16 then 550 else if i == 17 then -245
    else if i == 18 then -634 else if i == 19 then -451 else if i == 20 then 0 else if i == 21 then 308 else if i == 22 then 296 else if i == 23 then 78
    else if i == 24 then -120 else if i == 25 then -165 else if i == 26 then -79 else if i == 27 then 34 else if i == 28 then 91 else if i == 29 then 70
    else 0
  }

  function B30(): (b: seq<int>)
    ensures |b| == FILTER
  {
    seq(FILTER, i requires 0 <= i < FILTER => B30At(i))
  }

  lemma WeightsOfPhase0()
    ensures TapWeights(B30(), 0, TAPS) == 53535
  {
    var b := B30();
    assert TapWeights(b, 0, 0) == 0;
    assert TapWeights(b, 0, 1) == 32586;
    assert TapWeights(b, 0, 2) == 38512;
    assert TapWeights(b, 0, 3) == 43554;
    assert TapWeights(b, 0, 4) == 47479;
    assert TapWeights(b, 0, 5) == 50244;
    assert TapWeights(b, 0, 6) == 51977;
    assert TapWeights(b, 0, 7) == 52919;
    assert TapWeights(b, 0, 8) == 53347;
    assert TapWeights(b, 0, 9) == 53501;
  }

  lemma WeightsOfPhase1()
    ensures TapWeights(B30(), 1, TAPS) == 59398
  {
    var b := B30();
    assert TapWeights(b, 1, 0) == 0;
    assert TapWeights(b, 1, 1) == 39908;
    assert TapWeights(b, 1, 2) == 50160;
    assert TapWeights(b, 1, 3) == 54501;
    assert TapWeights(b, 1, 4) == 56153;
    assert TapWeights(b, 1, 5) == 57373;
    assert TapWeights(b, 1, 6) == 58168;
    assert TapWeights(b, 1, 7) == 58619;
    assert TapWeights(b, 1, 8) == 58993;
    assert TapWeights(b, 1, 9) == 59237;
  }

  lemma WeightsOfPhase2()
    ensures TapWeights(B30(), 2, TAPS) == 59398
  {
    var b := B30();
    assert TapWeights(b, 2, 0) == 0;
    assert TapWeights(b, 2, 1) == 39908;
    assert TapWeights(b, 2, 2) == 50160;
    assert TapWeights(b, 2, 3) == 54501;
    assert TapWeights(b, 2, 4) == 56153;
    assert TapWeights(b, 2, 5) == 57373;
    assert TapWeights(b, 2, 6) == 58168;
    assert TapWeights(b, 2, 7) == 58619;
    assert TapWeights(b, 2, 8) == 58993;
    assert TapWeights(b, 2, 9) == 59237;
  }

  lemma WeightsOfPhase(phase: nat)
    requires phase <= 2
    ensures TapWeights(B30(), phase, TAPS) <= 0xfffe
  {
    if phase == 0 {
      WeightsOfPhase0();
    } else if phase == 1 {
      WeightsOfPhase1();
    } else {
      WeightsOfPhase2();
    }
  }

  /** The shipped filter has weights below two in every phase: 1.634 in phase 0 and 1.813 in the others. */
  lemma B30IsFilter()
    ensures IsFilter(B30())
  {
    forall phase: nat | phase <= 2 ensures TapWeights(B30(), phase, TAPS) <= 0xfffe {
      WeightsOfPhase(phase);
    }
  }
}
