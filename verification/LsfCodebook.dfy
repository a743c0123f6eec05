/** The two-stage LSF codebook with its predictors, for any tables of the right shape and
    range: what a codeword is, and why no run of frames ever overflows. */
module LsfCodebook {
  import opened FixedPoint
  import opened LsfVector
  import opened MaPrediction

  const FIRST_MIN := 679
  const FIRST_MAX := 23533
  const SECOND_MIN := -1752
  const SECOND_MAX := 2337
  // What two rearrangements can make of a sum of the two stages.
  const CODE_MIN := FIRST_MIN + SECOND_MIN - GAP1 - GAP2
  const CODE_MAX := FIRST_MAX + SECOND_MAX + GAP1 + GAP2

  // The subsets pick the rows a silence descriptor can name; `inverse` undoes the current weight.
  datatype Tables = Tables(first: seq<seq<int>>, second: seq<seq<int>>,
                           firstSubset: seq<nat>, lowSubset: seq<nat>, highSubset: seq<nat>,
                           speech: seq<Predictor>, noise: seq<Predictor>, inverse: seq<seq<int>>)

  predicate Shaped(t: Tables) {
    && |t.first| == 128 && |t.second| == 32
    && |t.firstSubset| == 32 && |t.lowSubset| == |t.highSubset| == 16
    && |t.speech| == |t.noise| == |t.inverse| == 2
    && (forall i :: 0 <= i < 128 ==> IsRow(t.first[i]))
    && (forall i :: 0 <= i < 32 ==> IsRow(t.second[i]))
    && (forall i :: 0 <= i < 32 ==> t.firstSubset[i] < 128)
    && (forall i :: 0 <= i < 16 ==> t.lowSubset[i] < 32 && t.highSubset[i] < 32)
    && (forall i :: 0 <= i < 2 ==> IsPredictor(t.speech[i]) && IsPredictor(t.noise[i]) && IsRow(t.inverse[i]))
  }

  // Four past weights and the current one: none negative, at most one together.
  predicate IsConvexColumn(w: seq<int>, current: int) {
    && |w| == MA_MAX_K
    && current >= 0 && w[0] >= 0 && w[1] >= 0 && w[2] >= 0 && w[3] >= 0
    && current + w[0] + w[1] + w[2] + w[3] <= 0x8000
  }

  predicate IsConvex(p: Predictor) {
    IsPredictor(p) && forall i :: 0 <= i < NB_LSP_COEFF ==> IsConvexColumn(p.past[i], p.current[i])
  }

  predicate Ranged(t: Tables) {
    && Shaped(t)
    && (forall i :: 0 <= i < 128 ==> Within(t.first[i], FIRST_MIN, FIRST_MAX))
    && (forall i :: 0 <= i < 32 ==> Within(t.second[i], SECOND_MIN, SECOND_MAX))
    && (forall i :: 0 <= i < 2 ==> IsConvex(t.speech[i]) && IsConvex(t.noise[i]))
  }

  // First stage plus second stage; the low half and the high half have their own second stage.
  function StageSum(first: seq<int>, low: seq<int>, high: seq<int>): (r: seq<int>)
    requires IsRow(first) && IsRow(low) && IsRow(high)
    ensures IsRow(r)
  {
    seq(NB_LSP_COEFF, i requires 0 <= i < NB_LSP_COEFF => Wrap16(first[i] + (if i < 5 then low[i] else high[i])))
  }

  function SpeechRow(t: Tables, l1: nat, l2: nat, l3: nat): (r: seq<int>)
    requires Shaped(t) && l1 < 128 && l2 < 32 && l3 < 32
    ensures IsRow(r)
  {
    StageSum(t.first[l1], t.second[l2], t.second[l3])
  }

  function NoiseRow(t: Tables, l1: nat, l2: nat): (r: seq<int>)
    requires Shaped(t) && l1 < 32 && l2 < 16
    ensures IsRow(r)
  {
    StageSum(t.first[t.firstSubset[l1]], t.second[t.lowSubset[l2]], t.second[t.highSubset[l2]])
  }

  // ----- range -----

  predicate HistoryWithin(h: History, lo: int, hi: int) {
    IsHistory(h) && forall i :: 0 <= i < NB_LSP_COEFF ==> Within(h[i], lo, hi)
  }

  lemma StageSumRange(first: seq<int>, low: seq<int>, high: seq<int>)
    requires IsRow(first) && IsRow(low) && IsRow(high)
    requires Within(first, FIRST_MIN, FIRST_MAX) && Within(low, SECOND_MIN, SECOND_MAX) && Within(high, SECOND_MIN, SECOND_MAX)
    ensures Within(StageSum(first, low, high), FIRST_MIN + SECOND_MIN, FIRST_MAX + SECOND_MAX)
    ensures forall i :: 0 <= i < NB_LSP_COEFF ==> StageSum(first, low, high)[i] == first[i] + if i < 5 then low[i] else high[i]
  {}

  lemma CodewordFacts(raw: seq<int>)
    requires IsRow(raw) && Within(raw, FIRST_MIN + SECOND_MIN, FIRST_MAX + SECOND_MAX)
    ensures Within(Codeword(raw), CODE_MIN, CODE_MAX)
    ensures Sum(Codeword(raw)) == Sum(raw)
  {
    RearrangeConserves(raw, GAP1, FIRST_MIN + SECOND_MIN, FIRST_MAX + SECOND_MAX);
    RearrangeConserves(Rearranged(raw, GAP1), GAP2, FIRST_MIN + SECOND_MIN - GAP1, FIRST_MAX + SECOND_MAX + GAP1);
  }

  lemma WeightBound(w: int, x: int)
    requires w >= 0 && CODE_MIN <= x <= CODE_MAX
    ensures CODE_MIN * w <= w * x <= CODE_MAX * w
  {
    MulMono(CODE_MIN, x, w);
    MulMono(x, CODE_MAX, w);
  }

  lemma WeightedRange(w: seq<int>, current: int, c: seq<int>, code: int)
    requires IsConvexColumn(w, current)
    requires |c| == MA_MAX_K && Within(c, CODE_MIN, CODE_MAX) && CODE_MIN <= code <= CODE_MAX
    ensures CODE_MIN * 0x8000 <= Weighted(w, current, c, code) <= CODE_MAX * 0x8000
  {
    WeightBound(current, code);
    WeightBound(w[0], c[0]);
    WeightBound(w[1], c[1]);
    WeightBound(w[2], c[2]);
    WeightBound(w[3], c[3]);
    DotOfFour(w, c);
  }

  lemma DotOfFour(w: seq<int>, c: seq<int>)
    requires |w| == |c| == MA_MAX_K
    ensures Dot(w, c, 0, MA_MAX_K) == w[0] * c[0] + w[1] * c[1] + w[2] * c[2] + w[3] * c[3]
  {
    assert Dot(w, c, 0, 1) == w[0] * c[0];
    assert Dot(w, c, 0, 2) == w[0] * c[0] + w[1] * c[1];
  }

  lemma RoundedRange(acc: int)
    requires CODE_MIN * 0x8000 <= acc <= CODE_MAX * 0x8000
    ensures Rounded28(Wrap32(acc)) == (acc + 0x4000) / 0x8000
    ensures CODE_MIN <= Rounded28(Wrap32(acc)) <= CODE_MAX
  {
    Pow2Table();
    Wrap32Id(acc);
    Wrap32Id(acc + 0x4000);
  }

  lemma PredictedRange(p: Predictor, h: History, code: seq<int>)
    requires IsConvex(p) && HistoryWithin(h, CODE_MIN, CODE_MAX) && IsRow(code) && Within(code, CODE_MIN, CODE_MAX)
    ensures Within(Predicted(p, h, code), CODE_MIN, CODE_MAX)
    ensures forall i :: 0 <= i < NB_LSP_COEFF ==>
      Predicted(p, h, code)[i] == (Weighted(p.past[i], p.current[i], h[i], code[i]) + 0x4000) / 0x8000
  {
    forall i | 0 <= i < NB_LSP_COEFF
      ensures CODE_MIN <= PredictedAt(p, h, code, i) <= CODE_MAX
      ensures PredictedAt(p, h, code, i) == (Weighted(p.past[i], p.current[i], h[i], code[i]) + 0x4000) / 0x8000
    {
      WeightedRange(p.past[i], p.current[i], h[i], code[i]);
      RoundedRange(Weighted(p.past[i], p.current[i], h[i], code[i]));
    }
  }

  // What a decoded vector satisfies.
  predicate IsStable(lsf: seq<int>) {
    IsRow(lsf) && Spaced(lsf, 0, NB_LSP_COEFF - 1) && lsf[1] >= LSF_MIN && lsf[NB_LSP_COEFF - 1] <= LSF_MAX
  }

  /** One frame, from any history in range and any codeword of the tables: no step overflows (the
      prediction is the rounded exact weighted sum), the vector is stable and the history stays in range. */
  lemma FrameIsStable(p: Predictor, h: History, raw: seq<int>)
    requires IsConvex(p) && HistoryWithin(h, CODE_MIN, CODE_MAX)
    requires IsRow(raw) && Within(raw, FIRST_MIN + SECOND_MIN, FIRST_MAX + SECOND_MAX)
    ensures IsStable(QuantisedLsf(p, h, raw))
    ensures HistoryWithin(Shifted(h, Codeword(raw)), CODE_MIN, CODE_MAX)
    ensures forall i :: 0 <= i < NB_LSP_COEFF ==>
      Predicted(p, h, Codeword(raw))[i] == (Weighted(p.past[i], p.current[i], h[i], Codeword(raw)[i]) + 0x4000) / 0x8000
  {
    CodewordFacts(raw);
    PredictedRange(p, h, Codeword(raw));
    StableIsSpaced(Predicted(p, h, Codeword(raw)), CODE_MAX);
    LowLimitHoldsIff(Predicted(p, h, Codeword(raw)), CODE_MAX);
    PushKeepsRange(h, Codeword(raw));
  }

  lemma PushKeepsRange(h: History, code: seq<int>)
    requires HistoryWithin(h, CODE_MIN, CODE_MAX) && IsRow(code) && Within(code, CODE_MIN, CODE_MAX)
    ensures HistoryWithin(Shifted(h, code), CODE_MIN, CODE_MAX)
  {}

  lemma SpeechRowRange(t: Tables, l1: nat, l2: nat, l3: nat)
    requires Ranged(t) && l1 < 128 && l2 < 32 && l3 < 32
    ensures Within(SpeechRow(t, l1, l2, l3), FIRST_MIN + SECOND_MIN, FIRST_MAX + SECOND_MAX)
  {
    StageSumRange(t.first[l1], t.second[l2], t.second[l3]);
  }

  lemma NoiseRowRange(t: Tables, l1: nat, l2: nat)
    requires Ranged(t) && l1 < 32 && l2 < 16
    ensures Within(NoiseRow(t, l1, l2), FIRST_MIN + SECOND_MIN, FIRST_MAX + SECOND_MAX)
  {
    StageSumRange(t.first[t.firstSubset[l1]], t.second[t.lowSubset[l2]], t.second[t.highSubset[l2]]);
  }

  // ----- aliased descriptors -----

  function SecondStageSum(t: Tables, l2: nat): int
    requires Shaped(t) && l2 < 16
  {
    Sum(t.second[t.lowSubset[l2]][..5]) + Sum(t.second[t.highSubset[l2]][5..])
  }

  // The four rows that the descriptor cannot name have sums of their own.
  predicate AliasesDiffer(t: Tables) {
    Shaped(t) && forall l2 {:trigger SecondStageSum(t, l2)} :: 12 <= l2 < 16 ==> SecondStageSum(t, l2) != SecondStageSum(t, l2 - 12)
  }

  lemma {:induction false} SumAppend(a: seq<int>, b: seq<int>)
    ensures Sum(a + b) == Sum(a) + Sum(b)
  {
    if b == [] {
      assert a + b == a;
    } else {
      assert (a + b)[..|a + b| - 1] == a + b[..|b| - 1];
      SumAppend(a, b[..|b| - 1]);
    }
  }

  lemma {:induction false} SumOfSums(a: seq<int>, b: seq<int>, c: seq<int>)
    requires |a| == |b| == |c| && forall i :: 0 <= i < |a| ==> c[i] == a[i] + b[i]
    ensures Sum(c) == Sum(a) + Sum(b)
  {
    if a != [] { SumOfSums(a[..|a| - 1], b[..|a| - 1], c[..|a| - 1]); }
  }

  lemma NoiseRowSum(t: Tables, l1: nat, l2: nat)
    requires Ranged(t) && l1 < 32 && l2 < 16
    ensures Sum(NoiseRow(t, l1, l2)) == Sum(t.first[t.firstSubset[l1]]) + SecondStageSum(t, l2)
  {
    var first, low, high := t.first[t.firstSubset[l1]], t.second[t.lowSubset[l2]], t.second[t.highSubset[l2]];
    StageSumRange(first, low, high);
    SumOfSums(first, low[..5] + high[5..], NoiseRow(t, l1, l2));
    SumAppend(low[..5], high[5..]);
  }

  /** Two descriptors that differ only in an aliased second-stage index have different codewords:
      the rearrangement conserves the sum, and the rows' sums differ. */
  lemma AliasChangesCodeword(t: Tables, l1: nat, l2: nat)
    requires Ranged(t) && AliasesDiffer(t) && l1 < 32 && 12 <= l2 < 16
    ensures Codeword(NoiseRow(t, l1, l2)) != Codeword(NoiseRow(t, l1, l2 - 12))
  {
    NoiseRowRange(t, l1, l2);
    NoiseRowRange(t, l1, l2 - 12);
    CodewordFacts(NoiseRow(t, l1, l2));
    CodewordFacts(NoiseRow(t, l1, l2 - 12));
    NoiseRowSum(t, l1, l2);
    NoiseRowSum(t, l1, l2 - 12);
    assert SecondStageSum(t, l2) != SecondStageSum(t, l2 - 12);
  }
}
