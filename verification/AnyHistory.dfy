/** A received frame decodes to a stable vector whatever 16 bit words the history holds: the weight of
    the new codeword leaves the stability pass enough room.  So concealment, which puts words of no
    known range into the history, never makes a later frame overflow. */
module AnyHistory {
  import opened FixedPoint
  import opened LsfVector
  import opened MaPrediction
  import opened LsfCodebook
  import opened MinimumGap

  // The first half of a first-stage row is low, and no new codeword has a small weight.
  const HALF := 5
  const LOW_FIRST_MAX := 14413
  const LOW_CODE_MAX := LOW_FIRST_MAX + SECOND_MAX + GAP1 + GAP2
  const LEAST_CURRENT := 7798

  predicate IsDamped(p: Predictor) {
    IsConvex(p) && forall i :: 0 <= i < NB_LSP_COEFF ==> p.current[i] >= LEAST_CURRENT
  }

  predicate Damped(t: Tables) {
    && Ranged(t)
    && (forall i, k :: 0 <= i < 128 && 0 <= k < HALF ==> t.first[i][k] <= LOW_FIRST_MAX)
    && (forall i :: 0 <= i < 2 ==> IsDamped(t.speech[i]) && IsDamped(t.noise[i]))
  }

  predicate LowHalf(q: seq<int>, max: int) {
    forall i :: 0 <= i < HALF && i < |q| ==> q[i] <= max
  }

  // ----- the low half of a codeword stays low -----

  lemma {:induction false} LiftedBelow(q: seq<int>, j: nat, gap: nat, max: int)
    requires j < |q| && forall k :: 0 <= k <= j ==> q[k] <= max
    ensures q[j] + Moved(q, j, gap) <= max + gap
  {
    if j > 0 { LiftedBelow(q, j - 1, gap, max); }
  }

  lemma PassKeepsLowHalf(q: seq<int>, gap: nat, lo: int, hi: int, max: int)
    requires q != [] && Within(q, lo, hi) && RoomToRearrange(lo, hi, gap) && LowHalf(q, max)
    ensures LowHalf(Rearranged(q, gap), max + gap)
  {
    RearrangedIsMoved(q, gap, lo, hi);
    forall i | 0 <= i < HALF && i < |q| ensures Rearranged(q, gap)[i] <= max + gap {
      LiftedBelow(q, i, gap, max);
    }
  }

  lemma CodewordLowHalf(raw: seq<int>)
    requires IsRow(raw) && Within(raw, FIRST_MIN + SECOND_MIN, FIRST_MAX + SECOND_MAX) && LowHalf(raw, LOW_FIRST_MAX + SECOND_MAX)
    ensures LowHalf(Codeword(raw), LOW_CODE_MAX)
  {
    var lo, hi := FIRST_MIN + SECOND_MIN, FIRST_MAX + SECOND_MAX;
    PassKeepsLowHalf(raw, GAP1, lo, hi, LOW_FIRST_MAX + SECOND_MAX);
    RearrangeConserves(raw, GAP1, lo, hi);
    PassKeepsLowHalf(Rearranged(raw, GAP1), GAP2, lo - GAP1, hi + GAP1, LOW_FIRST_MAX + SECOND_MAX + GAP1);
  }

  // ----- the prediction leaves room -----

  // The most that coefficient i can be and still leave the spacing pass its room.
  function Limit(i: int): int { 0x7fff - (NB_LSP_COEFF - 1 - i) * MIN_LSF_DISTANCE }

  predicate Limited(q: seq<int>) {
    forall i :: 0 <= i < |q| ==> -0x8000 <= q[i] <= Limit(i)
  }

  lemma WordTimesWeight(w: int, x: int)
    requires w >= 0 && Is16(x)
    ensures -0x8000 * w <= w * x <= 0x7fff * w
  {
    MulMono(-0x8000, x, w);
    MulMono(x, 0x7fff, w);
  }

  lemma WeightedWords(w: seq<int>, current: int, c: seq<int>, code: int)
    requires IsConvexColumn(w, current) && |c| == MA_MAX_K && Words(c)
    requires -0x8000 <= code <= 0x7fff
    ensures -0x8000 * 0x8000 <= Weighted(w, current, c, code) <= 0x7fff * 0x8000 - current * (0x7fff - code)
  {
    WordTimesWeight(current, code);
    WordTimesWeight(w[0], c[0]);
    WordTimesWeight(w[1], c[1]);
    WordTimesWeight(w[2], c[2]);
    WordTimesWeight(w[3], c[3]);
    DotOfFour(w, c);
    assert current * (0x7fff - code) == 0x7fff * current - current * code;
  }

  // What the new codeword's distance from the top leaves, with its weight at least the least one.
  lemma PredictionLimit(i: nat, current: int, code: int, acc: int)
    requires i < NB_LSP_COEFF && current >= LEAST_CURRENT
    requires -0x8000 <= code <= if i < HALF then LOW_CODE_MAX else CODE_MAX
    requires -0x8000 * 0x8000 <= acc <= 0x7fff * 0x8000 - current * (0x7fff - code)
    ensures Rounded28(Wrap32(acc)) == (acc + 0x4000) / 0x8000 && -0x8000 <= (acc + 0x4000) / 0x8000 <= Limit(i)
  {
    Pow2Table();
    var spare: nat := 0x7fff - code;
    MulMono(LEAST_CURRENT, current, spare);
    assert acc <= 0x7fff * 0x8000 - LEAST_CURRENT * spare;
    Wrap32Id(acc);
    Wrap32Id(acc + 0x4000);
  }

  predicate WordHistory(h: History) {
    IsHistory(h) && forall i :: 0 <= i < NB_LSP_COEFF ==> Words(h[i])
  }

  lemma PredictedLimited(p: Predictor, h: History, code: seq<int>)
    requires IsDamped(p) && WordHistory(h) && IsRow(code) && Within(code, CODE_MIN, CODE_MAX) && LowHalf(code, LOW_CODE_MAX)
    ensures Limited(Predicted(p, h, code))
    ensures forall i :: 0 <= i < NB_LSP_COEFF ==>
      Predicted(p, h, code)[i] == (Weighted(p.past[i], p.current[i], h[i], code[i]) + 0x4000) / 0x8000
  {
    forall i | 0 <= i < NB_LSP_COEFF
      ensures -0x8000 <= PredictedAt(p, h, code, i) <= Limit(i)
      ensures PredictedAt(p, h, code, i) == (Weighted(p.past[i], p.current[i], h[i], code[i]) + 0x4000) / 0x8000
    {
      WeightedWords(p.past[i], p.current[i], h[i], code[i]);
      PredictionLimit(i, p.current[i], code[i], Weighted(p.past[i], p.current[i], h[i], code[i]));
    }
  }

  // ----- through the stability pass -----

  // Inserting at the end a value below the next limit keeps every value below its limit.
  lemma {:induction false} InsertedLimited(s: seq<int>, v: int)
    requires Limited(s) && Sorted(s) && -0x8000 <= v <= Limit(|s|)
    ensures Limited(Inserted(s, v))
  {
    if s != [] && s[|s| - 1] > v {
      InsertedLimited(s[..|s| - 1], v);
    }
  }

  lemma {:induction false} SortedLimited(q: seq<int>)
    requires Limited(q)
    ensures Limited(InsertionSorted(q))
  {
    if q != [] {
      SortedLimited(q[..|q| - 1]);
      SortSorts(q[..|q| - 1]);
      InsertedLimited(InsertionSorted(q[..|q| - 1]), q[|q| - 1]);
    }
  }

  lemma {:induction false} SpacingKeepsWords(q: seq<int>, i: nat)
    requires Words(q)
    ensures Words(SpacedFrom(q, i))
    decreases |q| - i
  {
    if i + 1 < |q| { SpacingKeepsWords(Lifted(q, i), i + 1); }
  }

  lemma LimitedIsStable(q: seq<int>)
    requires IsRow(q) && Limited(q)
    ensures IsStable(Stable(q)) && Words(Stable(q))
  {
    SortedLimited(q);
    SpacingKeepsWords(FloorSecond(InsertionSorted(q)), 0);
    var f := FloorSecond(InsertionSorted(q));
    assert forall j :: 0 <= j < |f| ==> -0x8000 <= f[j] <= Limit(j);
    assert RoomToSpace(f, 0);
    SpacedFromFacts(f, 0);
    var sp, r := SpacedFrom(f, 0), Stable(q);
    assert forall i :: 0 <= i < NB_LSP_COEFF - 1 ==> r[i] == sp[i];
  }

  /** From any history of 16 bit words a codeword of the tables decodes to a stable vector: no step
      overflows, and the prediction is the rounded exact weighted sum. */
  lemma AnyHistoryIsStable(p: Predictor, h: History, raw: seq<int>)
    requires IsDamped(p) && WordHistory(h)
    requires IsRow(raw) && Within(raw, FIRST_MIN + SECOND_MIN, FIRST_MAX + SECOND_MAX) && LowHalf(raw, LOW_FIRST_MAX + SECOND_MAX)
    ensures IsStable(QuantisedLsf(p, h, raw)) && Words(QuantisedLsf(p, h, raw)) && WordHistory(Shifted(h, Codeword(raw)))
    ensures forall i :: 0 <= i < NB_LSP_COEFF ==>
      Predicted(p, h, Codeword(raw))[i] == (Weighted(p.past[i], p.current[i], h[i], Codeword(raw)[i]) + 0x4000) / 0x8000
  {
    CodewordFacts(raw);
    CodewordLowHalf(raw);
    PredictedLimited(p, h, Codeword(raw));
    LimitedIsStable(Predicted(p, h, Codeword(raw)));
    PushKeepsWords(h, Codeword(raw));
  }

  lemma PushKeepsWords(h: History, code: seq<int>)
    requires WordHistory(h) && IsRow(code) && Words(code)
    ensures WordHistory(Shifted(h, code))
  {}

  lemma SpeechRowLow(t: Tables, l1: nat, l2: nat, l3: nat)
    requires Damped(t) && l1 < 128 && l2 < 32 && l3 < 32
    ensures LowHalf(SpeechRow(t, l1, l2, l3), LOW_FIRST_MAX + SECOND_MAX)
  {
    StageSumRange(t.first[l1], t.second[l2], t.second[l3]);
  }

  lemma NoiseRowLow(t: Tables, l1: nat, l2: nat)
    requires Damped(t) && l1 < 32 && l2 < 16
    ensures LowHalf(NoiseRow(t, l1, l2), LOW_FIRST_MAX + SECOND_MAX)
  {
    StageSumRange(t.first[t.firstSubset[l1]], t.second[t.lowSubset[l2]], t.second[t.highSubset[l2]]);
  }
}
