/** What a concealed frame leaves in the spectral history: the codeword that predicts the last good
    vector again, as far as it fits a word. */
module Concealment {
  import opened FixedPoint
  import opened LsfVector
  import opened MaPrediction
  import opened LsfCodebook
  import opened AnyHistory
  import opened BitStream
  import opened FixedCodeword
  import opened GainCodebook
  import opened ComfortNoise
  import opened Channel
  import opened Lockstep
  import opened ShippedTables

  const UNIT := 0x8000000

  // The stored inverse undoes the weight of a new codeword closely enough.
  predicate Undoes(inverse: int, current: int) {
    Is16(inverse) && inverse > 0 && Abs(inverse * current - UNIT) * 0x8000 + 0x4001000 < inverse * 0x1c000
  }

  predicate Undone(t: Tables) {
    Damped(t) && forall l, i :: 0 <= l < 2 && 0 <= i < NB_LSP_COEFF ==> Undoes(t.inverse[l][i], t.speech[l].current[i])
  }

  // What the past leaves to the new codeword, in Q28.
  function Missing(last: int, w: seq<int>, c: seq<int>): int
    requires |w| == |c| == MA_MAX_K
  {
    last * 0x8000 - Dot(w, c, 0, MA_MAX_K)
  }

  // The codeword without any wrap: the inverse times what is missing, floored and rounded.
  function ExactConcealed(inverse: int, missing: int): int { ((inverse * missing) / 4096 + 0x4000) / 0x8000 }

  // ----- the stored word is the exact codeword on 16 bits -----

  lemma WrapsAgree(m: int)
    ensures Wrap16(Pshr(Wrap32(m), 15)) == Wrap16((m + 0x4000) / 0x8000)
  {
    Pow2Table();
    Wrap32Add(m, 0x4000);
    var x := m + 0x4000;
    WrapIsOffset(x);
    var k := (x + 0x80000000) / 0x1_0000_0000;
    assert Wrap32(x) == x - k * 0x1_0000_0000;
    OffsetShifts(x, k);
    OffsetWraps(x / 0x8000, 2 * k);
  }

  lemma WrapIsOffset(x: int)
    ensures Wrap32(x) == x - ((x + 0x80000000) / 0x1_0000_0000) * 0x1_0000_0000
  {}

  lemma OffsetShifts(x: int, k: int)
    ensures (x - k * 0x1_0000_0000) / 0x8000 == x / 0x8000 - k * 0x20000
  {}

  lemma OffsetWraps(x: int, k: int)
    ensures Wrap16(x - k * 0x10000) == Wrap16(x)
  {}

  lemma MissingFits(last: int, w: seq<int>, c: seq<int>, current: int)
    requires Is16(last) && IsConvexColumn(w, current) && |c| == MA_MAX_K && Words(c)
    ensures Is32(Missing(last, w, c))
  {
    WeightedWords(w, current, c, 0);
    NegatedWords(w, current, c);
  }

  lemma NegatedWords(w: seq<int>, current: int, c: seq<int>)
    requires IsConvexColumn(w, current) && |c| == MA_MAX_K && Words(c)
    ensures -0x40000000 <= Dot(w, c, 0, MA_MAX_K) <= 0x3fff8000
  {
    WordTimesWeight(w[0], c[0]);
    WordTimesWeight(w[1], c[1]);
    WordTimesWeight(w[2], c[2]);
    WordTimesWeight(w[3], c[3]);
    DotOfFour(w, c);
  }

  lemma ConcealedIsExact(inverse: int, last: int, w: seq<int>, c: seq<int>, current: int)
    requires Is16(inverse) && Is16(last) && IsConvexColumn(w, current) && |c| == MA_MAX_K && Words(c)
    ensures ConcealedValue(inverse, last, w, c) == Wrap16(ExactConcealed(inverse, Missing(last, w, c)))
  {
    var a := Missing(last, w, c);
    MissingFits(last, w, c, current);
    Wrap32Id(a);
    Pow2Table();
    SplitMultiplyIsFloor(inverse, a, 12);
    WrapsAgree((inverse * a) / 4096);
  }

  // ----- how far the exact codeword is from undoing the weight -----

  // What the exact codeword, weighted, has too much.
  function Excess(inverse: int, current: int, a: int): int { current * ExactConcealed(inverse, a) - a }

  lemma ExcessIdentity(inverse: int, current: int, a: int)
    ensures var v, rest, low := ExactConcealed(inverse, a), ((inverse * a) / 4096 + 0x4000) % 0x8000, (inverse * a) % 4096;
      inverse * Excess(inverse, current, a) == (inverse * current - UNIT) * v + 0x4000000 - 4096 * rest - low
  {
    var v := ExactConcealed(inverse, a);
    assert inverse * (current * v - a) == inverse * (current * v) - inverse * a;
    assert inverse * (current * v) == (inverse * current) * v;
    assert (inverse * current - UNIT) * v == (inverse * current) * v - UNIT * v;
  }

  lemma ExcessBound(inverse: int, current: int, a: int, m: nat)
    requires inverse > 0 && BoundedBy(ExactConcealed(inverse, a), m)
    ensures BoundedBy(inverse * Excess(inverse, current, a), Abs(inverse * current - UNIT) * m + 0x4001000)
  {
    var d, v := inverse * current - UNIT, ExactConcealed(inverse, a);
    ExcessIdentity(inverse, current, a);
    var p: nat, q: nat := Abs(d), Abs(v);
    MulMono(q, m, p);
    assert d * v == p * q || d * v == -(p * q);
    assert p * q == q * p && p * m == m * p;
  }

  // Below three and a half units when the codeword is a word.
  lemma ExcessOfWord(inverse: int, current: int, a: int)
    requires Undoes(inverse, current) && Is16(ExactConcealed(inverse, a))
    ensures -0x1c000 < Excess(inverse, current, a) < 0x1c000
  {
    var e := Excess(inverse, current, a);
    ExcessBound(inverse, current, a, 0x8000);
    assert e * inverse == inverse * e && (-0x1c000) * inverse == -(inverse * 0x1c000);
    MulCancel(e, 0x1c000, inverse);
    MulCancel(-0x1c000, e, inverse);
  }

  lemma ExactBound(inverse: int, a: int)
    requires Is16(inverse) && inverse > 0 && Is32(a)
    ensures BoundedBy(ExactConcealed(inverse, a), 0x80000)
  {
    MulMono(a, 0x80000000, inverse);
    MulMono(-0x80000000, a, inverse);
    assert a * inverse == inverse * a;
    assert -0x8000 * 0x80000000 <= inverse * a <= 0x7fff * 0x80000000;
  }

  // Far below the weight of a wrap in any case.
  lemma ExcessOfAny(inverse: int, current: int, a: int)
    requires Undoes(inverse, current) && Is32(a)
    ensures -0x8000 * 100 < Excess(inverse, current, a) < 0x8000 * 100
  {
    var e := Excess(inverse, current, a);
    ExactBound(inverse, a);
    ExcessBound(inverse, current, a, 0x80000);
    var limit := Abs(inverse * current - UNIT) * 0x80000 + 0x4001000;
    assert limit < 16 * (inverse * 0x1c000);
    assert e * inverse == inverse * e;
    MulCancel(e, 0x8000 * 100, inverse);
    MulCancel(-0x8000 * 100, e, inverse);
  }

  // ----- the prediction -----

  // The value predicted with the stored word: off by the excess, and by twice the weight for every wrap.
  lemma PredictionOf(last: int, dot: int, current: int, v: int, k: int, e: int)
    requires current * v - (last * 0x8000 - dot) == e
    ensures (current * (v - k * 0x10000) + dot + 0x4000) / 0x8000 == last + (e + 0x4000) / 0x8000 - 2 * (current * k)
  {
    assert current * (v - k * 0x10000) == current * v - 0x10000 * (current * k);
    var x := e + 0x4000;
    var n := last - 2 * (current * k);
    assert current * (v - k * 0x10000) + dot + 0x4000 == x + n * 0x8000;
    ShiftAdds(x, n);
  }

  lemma ShiftAdds(x: int, n: int)
    ensures (x + n * 0x8000) / 0x8000 == x / 0x8000 + n
  {}

  lemma WrapCount(v: int)
    ensures exists k :: Wrap16(v) == v - k * 0x10000 && (k == 0 <==> Is16(v))
  {
    var k := (v + 0x8000) / 0x10000;
    assert Wrap16(v) == v - k * 0x10000;
  }

  lemma WrapsTooFar(current: int, k: int, off: int)
    requires current >= LEAST_CURRENT && k != 0 && -100 <= off <= 100
    ensures off - 2 * (current * k) > 3 || off - 2 * (current * k) < -3
  {
    if k > 0 {
      MulMono(1, k, current);
    } else {
      MulMono(k, -1, current);
    }
    assert current * k == k * current;
  }

  predicate Within3(x: int, y: int) { -3 <= x - y <= 3 }

  // The same on one coefficient, from plain numbers.
  lemma PredictsAgain(inverse: int, current: int, last: int, dot: int)
    requires Undoes(inverse, current) && current >= LEAST_CURRENT && Is32(last * 0x8000 - dot)
    ensures var v := ExactConcealed(inverse, last * 0x8000 - dot);
      Within3((current * Wrap16(v) + dot + 0x4000) / 0x8000, last) <==> Is16(v)
  {
    var a := last * 0x8000 - dot;
    var v, e := ExactConcealed(inverse, a), Excess(inverse, current, a);
    WrapCount(v);
    var k :| Wrap16(v) == v - k * 0x10000 && (k == 0 <==> Is16(v));
    PredictionOf(last, dot, current, v, k, e);
    if k == 0 {
      ExcessOfWord(inverse, current, a);
    } else {
      ExcessOfAny(inverse, current, a);
      WrapsTooFar(current, k, (e + 0x4000) / 0x8000);
    }
  }

  lemma RoundsWithoutWrap(acc: int)
    requires -0x40000000 <= acc <= 0x3fff8000
    ensures Rounded28(Wrap32(acc)) == (acc + 0x4000) / 0x8000
  {
    Pow2Table();
    Wrap32Id(acc);
    Wrap32Id(acc + 0x4000);
  }

  lemma WordsAgain(code: int)
    ensures Is16(Wrap16(code))
  {}

  /** Predicting with the codeword of a concealed frame gives the last good coefficient again, to within
      three units, if and only if the exact codeword fits 16 bits. */
  lemma ConcealedPredictsLast(kit: Kit, h: History, last: seq<int>, l0: nat, i: nat)
    requires Undone(kit.tables) && WordHistory(h) && IsRow(last) && Words(last) && l0 < 2 && i < NB_LSP_COEFF
    ensures var p, inverse := kit.tables.speech[l0], kit.tables.inverse[l0][i];
      Within3(Predicted(p, h, ConcealedCode(kit, h, last, l0))[i], last[i])
      <==> Is16(ExactConcealed(inverse, Missing(last[i], p.past[i], h[i])))
  {
    var p, inverse := kit.tables.speech[l0], kit.tables.inverse[l0][i];
    var w, c, current := p.past[i], h[i], p.current[i];
    var code := ConcealedCode(kit, h, last, l0)[i];
    ConcealedIsExact(inverse, last[i], w, c, current);
    MissingFits(last[i], w, c, current);
    WordsAgain(ExactConcealed(inverse, Missing(last[i], w, c)));
    WeightedWords(w, current, c, code);
    SpareWeight(current, code);
    RoundsWithoutWrap(Weighted(w, current, c, code));
    PredictsAgain(inverse, current, last[i], Dot(w, c, 0, MA_MAX_K));
  }

  /** Over everything the decoder can receive, lose and conceal before: the codeword that the next lost
      frame leaves predicts the vector it falls back to, if and only if the exact codeword fits. */
  lemma LostFrameKeepsSpectrum(kit: Kit, m: seq<Message>, i: nat)
    requires Undone(kit.tables) && AllMessages(m) && i < NB_LSP_COEFF
    ensures var d := DecoderAfter(kit, InitialDecoder(), m);
      var p, code := kit.tables.speech[d.lastL0], ConcealedCode(kit, d.history, d.lastLsf, d.lastL0);
      && DecodeErased(kit, d).0.history == Shifted(d.history, code)
      && (Within3(Predicted(p, d.history, code)[i], d.lastLsf[i])
          <==> Is16(ExactConcealed(kit.tables.inverse[d.lastL0][i], Missing(d.lastLsf[i], p.past[i], d.history[i]))))
  {
    var d := DecoderAfter(kit, InitialDecoder(), m);
    RunHoldsUp(kit, m);
    ConcealedPredictsLast(kit, d.history, d.lastLsf, d.lastL0, i);
  }

  lemma SpareWeight(current: int, code: int)
    requires current >= 0 && code <= 0x7fff
    ensures current * (0x7fff - code) >= 0
  {}

  lemma ShippedUndone()
    ensures Undone(Shipped())
  {
    ShippedDamped();
    forall i | 0 <= i < NB_LSP_COEFF ensures Undoes(InverseSum0()[i], SpeechCurrent0()[i]) && Undoes(InverseSum1()[i], SpeechCurrent1()[i]) {
      ShippedUndoes(i);
    }
  }

  lemma ShippedUndoes(i: nat)
    requires i < NB_LSP_COEFF
    ensures Undoes(InverseSum0()[i], SpeechCurrent0()[i]) && Undoes(InverseSum1()[i], SpeechCurrent1()[i])
  {}

  /** The pulses of a lost subframe are those of a codeword from the low bits of one draw and of signs from
      the low bits of the next. */
  lemma LostPulsesAreDrawn(seed: int)
    requires IsSeed(seed)
    ensures OnTracks(RandomPulses(seed))
    ensures EncodedPositions(RandomPulses(seed)) == NextSeed(seed) % 8192
    ensures EncodedSigns(RandomPulses(seed)) == NextSeed(NextSeed(seed)) % 16
  {
    assert SeedAfter(seed, 1) == NextSeed(seed);
    CodewordReturns(SeedAfter(seed, 2) % 16, SeedAfter(seed, 1) % 8192);
    DecodedPulsesOnTracks(SeedAfter(seed, 2) % 16, SeedAfter(seed, 1) % 8192);
  }

  // ----- the gains of a burst of losses -----

  // The pitch gain and the gain errors after k lost subframes.
  function PitchAfter(gain: int, k: nat): int { if k == 0 then gain else FadedPitchGain(PitchAfter(gain, k - 1)) }

  function ErrorsAfter(h: seq<int>, k: nat): (r: seq<int>)
    requires IsGainHistory(h)
    ensures IsGainHistory(r)
  {
    if k == 0 then h else GainConcealed(ErrorsAfter(h, k - 1))
  }

  lemma PitchFades(gain: int)
    requires gain >= 0
    ensures 0 <= FadedPitchGain(gain) <= 14746 && FadedPitchGain(gain) <= gain
    ensures gain > 0 ==> FadedPitchGain(gain) < gain
    ensures gain <= 16383 ==> 0 <= 29491 * gain - 0x8000 * FadedPitchGain(gain) < 0x8000
    ensures gain >= 16384 ==> FadedPitchGain(gain) == 14746
  {}

  // Nine tenths, to the power of k, in exact rationals: 29491^k and 32768^k.
  function Power(x: nat, k: nat): nat { if k == 0 then 1 else x * Power(x, k - 1) }

  /** Over k losses the pitch gain only falls: to at most 0.9 at once and then by a tenth each time. */
  lemma {:induction false} PitchOverLosses(gain: int, k: nat)
    requires gain >= 0 && k > 0
    ensures 0 <= PitchAfter(gain, k) <= gain && PitchAfter(gain, k) <= 14746
    ensures Power(0x8000, k - 1) * PitchAfter(gain, k) <= Power(29491, k - 1) * 14746
  {
    var before := PitchAfter(gain, k - 1);
    if k == 1 {
      assert PitchAfter(gain, 0) == gain;
      PitchFades(gain);
    } else {
      PitchOverLosses(gain, k - 1);
      PitchFades(before);
      OneTenth(Power(0x8000, k - 2), Power(29491, k - 2), before, PitchAfter(gain, k));
    }
  }

  lemma OneTenth(p: nat, q: nat, before: int, after: int)
    requires p * before <= q * 14746 && 0x8000 * after <= 29491 * before
    ensures (0x8000 * p) * after <= (29491 * q) * 14746
  {
    MulMono(0x8000 * after, 29491 * before, p);
    assert (0x8000 * after) * p == (0x8000 * p) * after && (29491 * before) * p == 29491 * (p * before);
    assert (29491 * q) * 14746 == 29491 * (q * 14746);
  }

  predicate ErrorsWithin(h: seq<int>, lo: int, hi: int) {
    IsGainHistory(h) && forall i :: 0 <= i < GAIN_HISTORY ==> lo <= h[i] <= hi
  }

  lemma ErrorFalls(h: seq<int>, lo: int, hi: int)
    requires ErrorsWithin(h, lo, hi) && -14336 <= lo <= hi <= 0x7fff
    ensures -14336 <= ConcealedGainError(h) && lo - 4096 <= ConcealedGainError(h)
    ensures ConcealedGainError(h) <= hi - 4096 || ConcealedGainError(h) == -14336
  {
    var sum := h[0] + h[1] + h[2] + h[3];
    Pow2Table();
    Wrap32Id(sum);
    Wrap32Id(sum + 2);
  }

  lemma ErrorStays(h: seq<int>, hi: int)
    requires ErrorsWithin(h, -14336, hi) && -14336 <= hi <= 0x7fff
    ensures ErrorsWithin(GainConcealed(h), -14336, hi)
  {
    ErrorFalls(h, -14336, hi);
  }

  // The bound after one loss: 4 dB below the old one, or the floor.
  function Lowered(hi: int): int { if hi - 4096 < -14336 then -14336 else hi - 4096 }

  lemma {:induction false} NewestLowered(h: seq<int>, hi: int, k: nat)
    requires ErrorsWithin(h, -14336, hi) && -14336 <= hi <= 0x7fff
    ensures ErrorsWithin(ErrorsAfter(h, k), -14336, hi)
    ensures forall i :: 0 <= i < k && i < GAIN_HISTORY ==> ErrorsAfter(h, k)[i] <= Lowered(hi)
  {
    if k > 0 {
      var before := ErrorsAfter(h, k - 1);
      NewestLowered(h, hi, k - 1);
      ErrorFalls(before, -14336, hi);
      ErrorStays(before, hi);
    }
  }

  /** Over losses the gain errors never leave their old range and -14 dB, and four losses in a row lower all
      of them by 4 dB at least, or to -14 dB. */
  lemma ErrorsOverLosses(h: seq<int>, hi: int, k: nat)
    requires ErrorsWithin(h, -14336, hi) && -14336 <= hi <= 0x7fff
    ensures ErrorsWithin(ErrorsAfter(h, k), -14336, hi)
    ensures k >= 4 ==> ErrorsWithin(ErrorsAfter(h, k), -14336, Lowered(hi))
  {
    NewestLowered(h, hi, k);
  }
}
