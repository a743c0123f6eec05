/** Two vectors that the shipped tables really produce: a codeword whose neighbours cross in spite of
    both rearrangements, and a decoded vector whose first coefficient is far below the low limit. */
module LsfWitnesses {
  import opened FixedPoint
  import opened LsfVector
  import opened MaPrediction
  import opened LsfCodebook
  import opened BitStream
  import opened Channel
  import opened Lockstep
  import opened ShippedTables

  lemma StageSumIs(first: seq<int>, low: seq<int>, high: seq<int>, r: seq<int>)
    requires IsRow(first) && IsRow(low) && IsRow(high) && IsRow(r) && Within(r, -0x8000, 0x7fff)
    requires forall i :: 0 <= i < NB_LSP_COEFF ==> r[i] == first[i] + if i < 5 then low[i] else high[i]
    ensures StageSum(first, low, high) == r
  {}

  // ----- a codeword that crosses -----

  // The row, each pair moved apart in the first pass, and again in the second.
  function CrossingRow(): seq<int> { [3427, 4441, 6895, 9181, 9097, 8525, 12654, 17418, 19364, 20312] }

  function MovedOnce(): seq<int> { [3427, 4441, 6895, 9134, 9144, 8525, 12654, 17418, 19364, 20312] }

  function MovedTwice(): seq<int> { [3427, 4441, 6895, 9134, 8830, 8839, 12654, 17418, 19364, 20312] }

  function MovedAgain(): seq<int> { [3427, 4441, 6895, 8980, 8984, 8839, 12654, 17418, 19364, 20312] }

  function MovedLast(): seq<int> { [3427, 4441, 6895, 8980, 8909, 8914, 12654, 17418, 19364, 20312] }

  lemma CrossingRowIsShipped()
    ensures Shaped(Shipped()) && SpeechRow(Shipped(), 103, 4, 29) == CrossingRow()
  {
    ShippedQualify();
    StageSumIs(L1(103), L2L3(4), L2L3(29), CrossingRow());
  }

  // A pass that moves the pairs at i and i + 1 apart and leaves all others.
  lemma PassMovesTwo(q: seq<int>, r: seq<int>, s: seq<int>, i: nat, gap: nat, d: nat, e: nat)
    requires |q| == |r| == |s| && 1 <= i && i + 2 <= |q| && 0 < d <= 0x1000 && 0 < e <= 0x1000
    requires forall j :: 1 <= j < i ==> FarEnough(q, j, gap)
    requires Movable(q, i, gap, d) && r == q[i - 1 := q[i - 1] - d][i := q[i] + d]
    requires Movable(r, i + 1, gap, e) && s == r[i := r[i] - e][i + 1 := r[i + 1] + e]
    requires forall j :: i + 2 <= j < |s| ==> FarEnough(s, j, gap)
    ensures Rearranged(q, gap) == s
  {
    FarPairsStay(q, 1, i, gap);
    MoveApart(q, i, gap, d);
    MoveApart(r, i + 1, gap, e);
    FarPairsStay(s, i + 2, |s|, gap);
  }

  lemma FirstPass(q: seq<int>, gap: nat)
    requires q == CrossingRow() && gap == GAP1
    ensures Rearranged(q, gap) == MovedTwice()
  {
    PassMovesTwo(q, MovedOnce(), MovedTwice(), 4, gap, 47, 314);
  }

  lemma SecondPass(q: seq<int>, gap: nat)
    requires q == MovedTwice() && gap == GAP2
    ensures Rearranged(q, gap) == MovedLast()
  {
    PassMovesTwo(q, MovedAgain(), MovedLast(), 4, gap, 154, 75);
  }

  lemma CodewordOfCrossing(q: seq<int>)
    requires q == CrossingRow()
    ensures Codeword(q) == MovedLast()
  {
    FirstPass(q, GAP1);
    SecondPass(Rearranged(q, GAP1), GAP2);
  }

  // The fifth coefficient of the codeword ends below the fourth.
  predicate Crosses(l1: nat, l2: nat, l3: nat, drop: int) {
    && Shaped(Shipped()) && l1 < 128 && l2 < 32 && l3 < 32
    && var c := Codeword(SpeechRow(Shipped(), l1, l2, l3)); c[4] == c[3] - drop
  }

  lemma CrossingCrosses(l1: nat, l2: nat, l3: nat)
    requires Shaped(Shipped()) && l1 < 128 && l2 < 32 && l3 < 32 && SpeechRow(Shipped(), l1, l2, l3) == CrossingRow()
    ensures Crosses(l1, l2, l3, 71)
  {
    CodewordOfCrossing(SpeechRow(Shipped(), l1, l2, l3));
  }

  /** The two rearrangements give no minimum distance: some codeword of the shipped tables has a
      coefficient 71 below the one before it (L1 = 103, L2 = 4 and L3 = 29 select it). */
  lemma RearrangedCanCross()
    ensures Shaped(Shipped())
    ensures exists l1, l2, l3 :: Crosses(l1, l2, l3, 71)
  {
    CrossingRowIsShipped();
    var l1, l2, l3 := 103, 4, 29;
    CrossingCrosses(l1, l2, l3);
  }

  // ----- a vector below the low limit -----

  function LowRow(): seq<int> { [-917, 1961, 5455, 7550, 11390, 13831, 14562, 18956, 20447, 21952] }

  // Three received frames of these fields.
  const LOW := Fields(1, 32, 25, 0, 1, 0, 0, 0, 0, 0, 0, 0, 0, 0)

  lemma LowRowIsShipped()
    ensures Shaped(Shipped()) && SpeechRow(Shipped(), 32, 25, 0) == LowRow()
  {
    ShippedQualify();
    StageSumIs(L1(32), L2L3(25), L2L3(0), LowRow());
  }

  lemma LowRowStays(q: seq<int>)
    requires q == LowRow()
    ensures Codeword(q) == q
  {
    forall j, gap: nat | 1 <= j < NB_LSP_COEFF && gap <= GAP1 ensures FarEnough(q, j, gap) {}
    AllFarStay(q, GAP1);
    AllFarStay(q, GAP2);
  }

  lemma AllFarStay(q: seq<int>, gap: nat)
    requires |q| == NB_LSP_COEFF && forall j :: 1 <= j < NB_LSP_COEFF ==> FarEnough(q, j, gap)
    ensures Rearranged(q, gap) == q
  {
    FarPairsStay(q, 1, NB_LSP_COEFF, gap);
  }

  // The decoder's history after the same speech frame twice, and the vector of the third.
  lemma ThirdVector(kit: Kit, n: Fields, one: seq<Message>, two: seq<Message>, three: seq<Message>, h: History)
    requires Shaped(kit.tables) && FieldsInRange(n) && h == Shifted(Shifted(InitialHistory(), SpeechCode(kit, n)), SpeechCode(kit, n))
    requires one == [SpeechMessage(n, false)] && two == one + one && three == two + one
    ensures AllMessages(three) && DecoderAfter(kit, InitialDecoder(), three).lastLsf == SpeechLsf(kit, h, n)
  {
    assert DecoderAfter(kit, InitialDecoder(), []) == InitialDecoder();
    assert [] + one == one;
    OneMore(kit, [], n);
    OneMore(kit, one, n);
    OneMore(kit, two, n);
  }

  lemma OneMore(kit: Kit, before: seq<Message>, n: Fields)
    requires Shaped(kit.tables) && FieldsInRange(n) && AllMessages(before)
    ensures var d, m := DecoderAfter(kit, InitialDecoder(), before), SpeechMessage(n, false);
      && AllMessages(before + [m])
      && DecoderAfter(kit, InitialDecoder(), before + [m]).history == Shifted(d.history, SpeechCode(kit, n))
      && DecoderAfter(kit, InitialDecoder(), before + [m]).lastLsf == SpeechLsf(kit, d.history, n)
  {
    assert (before + [SpeechMessage(n, false)])[..|before|] == before;
  }

  lemma FirstOfStable(q: seq<int>, hi: int)
    requires |q| >= 2 && Within(q, -0x8000, hi) && hi >= LSF_MIN && hi + |q| * MIN_LSF_DISTANCE <= 0x7fff
    ensures Stable(q)[0] <= q[0]
  {
    FlooredFacts(q, hi);
    var f := FloorSecond(InsertionSorted(q));
    BoundedHasRoom(f, hi);
    SpacedFromFacts(f, 0);
    assert q[0] in q;
  }

  lemma LowColumn(h: History)
    requires h == Shifted(Shifted(InitialHistory(), LowRow()), LowRow())
    ensures h[0] == [-917, -917, 2339, 2339]
  {}

  lemma LowPrediction(h: History)
    requires Shaped(Shipped()) && IsHistory(h) && h[0] == [-917, -917, 2339, 2339]
    ensures PredictedAt(Shipped().speech[1], h, LowRow(), 0) == -297
  {
    var p := Shipped().speech[1];
    assert p == Speech1() && p.past[0] == [7733, 4210, 3214, 3024] && p.current[0] == 14585;
    DotOfFour(p.past[0], h[0]);
    Pow2Table();
    Wrap32Id(-9735494);
  }

  lemma LowVector(kit: Kit, n: Fields, h: History)
    requires kit.tables == Shipped() && Shaped(kit.tables) && FieldsInRange(n) && n.L0 == 1
    requires SpeechRow(kit.tables, n.L1, n.L2, n.L3) == LowRow() && h == Shifted(Shifted(InitialHistory(), LowRow()), LowRow())
    ensures SpeechCode(kit, n) == LowRow() && SpeechLsf(kit, h, n)[0] <= -297
  {
    LowRowStays(LowRow());
    LowColumn(h);
    LowPrediction(h);
    LowHistoryInRange(h);
    ShippedQualify();
    PredictedRange(kit.tables.speech[1], h, LowRow());
    FirstOfStable(Predicted(kit.tables.speech[1], h, LowRow()), CODE_MAX);
  }

  lemma LowHistoryInRange(h: History)
    requires h == Shifted(Shifted(InitialHistory(), LowRow()), LowRow())
    ensures HistoryWithin(h, CODE_MIN, CODE_MAX) && Within(LowRow(), CODE_MIN, CODE_MAX)
  {}

  // Three received frames that select the low row leave it.
  lemma LowRunIsLow(kit: Kit, n: Fields, run: seq<Message>)
    requires kit.tables == Shipped() && Shaped(kit.tables) && FieldsInRange(n) && n.L0 == 1
    requires SpeechRow(kit.tables, n.L1, n.L2, n.L3) == LowRow()
    requires run == [SpeechMessage(n, false)] + [SpeechMessage(n, false)] + [SpeechMessage(n, false)]
    ensures AllMessages(run) && DecoderAfter(kit, InitialDecoder(), run).lastLsf[0] <= -297
  {
    var h, m := Shifted(Shifted(InitialHistory(), LowRow()), LowRow()), [SpeechMessage(n, false)];
    LowVector(kit, n, h);
    ThirdVector(kit, n, m, m + m, run, h);
  }

  /** The low limit is really missed: from the state the decoder is created in, three received speech
      frames with L0 = 1, L1 = 32, L2 = 25 and L3 = 0 leave its first coefficient at or below -297. */
  lemma LowLimitIsMissed(kit: Kit, run: seq<Message>)
    requires kit.tables == Shipped() && run == [SpeechMessage(LOW, false), SpeechMessage(LOW, false), SpeechMessage(LOW, false)]
    ensures Shaped(kit.tables) && AllMessages(run)
    ensures DecoderAfter(kit, InitialDecoder(), run).lastLsf[0] <= -297
  {
    LowRowIsShipped();
    LowRunIsLow(kit, LOW, run);
  }
}
