/** When one pass of the rearrangement really leaves its minimum distance between all neighbours,
    and when the two passes of the codec do. */
module MinimumGap {
  import opened FixedPoint
  import opened LsfVector
  import opened MaPrediction
  import opened LsfCodebook

  predicate AllGaps(q: seq<int>, gap: int) {
    forall i :: 1 <= i < |q| ==> q[i] - q[i - 1] >= gap
  }

  // ----- the pass in closed form -----

  // Half of a lack, rounded down; nothing where nothing lacks.
  function Half(x: int): nat { if x > 0 then x / 2 else 0 }

  // How far the pass moves the pair at i apart: the left one has been lifted by the move before.
  function Moved(q: seq<int>, i: nat, gap: int): nat {
    if 1 <= i < |q| then Half(q[i - 1] - q[i] + gap + Moved(q, i - 1, gap)) else 0
  }

  // What the whole pass makes of coefficient j.
  function MovedAt(q: seq<int>, j: nat, gap: int): int
    requires j < |q|
  {
    q[j] + Moved(q, j, gap) - Moved(q, j + 1, gap)
  }

  // The pass has done the pairs before i.
  predicate PassedTo(q: seq<int>, p: seq<int>, i: nat, gap: int) {
    && 1 <= i && |p| == |q|
    && (forall j :: 0 <= j < i - 1 && j < |q| ==> p[j] == MovedAt(q, j, gap))
    && (i <= |q| ==> p[i - 1] == q[i - 1] + Moved(q, i - 1, gap))
    && (forall j :: i <= j < |q| ==> p[j] == q[j])
  }

  lemma PassOne(q: seq<int>, p: seq<int>, i: nat, gap: nat, lo: int, hi: int)
    requires i < |p| && RoomToRearrange(lo, hi, gap) && Ahead(p, i, gap, lo, hi) && PassedTo(q, p, i, gap)
    ensures PassedTo(q, Part(p, i, gap), i + 1, gap)
  {
    var d := PartIsMove(p, i, gap, lo, hi);
    assert Moved(q, i, gap) == Half(p[i - 1] - p[i] + gap) == d;
  }

  lemma {:induction false} PassRest(q: seq<int>, p: seq<int>, i: nat, gap: nat, lo: int, hi: int)
    requires RoomToRearrange(lo, hi, gap) && Ahead(p, i, gap, lo, hi) && PassedTo(q, p, i, gap)
    ensures var r := RearrangedFrom(p, i, gap);
      |r| == |q| && forall j :: 0 <= j < |q| ==> r[j] == MovedAt(q, j, gap)
    decreases |p| - i
  {
    if i < |p| {
      PassOne(q, p, i, gap, lo, hi);
      PartStep(p, i, gap, lo, hi);
      PassRest(q, Part(p, i, gap), i + 1, gap, lo, hi);
    }
  }

  /** Absent overflow the pass adds to every coefficient the move of the pair it closes and takes
      away the move of the pair it opens. */
  lemma RearrangedIsMoved(q: seq<int>, gap: nat, lo: int, hi: int)
    requires q != [] && Within(q, lo, hi) && RoomToRearrange(lo, hi, gap)
    ensures forall j :: 0 <= j < |q| ==> Rearranged(q, gap)[j] == MovedAt(q, j, gap)
  {
    PassRest(q, q, 1, gap, lo, hi);
  }

  // ----- when the gaps are there -----

  // What the pair at i lacks, and half of it, before anything has moved.
  function Lacking(q: seq<int>, i: nat, gap: int): int
    requires 1 <= i < |q|
  {
    q[i - 1] - q[i] + gap
  }

  function Need(q: seq<int>, i: nat, gap: int): nat {
    if 1 <= i < |q| then Half(Lacking(q, i, gap)) else 0
  }

  // A pair that lacks something lacks an even amount and has neighbours that need no move; one that
  // does not has room for what its neighbours need.
  predicate SettlesAt(q: seq<int>, i: nat, gap: int)
    requires 1 <= i < |q|
  {
    var x := Lacking(q, i, gap);
    if x > 0 then x % 2 == 0 && Need(q, i - 1, gap) == 0 && Need(q, i + 1, gap) == 0
    else x + Need(q, i - 1, gap) + Need(q, i + 1, gap) <= 0
  }

  predicate Settles(q: seq<int>, gap: int) {
    forall i :: 1 <= i < |q| ==> SettlesAt(q, i, gap)
  }

  // The same in terms of the moves that the pass makes.
  predicate MovesSettleAt(q: seq<int>, i: nat, gap: int)
    requires 1 <= i < |q|
  {
    var x := Lacking(q, i, gap) + Moved(q, i - 1, gap);
    if x > 0 then x % 2 == 0 && Moved(q, i + 1, gap) == 0 else x + Moved(q, i + 1, gap) <= 0
  }

  predicate MovesSettle(q: seq<int>, gap: int) {
    forall i :: 1 <= i < |q| ==> MovesSettleAt(q, i, gap)
  }

  lemma GapIffMovesSettle(q: seq<int>, i: nat, gap: int)
    requires 1 <= i < |q|
    ensures MovedAt(q, i, gap) - MovedAt(q, i - 1, gap) >= gap <==> MovesSettleAt(q, i, gap)
  {
    assert Moved(q, i, gap) == Half(Lacking(q, i, gap) + Moved(q, i - 1, gap));
  }

  // Where the moves settle, the lifted half of a pair never starts another move.
  lemma {:induction false} SettledMoves(q: seq<int>, i: nat, gap: int)
    requires MovesSettle(q, gap) || Settles(q, gap)
    ensures Moved(q, i, gap) == Need(q, i, gap)
  {
    if 1 <= i < |q| {
      SettledMoves(q, i - 1, gap);
      if i >= 2 {
        assert MovesSettle(q, gap) ==> MovesSettleAt(q, i - 1, gap) && MovesSettleAt(q, i, gap);
        assert Settles(q, gap) ==> SettlesAt(q, i - 1, gap) && SettlesAt(q, i, gap);
      }
    }
  }

  lemma SettlesIffMovesSettle(q: seq<int>, gap: int)
    ensures Settles(q, gap) <==> MovesSettle(q, gap)
  {
    if MovesSettle(q, gap) || Settles(q, gap) {
      forall i | 1 <= i < |q| ensures SettlesAt(q, i, gap) <==> MovesSettleAt(q, i, gap) {
        SettledMoves(q, i - 1, gap);
        SettledMoves(q, i, gap);
        SettledMoves(q, i + 1, gap);
        assert MovesSettle(q, gap) ==> MovesSettleAt(q, i, gap);
        assert Settles(q, gap) ==> SettlesAt(q, i, gap);
      }
    }
  }

  /** One pass leaves all neighbours the minimum distance apart if and only if every pair that lacks
      some of it lacks an even amount between neighbours that need no move, and every other pair
      has room for what the pairs beside it need. */
  lemma RearrangedGapsIff(q: seq<int>, gap: nat, lo: int, hi: int)
    requires q != [] && Within(q, lo, hi) && RoomToRearrange(lo, hi, gap)
    ensures AllGaps(Rearranged(q, gap), gap) <==> Settles(q, gap)
  {
    RearrangedIsMoved(q, gap, lo, hi);
    SettlesIffMovesSettle(q, gap);
    var r := Rearranged(q, gap);
    forall i | 1 <= i < |q| ensures r[i] - r[i - 1] >= gap <==> MovesSettleAt(q, i, gap) {
      GapIffMovesSettle(q, i, gap);
    }
    if AllGaps(r, gap) {
      forall i | 1 <= i < |q| ensures MovesSettleAt(q, i, gap) {
        assert r[i] - r[i - 1] >= gap;
      }
    }
    if MovesSettle(q, gap) {
      forall i | 1 <= i < |r| ensures r[i] - r[i - 1] >= gap {
        assert MovesSettleAt(q, i, gap);
      }
    }
  }

  // ----- the two passes -----

  /** A codeword keeps the second minimum distance if and only if that holds of what the first pass
      makes of its row. */
  lemma CodewordGapsIff(raw: seq<int>)
    requires IsRow(raw) && Within(raw, FIRST_MIN + SECOND_MIN, FIRST_MAX + SECOND_MAX)
    ensures AllGaps(Codeword(raw), GAP2) <==> Settles(Rearranged(raw, GAP1), GAP2)
  {
    RearrangeConserves(raw, GAP1, FIRST_MIN + SECOND_MIN, FIRST_MAX + SECOND_MAX);
    RearrangedGapsIff(Rearranged(raw, GAP1), GAP2, FIRST_MIN + SECOND_MIN - GAP1, FIRST_MAX + SECOND_MAX + GAP1);
  }

  lemma {:induction false} NothingMoves(q: seq<int>, i: nat, gap: nat)
    requires AllGaps(q, gap)
    ensures Moved(q, i, gap) == 0
  {
    if 1 <= i < |q| { NothingMoves(q, i - 1, gap); }
  }

  /** A row on which the first pass settles keeps the larger distance, and the second pass leaves it. */
  lemma SettledRowIsDone(raw: seq<int>)
    requires IsRow(raw) && Within(raw, FIRST_MIN + SECOND_MIN, FIRST_MAX + SECOND_MAX) && Settles(raw, GAP1)
    ensures AllGaps(Codeword(raw), GAP1) && Codeword(raw) == Rearranged(raw, GAP1)
  {
    var lo, hi := FIRST_MIN + SECOND_MIN, FIRST_MAX + SECOND_MAX;
    var r := Rearranged(raw, GAP1);
    RearrangedGapsIff(raw, GAP1, lo, hi);
    RearrangeConserves(raw, GAP1, lo, hi);
    RearrangedIsMoved(r, GAP2, lo - GAP1, hi + GAP1);
    forall j | 0 <= j < |r| ensures Rearranged(r, GAP2)[j] == r[j] {
      NothingMoves(r, j, GAP2);
      NothingMoves(r, j + 1, GAP2);
    }
  }
}
