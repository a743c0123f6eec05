/** Line spectral frequency vectors: the minimum-gap rearrangement, the insertion sort and
    the stability pass that both ends of the codec apply to a quantised vector. */
module LsfVector {
  import opened FixedPoint

  const NB_LSP_COEFF := 10
  const GAP1 := 10
  const GAP2 := 5
  const LSF_MIN := 40
  const LSF_MAX := 25681
  const MIN_LSF_DISTANCE := 321

  function Sum(q: seq<int>): int {
    if q == [] then 0 else Sum(q[..|q| - 1]) + q[|q| - 1]
  }

  predicate Within(q: seq<int>, lo: int, hi: int) {
    forall i :: 0 <= i < |q| ==> lo <= q[i] <= hi
  }

  predicate Sorted(q: seq<int>) {
    forall i, j :: 0 <= i < j < |q| ==> q[i] <= q[j]
  }

  // ----- rearrangement -----

  // Half of what the pair (q[i-1], q[i]) lacks to be `gap` apart, on 16 bits.
  function Lack(q: seq<int>, i: nat, gap: int): int
    requires 1 <= i < |q|
  {
    Div(Wrap16(Wrap16(q[i - 1] - q[i]) + gap), 2)
  }

  function Part(q: seq<int>, i: nat, gap: int): seq<int>
    requires 1 <= i < |q|
  {
    var delta := Lack(q, i, gap);
    if delta > 0 then q[i - 1 := Wrap16(q[i - 1] - delta)][i := Wrap16(q[i] + delta)] else q
  }

  function RearrangedFrom(q: seq<int>, i: nat, gap: int): (r: seq<int>)
    requires i >= 1
    ensures |r| == |q|
    decreases |q| - i
  {
    if i < |q| then RearrangedFrom(Part(q, i, gap), i + 1, gap) else q
  }

  function Rearranged(q: seq<int>, gap: int): (r: seq<int>)
    ensures |r| == |q|
  {
    RearrangedFrom(q, 1, gap)
  }

  method RearrangeCoefficients(q: array<int>, gap: int)
    modifies q
    ensures q[..] == Rearranged(old(q[..]), gap)
  {
    var i := 1;
    while i < q.Length
      invariant 1 <= i
      invariant RearrangedFrom(q[..], i, gap) == Rearranged(old(q[..]), gap)
    {
      ghost var was := q[..];
      var delta := Div(Wrap16(Wrap16(q[i - 1] - q[i]) + gap), 2);
      if delta > 0 {
        q[i - 1] := Wrap16(q[i - 1] - delta);
        q[i] := Wrap16(q[i] + delta);
      }
      assert q[..] == Part(was, i, gap);
      i := i + 1;
    }
  }

  lemma {:induction false} SumUpdate(q: seq<int>, i: nat, v: int)
    requires i < |q|
    ensures Sum(q[i := v]) == Sum(q) - q[i] + v
  {
    var n := |q| - 1;
    if i == n {
      assert q[i := v][..n] == q[..n];
    } else {
      assert q[i := v][..n] == q[..n][i := v];
      SumUpdate(q[..n], i, v);
    }
  }

  // Room left so that no difference or step of the pass leaves 16 bits.
  predicate RoomToRearrange(lo: int, hi: int, gap: nat) {
    -0x8000 <= lo - gap && hi + gap <= 0x7fff && hi - lo + 2 * gap <= 0x7fff
  }

  // What the pass keeps about the pair it is at and everything around it.
  predicate Ahead(q: seq<int>, i: nat, gap: nat, lo: int, hi: int) {
    && 1 <= i
    && (forall j :: 0 <= j < i - 1 && j < |q| ==> lo - gap <= q[j] <= hi + gap)
    && (i <= |q| ==> lo <= q[i - 1] <= hi + gap)
    && (forall j :: i <= j < |q| ==> lo <= q[j] <= hi)
  }

  // One pair: nothing wraps, and both halves stay within the widened bounds.
  lemma PairStep(a: int, b: int, gap: nat, lo: int, hi: int)
    requires RoomToRearrange(lo, hi, gap) && lo <= a <= hi + gap && lo <= b <= hi
    ensures var delta := Div(Wrap16(Wrap16(a - b) + gap), 2);
      delta > 0 ==>
        && Wrap16(a - delta) == a - delta >= lo - gap
        && lo <= b + delta == Wrap16(b + delta) <= hi + gap
  {
    assert Wrap16(a - b) == a - b;
    assert Wrap16(a - b + gap) == a - b + gap;
    var delta := Div(a - b + gap, 2);
    if delta > 0 {
      assert 2 * delta <= a - b + gap;
      assert lo - gap <= a - delta <= hi + gap && lo <= b + delta <= hi + gap;
    }
  }

  lemma PartIsMove(q: seq<int>, i: nat, gap: nat, lo: int, hi: int) returns (d: nat)
    requires 1 <= i < |q| && RoomToRearrange(lo, hi, gap) && Ahead(q, i, gap, lo, hi)
    ensures Part(q, i, gap) == q[i - 1 := q[i - 1] - d][i := q[i] + d]
    ensures d == if q[i - 1] - q[i] + gap > 0 then (q[i - 1] - q[i] + gap) / 2 else 0
    ensures lo - gap <= q[i - 1] - d && q[i] + d <= hi + gap
  {
    PairStep(q[i - 1], q[i], gap, lo, hi);
    d := if Lack(q, i, gap) > 0 then Lack(q, i, gap) else 0;
  }

  lemma MoveKeepsSum(q: seq<int>, i: nat, d: nat)
    requires 1 <= i < |q|
    ensures Sum(q[i - 1 := q[i - 1] - d][i := q[i] + d]) == Sum(q)
  {
    var p := q[i - 1 := q[i - 1] - d];
    SumUpdate(q, i - 1, q[i - 1] - d);
    SumUpdate(p, i, q[i] + d);
  }

  lemma PartStep(q: seq<int>, i: nat, gap: nat, lo: int, hi: int)
    requires 1 <= i < |q| && RoomToRearrange(lo, hi, gap) && Ahead(q, i, gap, lo, hi)
    ensures var p := Part(q, i, gap);
      && |p| == |q|
      && Ahead(p, i + 1, gap, lo, hi)
      && Sum(p) == Sum(q)
      && p[i - 1] <= q[i - 1] && p[i] >= q[i]
      && (forall j :: 0 <= j < |q| && j != i && j != i - 1 ==> p[j] == q[j])
  {
    var d := PartIsMove(q, i, gap, lo, hi);
    MoveKeepsSum(q, i, d);
  }

  lemma {:induction false} RearrangedFromFacts(q: seq<int>, i: nat, gap: nat, lo: int, hi: int)
    requires RoomToRearrange(lo, hi, gap) && Ahead(q, i, gap, lo, hi)
    ensures var r := RearrangedFrom(q, i, gap);
      && Sum(r) == Sum(q)
      && Within(r, lo - gap, hi + gap)
      && (forall j :: 0 <= j < i - 1 && j < |q| ==> r[j] == q[j])
      && (i <= |q| ==> r[i - 1] <= q[i - 1])
      && (i < |q| ==> r[|q| - 1] >= q[|q| - 1])
      && (i >= |q| ==> r == q)
    decreases |q| - i
  {
    if i < |q| {
      PartStep(q, i, gap, lo, hi);
      RearrangedFromFacts(Part(q, i, gap), i + 1, gap, lo, hi);
    }
  }

  /** Absent 16 bit overflow the rearrangement only moves weight between neighbours: the sum
      of the coefficients is conserved, the first never rises and the last never drops. */
  lemma RearrangeConserves(q: seq<int>, gap: nat, lo: int, hi: int)
    requires |q| >= 2 && Within(q, lo, hi) && RoomToRearrange(lo, hi, gap)
    ensures var r := Rearranged(q, gap);
      && Sum(r) == Sum(q)
      && r[0] <= q[0] && r[|q| - 1] >= q[|q| - 1]
      && Within(r, lo - gap, hi + gap)
  {
    RearrangedFromFacts(q, 1, gap, lo, hi);
  }

  // The pair at i is far enough apart, in words small enough not to wrap.
  predicate FarEnough(q: seq<int>, i: nat, gap: nat) {
    1 <= i < |q| && q[i] - q[i - 1] >= gap && gap <= 0x100 && -0x1000 <= q[i - 1] && q[i] <= 0x6800
  }

  /** Pairs far enough apart are passed over. */
  lemma {:induction false} FarPairsStay(q: seq<int>, i: nat, k: nat, gap: nat)
    requires 1 <= i <= k <= |q| && forall j :: i <= j < k ==> FarEnough(q, j, gap)
    ensures RearrangedFrom(q, i, gap) == RearrangedFrom(q, k, gap)
    decreases k - i
  {
    if i < k {
      assert FarEnough(q, i, gap);
      assert Part(q, i, gap) == q;
      FarPairsStay(q, i + 1, k, gap);
    }
  }

  // The pair at i is moved apart by d, in words small enough not to wrap.
  predicate Movable(q: seq<int>, i: nat, gap: nat, d: nat) {
    && 1 <= i < |q| && d == Div(q[i - 1] - q[i] + gap, 2) && gap <= 0x100
    && -0x1000 <= q[i - 1] <= 0x6800 && -0x1000 <= q[i] <= 0x6800
  }

  lemma MoveApart(q: seq<int>, i: nat, gap: nat, d: nat)
    requires Movable(q, i, gap, d) && 0 < d <= 0x1000
    ensures RearrangedFrom(q, i, gap) == RearrangedFrom(q[i - 1 := q[i - 1] - d][i := q[i] + d], i + 1, gap)
  {
    assert Lack(q, i, gap) == d;
  }

  // ----- sorting -----

  function Inserted(q: seq<int>, v: int): (r: seq<int>)
    ensures |r| == |q| + 1
  {
    if q == [] || q[|q| - 1] <= v then q + [v]
    else Inserted(q[..|q| - 1], v) + [q[|q| - 1]]
  }

  function InsertionSorted(q: seq<int>): (r: seq<int>)
    ensures |r| == |q|
  {
    if q == [] then [] else Inserted(InsertionSorted(q[..|q| - 1]), q[|q| - 1])
  }

  // Where the element lands: after the last entry not above it, if all later ones are above.
  lemma {:induction false} InsertedAt(s: seq<int>, v: int, j: nat)
    requires j <= |s| && (j > 0 ==> s[j - 1] <= v) && forall k :: j <= k < |s| ==> s[k] > v
    ensures Inserted(s, v) == s[..j] + [v] + s[j..]
  {
    if j < |s| {
      var n := |s| - 1;
      InsertedAt(s[..n], v, j);
      assert s[..n][..j] == s[..j];
      assert s[j..] == s[..n][j..] + [s[n]];
    }
  }

  lemma InsertedIs(s: seq<int>, v: int, j: nat, r: seq<int>)
    requires j <= |s| && (j > 0 ==> s[j - 1] <= v) && forall k :: j <= k < |s| ==> s[k] > v
    requires |r| == |s| + 1 && r[j] == v
    requires (forall k :: 0 <= k < j ==> r[k] == s[k]) && (forall k :: j <= k < |s| ==> r[k + 1] == s[k])
    ensures r == Inserted(s, v)
  {
    InsertedAt(s, v, j);
    var e := s[..j] + [v] + s[j..];
    forall k | 0 <= k < |r| ensures r[k] == e[k] {
      if k > j { assert r[(k - 1) + 1] == s[k - 1]; }
    }
  }

  method InsertionSort(x: array<int>)
    modifies x
    ensures x[..] == InsertionSorted(old(x[..]))
  {
    ghost var input := x[..];
    if x.Length == 0 { return; }
    var i := 1;
    assert input[..1][..0] == [];
    while i < x.Length
      invariant 1 <= i <= x.Length
      invariant x[..i] == InsertionSorted(input[..i])
      invariant forall k :: i <= k < x.Length ==> x[k] == input[k]
    {
      InsertNext(x, i);
      assert input[..i + 1][..i] == input[..i];
      i := i + 1;
    }
    assert x[..] == x[..i] && input == input[..i];
  }

  // The body of the outer loop: slide the larger elements up and drop x[i] in the hole.
  method InsertNext(x: array<int>, i: nat)
    requires i < x.Length
    modifies x
    ensures x[..i + 1] == Inserted(old(x[..i]), old(x[i]))
    ensures forall k :: i < k < x.Length ==> x[k] == old(x[k])
  {
    ghost var s := x[..i];
    var currentValue := x[i];
    var j := i - 1;
    while j >= 0 && x[j] > currentValue
      invariant -1 <= j < i
      invariant forall k :: 0 <= k <= j ==> x[k] == s[k]
      invariant forall k :: j + 1 <= k < i ==> x[k + 1] == s[k] > currentValue
      invariant forall k :: i < k < x.Length ==> x[k] == old(x[k])
    {
      x[j + 1] := x[j];
      j := j - 1;
    }
    x[j + 1] := currentValue;
    InsertedIs(s, currentValue, j + 1, x[..i + 1]);
  }

  lemma SortedAppend(q: seq<int>, x: int)
    requires Sorted(q) && (q != [] ==> q[|q| - 1] <= x)
    ensures Sorted(q + [x])
  {
    if q != [] {
      assert forall i :: 0 <= i < |q| ==> q[i] <= q[|q| - 1];
    }
  }

  lemma {:induction false} InsertedSorted(q: seq<int>, v: int)
    requires Sorted(q)
    ensures Sorted(Inserted(q, v))
    ensures Inserted(q, v)[|q|] == if q != [] && q[|q| - 1] > v then q[|q| - 1] else v
  {
    if q != [] && q[|q| - 1] > v {
      InsertedSorted(q[..|q| - 1], v);
      SortedAppend(Inserted(q[..|q| - 1], v), q[|q| - 1]);
    } else {
      SortedAppend(q, v);
    }
  }

  lemma {:induction false} InsertedKeeps(q: seq<int>, v: int)
    ensures multiset(Inserted(q, v)) == multiset(q) + multiset{v}
  {
    if q != [] {
      InsertedKeeps(q[..|q| - 1], v);
      assert q == q[..|q| - 1] + [q[|q| - 1]];
    }
  }

  lemma {:induction false} SortKeepsAll(q: seq<int>)
    ensures multiset(InsertionSorted(q)) == multiset(q)
  {
    if q != [] {
      SortKeepsAll(q[..|q| - 1]);
      InsertedKeeps(InsertionSorted(q[..|q| - 1]), q[|q| - 1]);
      assert q == q[..|q| - 1] + [q[|q| - 1]];
    }
  }

  lemma {:induction false} SortSorts(q: seq<int>)
    ensures Sorted(InsertionSorted(q))
  {
    if q != [] {
      SortSorts(q[..|q| - 1]);
      InsertedSorted(InsertionSorted(q[..|q| - 1]), q[|q| - 1]);
    }
  }

  /** The sort returns the sorted permutation of its input. */
  lemma SortIsSortedPermutation(q: seq<int>)
    ensures Sorted(InsertionSorted(q)) && multiset(InsertionSorted(q)) == multiset(q)
  {
    SortSorts(q);
    SortKeepsAll(q);
  }

  lemma SortKeepsBounds(q: seq<int>, lo: int, hi: int)
    requires Within(q, lo, hi)
    ensures Within(InsertionSorted(q), lo, hi)
  {
    SortIsSortedPermutation(q);
    var r := InsertionSorted(q);
    forall i | 0 <= i < |r| ensures lo <= r[i] <= hi {
      assert r[i] in multiset(r);
      assert r[i] in multiset(q);
    }
  }

  // ----- stability pass -----

  // One step of the pass: the next coefficient is lifted to the minimum distance if needed.
  function Lifted(q: seq<int>, i: nat): (r: seq<int>)
    requires i + 1 < |q|
    ensures |r| == |q|
  {
    if q[i + 1] - q[i] < MIN_LSF_DISTANCE then q[i + 1 := Wrap16(q[i] + MIN_LSF_DISTANCE)] else q
  }

  function SpacedFrom(q: seq<int>, i: nat): (r: seq<int>)
    ensures |r| == |q|
    decreases |q| - i
  {
    if i + 1 < |q| then SpacedFrom(Lifted(q, i), i + 1) else q
  }

  // The source tests the lower limit on the second coefficient, not on the first.
  function FloorSecond(q: seq<int>): (r: seq<int>)
    requires |q| >= 2
    ensures |r| == |q|
  {
    if q[1] < LSF_MIN then q[1 := LSF_MIN] else q
  }

  function ClampLast(q: seq<int>): (r: seq<int>)
    requires |q| >= 1
    ensures |r| == |q|
  {
    if q[|q| - 1] > LSF_MAX then q[|q| - 1 := LSF_MAX] else q
  }

  function Stable(q: seq<int>): (r: seq<int>)
    requires |q| >= 2
    ensures |r| == |q|
  {
    ClampLast(SpacedFrom(FloorSecond(InsertionSorted(q)), 0))
  }

  method Stabilise(x: array<int>)
    requires x.Length >= 2
    modifies x
    ensures x[..] == Stable(old(x[..]))
  {
    InsertionSort(x);
    ghost var sorted := x[..];
    if x[1] < LSF_MIN {
      x[1] := LSF_MIN;
    }
    ghost var floored := x[..];
    assert floored == FloorSecond(sorted);
    var i := 0;
    while i < x.Length - 1
      invariant 0 <= i <= x.Length - 1
      invariant SpacedFrom(x[..], i) == SpacedFrom(floored, 0)
    {
      ghost var was := x[..];
      if x[i + 1] - x[i] < MIN_LSF_DISTANCE {
        x[i + 1] := Wrap16(x[i] + MIN_LSF_DISTANCE);
      }
      assert x[..] == Lifted(was, i);
      i := i + 1;
    }
    ghost var spaced := x[..];
    if x[x.Length - 1] > LSF_MAX {
      x[x.Length - 1] := LSF_MAX;
    }
    assert x[..] == ClampLast(spaced);
  }

  predicate Spaced(q: seq<int>, from: nat, to: nat) {
    forall i :: from <= i && i + 1 < to && i + 1 < |q| ==> q[i + 1] - q[i] >= MIN_LSF_DISTANCE
  }

  // Room left so that no coefficient is pushed out of 16 bits by the ones below it.
  predicate RoomToSpace(q: seq<int>, i: nat) {
    && (i < |q| ==> q[i] + (|q| - 1 - i) * MIN_LSF_DISTANCE <= 0x7fff)
    && (forall j :: i < j < |q| ==> q[j] + (|q| - 1 - j) * MIN_LSF_DISTANCE <= 0x7fff)
    && (forall j :: i <= j < |q| ==> q[j] >= -0x8000)
  }

  lemma LiftedFacts(q: seq<int>, i: nat)
    requires i + 1 < |q| && RoomToSpace(q, i) && Spaced(q, 0, i + 1)
    ensures RoomToSpace(Lifted(q, i), i + 1) && Spaced(Lifted(q, i), 0, i + 2)
    ensures Lifted(q, i)[i + 1] == if q[i + 1] - q[i] < MIN_LSF_DISTANCE then q[i] + MIN_LSF_DISTANCE else q[i + 1]
  {
    assert Wrap16(q[i] + MIN_LSF_DISTANCE) == q[i] + MIN_LSF_DISTANCE;
  }

  lemma {:induction false} SpacedFromKeeps(q: seq<int>, i: nat)
    requires RoomToSpace(q, i) && Spaced(q, 0, i + 1)
    ensures var r := SpacedFrom(q, i);
      && (forall j :: 0 <= j < |q| ==> r[j] >= q[j])
      && (forall j :: 0 <= j <= i && j < |q| ==> r[j] == q[j])
    decreases |q| - i
  {
    if i + 1 < |q| {
      LiftedFacts(q, i);
      SpacedFromKeeps(Lifted(q, i), i + 1);
    }
  }

  lemma {:induction false} SpacedFromSpaces(q: seq<int>, i: nat)
    requires RoomToSpace(q, i) && Spaced(q, 0, i + 1)
    ensures Spaced(SpacedFrom(q, i), 0, |q|)
    decreases |q| - i
  {
    if i + 1 < |q| {
      LiftedFacts(q, i);
      SpacedFromSpaces(Lifted(q, i), i + 1);
    }
  }

  lemma SpacedFromFacts(q: seq<int>, i: nat)
    requires RoomToSpace(q, i) && Spaced(q, 0, i + 1)
    ensures var r := SpacedFrom(q, i);
      && Spaced(r, 0, |q|)
      && (forall j :: 0 <= j < |q| ==> r[j] >= q[j])
      && (forall j :: 0 <= j <= i && j < |q| ==> r[j] == q[j])
  {
    SpacedFromSpaces(q, i);
    SpacedFromKeeps(q, i);
  }

  // No vector above the input with the required gaps is anywhere below the result.
  lemma {:induction false} SpacedFromIsBelow(q: seq<int>, i: nat, t: seq<int>)
    requires RoomToSpace(q, i) && Spaced(q, 0, i + 1)
    requires |t| == |q| && Spaced(t, 0, |q|) && forall j :: 0 <= j < |q| ==> t[j] >= q[j]
    ensures forall j :: 0 <= j < |q| ==> SpacedFrom(q, i)[j] <= t[j]
    decreases |q| - i
  {
    if i + 1 < |q| {
      LiftedFacts(q, i);
      SpacedFromIsBelow(Lifted(q, i), i + 1, t);
    }
  }

  /** The distance pass yields the pointwise least vector above its input whose neighbours
      are at least MIN_LSF_DISTANCE apart. */
  lemma SpacingIsLeast(q: seq<int>, t: seq<int>)
    requires RoomToSpace(q, 0)
    requires |t| == |q| && Spaced(t, 0, |q|) && forall j :: 0 <= j < |q| ==> t[j] >= q[j]
    ensures var r := SpacedFrom(q, 0);
      && Spaced(r, 0, |q|)
      && forall j :: 0 <= j < |q| ==> q[j] <= r[j] <= t[j]
  {
    SpacedFromFacts(q, 0);
    SpacedFromIsBelow(q, 0, t);
  }

  // A vector with entries in [-0x8000, hi] has room when the top entry pushed n-1 times still fits.
  lemma BoundedHasRoom(q: seq<int>, hi: int)
    requires Within(q, -0x8000, hi) && hi + |q| * MIN_LSF_DISTANCE <= 0x7fff
    ensures RoomToSpace(q, 0)
  {}

  lemma SortedFirstIsLeast(q: seq<int>)
    requires q != []
    ensures var s := InsertionSorted(q); s[0] in q && forall v :: v in q ==> s[0] <= v
  {
    SortIsSortedPermutation(q);
    var s := InsertionSorted(q);
    assert s[0] in multiset(q);
    forall v | v in q ensures s[0] <= v {
      assert v in multiset(s);
    }
  }

  lemma FlooredFacts(q: seq<int>, hi: int)
    requires |q| >= 2 && Within(q, -0x8000, hi) && hi >= LSF_MIN
    ensures var f := FloorSecond(InsertionSorted(q));
      && Within(f, -0x8000, hi) && f[1] >= LSF_MIN
      && f[0] in q && (forall v :: v in q ==> f[0] <= v)
  {
    SortedFirstIsLeast(q);
    SortKeepsBounds(q, -0x8000, hi);
  }

  /** After stabilisation every coefficient but the last keeps the minimum distance to its
      predecessor, and the last is at most LSF_MAX.  The top clamp takes the last gap away
      exactly when the coefficient before it ends above LSF_MAX - MIN_LSF_DISTANCE. */
  lemma StableIsSpaced(q: seq<int>, hi: int)
    requires |q| >= 2 && Within(q, -0x8000, hi) && hi >= LSF_MIN && hi + |q| * MIN_LSF_DISTANCE <= 0x7fff
    ensures var r := Stable(q);
      && Spaced(r, 0, |q| - 1)
      && r[|q| - 1] <= LSF_MAX
      && (Spaced(r, 0, |q|) <==> r[|q| - 2] <= LSF_MAX - MIN_LSF_DISTANCE)
  {
    FlooredFacts(q, hi);
    var f := FloorSecond(InsertionSorted(q));
    BoundedHasRoom(f, hi);
    SpacedFromFacts(f, 0);
    var sp, r, n := SpacedFrom(f, 0), Stable(q), |q|;
    assert forall i :: 0 <= i < n - 1 ==> r[i] == sp[i];
    assert sp[n - 1] - sp[n - 2] >= MIN_LSF_DISTANCE;
    if Spaced(r, 0, n) {
      assert r[(n - 2) + 1] - r[n - 2] >= MIN_LSF_DISTANCE;
    }
  }

  /** The lower limit is enforced on the second coefficient only: the first one leaves the
      stability pass at or above LSF_MIN exactly when no input coefficient was below it. */
  lemma LowLimitHoldsIff(q: seq<int>, hi: int)
    requires |q| >= 2 && Within(q, -0x8000, hi) && hi >= LSF_MIN && hi + |q| * MIN_LSF_DISTANCE <= 0x7fff
    ensures Stable(q)[0] >= LSF_MIN <==> forall v :: v in q ==> v >= LSF_MIN
    ensures Stable(q)[1] >= LSF_MIN
  {
    FlooredFacts(q, hi);
    var f := FloorSecond(InsertionSorted(q));
    BoundedHasRoom(f, hi);
    SpacedFromFacts(f, 0);
    assert Stable(q)[0] == f[0];
  }
}
