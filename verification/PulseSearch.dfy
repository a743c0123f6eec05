/** The algebraic codebook search: nested loops that keep the best correlation-to-energy ratio by
    cross multiplication, once for each order of the tracks and each place of the last pulse. */
module PulseSearch {
  import opened Common
  import opened FixedPoint
  import opened Phi
  import opened Autocorrelation
  import FixedCodeword

  predicate OnTrack(j: int, track: int) { 0 <= j < L_SUBFRAME && j % TRACKS == track }

  // Absolute correlations, normalised to 13 bits and a sign; rounding down a negative one can give 8192.
  predicate IsTarget(d: seq<int>) { |d| == L_SUBFRAME && forall j :: 0 <= j < L_SUBFRAME ==> 0 <= d[j] <= 8192 }

  // ----- ratios -----

  datatype Ratio = Ratio(square: int, energy: int)

  const START := Ratio(-1, 1)

  predicate AtLeast(a: Ratio, b: Ratio) { a.square * b.energy >= b.square * a.energy }

  lemma AtLeastTransitive(a: Ratio, b: Ratio, c: Ratio)
    requires a.energy > 0 && b.energy > 0 && c.energy > 0 && AtLeast(a, b) && AtLeast(b, c)
    ensures AtLeast(a, c)
  {
    var x, y, z := a.square * c.energy, b.square * c.energy, c.square * a.energy;
    MulMono(b.square * a.energy, a.square * b.energy, c.energy);
    MulMono(c.square * b.energy, b.square * c.energy, a.energy);
    assert b.square * a.energy * c.energy == b.square * c.energy * a.energy;
    assert a.square * b.energy * c.energy == x * b.energy;
    assert c.square * b.energy * a.energy == z * b.energy;
    if x < z { MulStrict(x, z, b.energy); }
  }

  lemma MulStrict(x: int, z: int, m: int)
    requires x < z && m > 0
    ensures x * m < z * m
  {
    MulMono(x + 1, z, m);
    assert (x + 1) * m == x * m + m;
  }

  // ----- correlation and energy of pulses -----

  // The correlation matrix, only read here.
  predicate IsTable(phi: seq<seq<int>>) {
    |phi| == L_SUBFRAME && forall i :: 0 <= i < L_SUBFRAME ==> |phi[i]| == L_SUBFRAME
  }

  // Sums of target values on 16 bits.
  function C2(x: int, y: int): int { Wrap16(x + y) }

  function C4(c2: int, x: int, y: int): int { Wrap16(Wrap16(c2 + x) + y) }

  function E2(phi: seq<seq<int>>, a: nat, b: nat): int
    requires IsTable(phi) && a < L_SUBFRAME && b < L_SUBFRAME
  {
    Wrap32(phi[a][a] + Wrap32(phi[a][b] + phi[b][b]))
  }

  function E3(e2: int, phi: seq<seq<int>>, m2: nat, m3: nat, i: nat): int
    requires IsTable(phi) && m2 < L_SUBFRAME && m3 < L_SUBFRAME && i < L_SUBFRAME
  {
    Wrap32(e2 + Wrap32(phi[i][i] + Wrap32(phi[i][m2] + phi[i][m3])))
  }

  function E4(e3: int, phi: seq<seq<int>>, m2: nat, m3: nat, i: nat, j: nat): int
    requires IsTable(phi) && m2 < L_SUBFRAME && m3 < L_SUBFRAME && i < L_SUBFRAME && j < L_SUBFRAME
  {
    Wrap32(e3 + Wrap32(phi[j][i] + Wrap32(phi[j][j] + Wrap32(phi[j][m2] + phi[j][m3]))))
  }

  function QuadEnergy(phi: seq<seq<int>>, m2: nat, m3: nat, i: nat, j: nat): int
    requires IsTable(phi) && m2 < L_SUBFRAME && m3 < L_SUBFRAME && i < L_SUBFRAME && j < L_SUBFRAME
  {
    E4(E3(E2(phi, m2, m3), phi, m2, m3, i), phi, m2, m3, i, j)
  }

  // The ratio of a pair and of a quadruple, as the search computes them.
  function Pair(d: seq<int>, phi: seq<seq<int>>, a: nat, b: nat): Ratio
    requires |d| == L_SUBFRAME && IsTable(phi) && a < L_SUBFRAME && b < L_SUBFRAME
  {
    var c := C2(d[a], d[b]);
    Ratio(Wrap32(c * c), E2(phi, a, b))
  }

  function Quad(d: seq<int>, phi: seq<seq<int>>, m2: nat, m3: nat, i: nat, j: nat): Ratio
    requires |d| == L_SUBFRAME && IsTable(phi) && m2 < L_SUBFRAME && m3 < L_SUBFRAME && i < L_SUBFRAME && j < L_SUBFRAME
  {
    var c := C4(C2(d[m2], d[m3]), d[i], d[j]);
    Ratio(Wrap32(c * c), QuadEnergy(phi, m2, m3, i, j))
  }

  // Every energy the search can meet is positive.
  predicate Positive(phi: seq<seq<int>>)
    requires IsTable(phi)
  {
    && (forall a, b {:trigger E2(phi, a, b)} :: 0 <= a < L_SUBFRAME && 0 <= b < L_SUBFRAME && OffTrack(a, b) ==> E2(phi, a, b) > 0)
    && (forall a, b, i, j {:trigger QuadEnergy(phi, a, b, i, j)} :: 0 <= a < L_SUBFRAME && 0 <= b < L_SUBFRAME && 0 <= i < L_SUBFRAME && 0 <= j < L_SUBFRAME
          && OffTrack(a, b) && OffTrack(a, i) && OffTrack(a, j) && OffTrack(b, i) && OffTrack(b, j) && OffTrack(i, j)
          ==> QuadEnergy(phi, a, b, i, j) > 0)
  }

  // Squares are what they should be: a sum of four that wraps still has its own square.
  lemma PairSquare(x: int, y: int)
    requires 0 <= x <= 8192 && 0 <= y <= 8192
    ensures C2(x, y) == x + y && Wrap32(C2(x, y) * C2(x, y)) == (x + y) * (x + y) >= 0
  {
    SquareFits(x + y);
  }

  lemma QuadSquare(c2: int, x: int, y: int)
    requires 0 <= c2 <= 0x4000 && 0 <= x <= 8192 && 0 <= y <= 8192
    ensures var c, sum := C4(c2, x, y), c2 + x + y; Wrap32(c * c) == sum * sum >= 0
  {
    QuadWraps(c2, x, y);
    SquareFits(c2 + x + y);
    if c2 + x + y == 0x8000 { NegativeSquare(0x8000); }
  }

  lemma NegativeSquare(x: int)
    ensures (-x) * (-x) == x * x
  {}

  lemma QuadWraps(c2: int, x: int, y: int)
    requires 0 <= c2 <= 0x4000 && 0 <= x <= 8192 && 0 <= y <= 8192
    ensures var c := C4(c2, x, y); c == c2 + x + y || (c == -0x8000 && c2 + x + y == 0x8000)
  {}

  lemma SquareFits(x: int)
    requires 0 <= x <= 0x8000
    ensures 0 <= x * x <= 0x40000000 && Wrap32(x * x) == x * x
  {
    MulMono(x, 0x8000, x);
    MulMono(x, 0x8000, 0x8000);
  }

  // ----- the loops -----

  // The largest target value on a track, one position left out.
  method LargestOnTrack(d: seq<int>, track: nat, taken: int) returns (m: nat)
    requires IsTarget(d) && track < TRACKS
    ensures OnTrack(m, track) && m != taken
    ensures forall j :: OnTrack(j, track) && j != taken ==> d[j] <= d[m]
  {
    m := 0;
    var largest := -1;
    var j := track;
    while j < L_SUBFRAME
      invariant track <= j < L_SUBFRAME + TRACKS && j % TRACKS == track
      invariant largest >= 0 ==> OnTrack(m, track) && m != taken && d[m] == largest
      invariant largest >= -1 && (j >= track + 2 * TRACKS ==> largest >= 0)
      invariant j == track + TRACKS && largest < 0 ==> taken == track
      invariant forall k :: OnTrack(k, track) && k != taken && k < j ==> d[k] <= largest
    {
      if d[j] > largest && j != taken {
        m := j;
        largest := d[j];
      }
      j := j + TRACKS;
    }
  }

  // The best so far and where it was found.
  datatype Best = Best(ratio: Ratio, a: nat, b: nat)

  // Keep the better of two; cross multiplication runs on 64 bits and cannot overflow.
  method Keep(previous: Best, ratio: Ratio, a: nat, b: nat) returns (best: Best)
    requires previous.ratio.energy > 0 && ratio.energy > 0
    ensures best.ratio.energy > 0 && AtLeast(best.ratio, previous.ratio) && AtLeast(best.ratio, ratio)
    ensures best == previous || best == Best(ratio, a, b)
    ensures previous.ratio == START && ratio.square >= 0 ==> best == Best(ratio, a, b)
  {
    if previous.ratio.energy * ratio.square > ratio.energy * previous.ratio.square {
      best := Best(ratio, a, b);
    } else {
      best := previous;
    }
  }

  // Ratios of a whole track that a running best can be compared with.
  ghost predicate Comparable(track: nat, ratio: nat --> Ratio) {
    forall j: nat :: OnTrack(j, track) ==> ratio.requires(j) && ratio(j).energy > 0 && ratio(j).square >= 0
  }

  // At least every ratio on the track, up to a position.
  ghost predicate Tops(best: Ratio, track: nat, ratio: nat --> Ratio, to: nat)
    requires Comparable(track, ratio)
  {
    forall k: nat :: OnTrack(k, track) && k < to ==> AtLeast(best, ratio(k))
  }

  lemma StillTops(best: Ratio, previous: Ratio, track: nat, ratio: nat --> Ratio, to: nat)
    requires Comparable(track, ratio) && best.energy > 0 && previous.energy > 0
    requires AtLeast(best, previous) && Tops(previous, track, ratio, to)
    ensures Tops(best, track, ratio, to)
  {
    forall k: nat | OnTrack(k, track) && k < to ensures AtLeast(best, ratio(k)) {
      AtLeastTransitive(best, previous, ratio(k));
    }
  }

  // Try every position of a track after one fixed position.
  method TryTrack(a: nat, track: nat, ratio: nat --> Ratio, previous: Best) returns (best: Best)
    requires track < TRACKS && Comparable(track, ratio) && previous.ratio.energy > 0
    ensures best.ratio.energy > 0 && AtLeast(best.ratio, previous.ratio)
    ensures Tops(best.ratio, track, ratio, L_SUBFRAME)
    ensures best == previous || (best.a == a && OnTrack(best.b, track) && best.ratio == ratio(best.b))
    ensures previous.ratio == START ==> best.a == a && OnTrack(best.b, track) && best.ratio == ratio(best.b)
  {
    best := previous;
    var j := track;
    while j < L_SUBFRAME
      invariant track <= j < L_SUBFRAME + TRACKS && j % TRACKS == track
      invariant best.ratio.energy > 0 && AtLeast(best.ratio, previous.ratio)
      invariant Tops(best.ratio, track, ratio, j)
      invariant best == previous || (best.a == a && OnTrack(best.b, track) && best.ratio == ratio(best.b))
      invariant previous.ratio == START && j > track ==> best.a == a && OnTrack(best.b, track) && best.ratio == ratio(best.b)
    {
      var next := Keep(best, ratio(j), a, j);
      StillTops(next.ratio, best.ratio, track, ratio, j);
      AtLeastTransitive(next.ratio, best.ratio, previous.ratio);
      best := next;
      j := j + TRACKS;
    }
  }

  // ----- the search, for any ratios of pairs and of quadruples -----

  // pairs(m2, m3) and quads(m2, m3, m0, m1).
  datatype Ratios = Ratios(pairs: (nat, nat) --> Ratio, quads: (nat, nat, nat, nat) --> Ratio)

  predicate AllApart(m2: nat, m3: nat, i: nat, j: nat) {
    && m2 < L_SUBFRAME && m3 < L_SUBFRAME && i < L_SUBFRAME && j < L_SUBFRAME
    && OffTrack(m2, m3) && OffTrack(m2, i) && OffTrack(m2, j) && OffTrack(m3, i) && OffTrack(m3, j) && OffTrack(i, j)
  }

  // Defined everywhere, with positive energies between different tracks.
  ghost predicate Usable(r: Ratios) {
    && (forall a: nat, b: nat :: a < L_SUBFRAME && b < L_SUBFRAME ==> r.pairs.requires(a, b))
    && (forall a: nat, b: nat :: a < L_SUBFRAME && b < L_SUBFRAME && OffTrack(a, b) ==> r.pairs(a, b).energy > 0 && r.pairs(a, b).square >= 0)
    && (forall a: nat, b: nat, i: nat, j: nat :: a < L_SUBFRAME && b < L_SUBFRAME && i < L_SUBFRAME && j < L_SUBFRAME ==> r.quads.requires(a, b, i, j))
    && (forall a: nat, b: nat, i: nat, j: nat :: AllApart(a, b, i, j) ==> r.quads(a, b, i, j).energy > 0 && r.quads(a, b, i, j).square >= 0)
  }

  lemma TracksDiffer(i: int, j: int)
    requires i % TRACKS != j % TRACKS
    ensures OffTrack(i, j) && OffTrack(j, i)
  {}

  // The two largest target values of a track, the first one first.
  ghost predicate Largest(d: seq<int>, track: nat, first: nat, second: nat)
    requires |d| == L_SUBFRAME
  {
    && OnTrack(first, track) && OnTrack(second, track) && first != second
    && (forall j :: OnTrack(j, track) ==> d[j] <= d[first])
    && (forall j :: OnTrack(j, track) && j != first ==> d[j] <= d[second])
  }

  // The pair found is a best one among the two largest of one track and all of another.
  ghost predicate BestPair(d: seq<int>, r: Ratios, t2: nat, t3: nat, m2: nat, m3: nat, first: nat, second: nat)
    requires |d| == L_SUBFRAME && Usable(r)
  {
    && Largest(d, t2, first, second)
    && (m2 == first || m2 == second) && OnTrack(m3, t3)
    && forall j: nat :: OnTrack(j, t3) ==> AtLeast(r.pairs(m2, m3), r.pairs(first, j)) && AtLeast(r.pairs(m2, m3), r.pairs(second, j))
  }

  lemma PairsComparable(r: Ratios, a: nat, track: nat)
    requires Usable(r) && a < L_SUBFRAME && track < TRACKS && a % TRACKS != track
    ensures Comparable(track, (j: nat) requires j < L_SUBFRAME => r.pairs(a, j))
  {
    forall j: nat | OnTrack(j, track) ensures r.pairs(a, j).energy > 0 && r.pairs(a, j).square >= 0 {
      TracksDiffer(a, j);
    }
  }

  /** First stage: two candidates on one track, each with the eight of another. */
  method SearchPair(d: seq<int>, r: Ratios, t2: nat, t3: nat) returns (m2: nat, m3: nat)
    requires IsTarget(d) && Usable(r) && 1 <= t2 < TRACKS && t3 < TRACKS && t2 != t3
    ensures exists first, second :: BestPair(d, r, t2, t3, m2, m3, first, second)
  {
    var one := LargestOnTrack(d, t2, 0);
    PairsComparable(r, one, t3);
    var ones := (j: nat) requires j < L_SUBFRAME && r.pairs.requires(one, j) => r.pairs(one, j);
    var best := TryTrack(one, t3, ones, Best(START, 0, 0));
    var two := LargestOnTrack(d, t2, one);
    PairsComparable(r, two, t3);
    var twos := (j: nat) requires j < L_SUBFRAME && r.pairs.requires(two, j) => r.pairs(two, j);
    var last := TryTrack(two, t3, twos, best);
    StillTops(last.ratio, best.ratio, t3, ones, L_SUBFRAME);
    m2, m3 := last.a, last.b;
    forall j: nat | OnTrack(j, t3)
      ensures AtLeast(r.pairs(m2, m3), r.pairs(one, j)) && AtLeast(r.pairs(m2, m3), r.pairs(two, j))
    {
      assert AtLeast(last.ratio, ones(j)) && AtLeast(last.ratio, twos(j));
    }
    assert BestPair(d, r, t2, t3, m2, m3, one, two);
  }

  // The tracks of the second stage are none of the first stage's.
  predicate FourTracks(m2: nat, m3: nat, t0: nat, t1: nat) {
    && t0 < TRACKS && t1 < TRACKS && t0 != t1 && m2 < L_SUBFRAME && m3 < L_SUBFRAME && OffTrack(m2, m3)
    && m2 % TRACKS != t0 && m2 % TRACKS != t1 && m3 % TRACKS != t0 && m3 % TRACKS != t1
  }

  lemma FourTracksApart(m2: nat, m3: nat, t0: nat, t1: nat, i: nat, j: nat)
    requires FourTracks(m2, m3, t0, t1) && OnTrack(i, t0) && OnTrack(j, t1)
    ensures AllApart(m2, m3, i, j)
  {
    TracksDiffer(m2, i);
    TracksDiffer(m3, i);
    TracksDiffer(m2, j);
    TracksDiffer(m3, j);
    TracksDiffer(i, j);
  }

  lemma NextOnTrack(k: int, i: int, track: int)
    requires OnTrack(k, track) && OnTrack(i, track) && i <= k < i + TRACKS
    ensures k == i
  {}

  // At least every quadruple whose third position is k.
  ghost predicate RowTops(best: Ratio, r: Ratios, m2: nat, m3: nat, k: nat, t1: nat)
    requires Usable(r) && m2 < L_SUBFRAME && m3 < L_SUBFRAME && k < L_SUBFRAME
  {
    forall j: nat :: OnTrack(j, t1) ==> AtLeast(best, r.quads(m2, m3, k, j))
  }

  // The rows of a track before row `to`.
  ghost predicate RowsTop(best: Ratio, r: Ratios, m2: nat, m3: nat, t0: nat, t1: nat, to: nat)
    requires Usable(r) && m2 < L_SUBFRAME && m3 < L_SUBFRAME
  {
    forall k: nat :: OnTrack(k, t0) && k < to ==> RowTops(best, r, m2, m3, k, t1)
  }

  lemma RowsStillTop(next: Ratio, best: Ratio, r: Ratios, m2: nat, m3: nat, t0: nat, t1: nat, i: nat)
    requires Usable(r) && FourTracks(m2, m3, t0, t1) && OnTrack(i, t0)
    requires next.energy > 0 && best.energy > 0 && AtLeast(next, best)
    requires RowsTop(best, r, m2, m3, t0, t1, i) && RowTops(next, r, m2, m3, i, t1)
    ensures RowsTop(next, r, m2, m3, t0, t1, i + TRACKS)
  {
    forall k: nat | OnTrack(k, t0) && k < i + TRACKS ensures RowTops(next, r, m2, m3, k, t1) {
      if k < i {
        forall j: nat | OnTrack(j, t1) ensures AtLeast(next, r.quads(m2, m3, k, j)) {
          FourTracksApart(m2, m3, t0, t1, k, j);
          AtLeastTransitive(next, best, r.quads(m2, m3, k, j));
        }
      } else {
        NextOnTrack(k, i, t0);
      }
    }
  }

  // The best so far is the ratio of a quadruple on the two tracks.
  ghost predicate IsQuad(best: Best, r: Ratios, m2: nat, m3: nat, t0: nat, t1: nat)
    requires Usable(r) && m2 < L_SUBFRAME && m3 < L_SUBFRAME
  {
    OnTrack(best.a, t0) && OnTrack(best.b, t1) && best.ratio == r.quads(m2, m3, best.a, best.b)
  }

  // One row of the 64 pairs.
  method TryRow(r: Ratios, m2: nat, m3: nat, t0: nat, t1: nat, i: nat, previous: Best) returns (best: Best)
    requires Usable(r) && FourTracks(m2, m3, t0, t1) && OnTrack(i, t0) && previous.ratio.energy > 0
    ensures best.ratio.energy > 0 && AtLeast(best.ratio, previous.ratio) && RowTops(best.ratio, r, m2, m3, i, t1)
    ensures best == previous || IsQuad(best, r, m2, m3, t0, t1)
    ensures previous.ratio == START ==> IsQuad(best, r, m2, m3, t0, t1)
  {
    var row := (j: nat) requires j < L_SUBFRAME && r.quads.requires(m2, m3, i, j) => r.quads(m2, m3, i, j);
    forall j: nat | OnTrack(j, t1) ensures row(j).energy > 0 && row(j).square >= 0 {
      FourTracksApart(m2, m3, t0, t1, i, j);
    }
    best := TryTrack(i, t1, row, previous);
    forall j: nat | OnTrack(j, t1) ensures AtLeast(best.ratio, r.quads(m2, m3, i, j)) {
      assert AtLeast(best.ratio, row(j));
    }
  }

  method NextRow(r: Ratios, m2: nat, m3: nat, t0: nat, t1: nat, i: nat, previous: Best) returns (best: Best)
    requires Usable(r) && FourTracks(m2, m3, t0, t1) && OnTrack(i, t0) && previous.ratio.energy > 0
    requires RowsTop(previous.ratio, r, m2, m3, t0, t1, i)
    requires previous.ratio == START || IsQuad(previous, r, m2, m3, t0, t1)
    ensures best.ratio.energy > 0 && IsQuad(best, r, m2, m3, t0, t1) && RowsTop(best.ratio, r, m2, m3, t0, t1, i + TRACKS)
  {
    best := TryRow(r, m2, m3, t0, t1, i, previous);
    RowsStillTop(best.ratio, previous.ratio, r, m2, m3, t0, t1, i);
  }

  ghost predicate BestQuad(r: Ratios, m2: nat, m3: nat, t0: nat, t1: nat, m0: nat, m1: nat)
    requires Usable(r) && m2 < L_SUBFRAME && m3 < L_SUBFRAME
  {
    && OnTrack(m0, t0) && OnTrack(m1, t1)
    && forall i: nat, j: nat :: OnTrack(i, t0) && OnTrack(j, t1) ==> AtLeast(r.quads(m2, m3, m0, m1), r.quads(m2, m3, i, j))
  }

  /** Second stage: with two positions fixed, all 64 pairs of the two remaining tracks. */
  method SearchQuad(r: Ratios, m2: nat, m3: nat, t0: nat, t1: nat) returns (best: Best)
    requires Usable(r) && FourTracks(m2, m3, t0, t1)
    ensures BestQuad(r, m2, m3, t0, t1, best.a, best.b)
    ensures best.ratio == r.quads(m2, m3, best.a, best.b) && best.ratio.energy > 0 && best.ratio.square >= 0
  {
    best := Best(START, 0, 0);
    RowsBefore(START, r, m2, m3, t0, t1);
    var i := t0;
    while i < L_SUBFRAME
      invariant OnItsTrack(i, t0)
      invariant best.ratio.energy > 0 && RowsTop(best.ratio, r, m2, m3, t0, t1, i)
      invariant if i == t0 then best.ratio == START else IsQuad(best, r, m2, m3, t0, t1)
    {
      NextStep(i, t0);
      best := NextRow(r, m2, m3, t0, t1, i, best);
      i := i + TRACKS;
    }
    AllRowsTop(best, r, m2, m3, t0, t1, i);
  }

  predicate OnItsTrack(i: int, track: int) { track <= i && i % TRACKS == track }

  lemma NextStep(i: int, track: int)
    requires OnItsTrack(i, track)
    ensures OnItsTrack(i + TRACKS, track) && (i < L_SUBFRAME ==> OnTrack(i, track))
  {}

  lemma RowsBefore(best: Ratio, r: Ratios, m2: nat, m3: nat, t0: nat, t1: nat)
    requires Usable(r) && FourTracks(m2, m3, t0, t1)
    ensures RowsTop(best, r, m2, m3, t0, t1, t0) && OnItsTrack(t0, t0)
  {}

  lemma AllRowsTop(best: Best, r: Ratios, m2: nat, m3: nat, t0: nat, t1: nat, to: nat)
    requires Usable(r) && FourTracks(m2, m3, t0, t1) && to >= L_SUBFRAME
    requires IsQuad(best, r, m2, m3, t0, t1) && RowsTop(best.ratio, r, m2, m3, t0, t1, to)
    ensures BestQuad(r, m2, m3, t0, t1, best.a, best.b) && best.ratio.energy > 0 && best.ratio.square >= 0
  {
    FourTracksApart(m2, m3, t0, t1, best.a, best.b);
    forall k: nat, j: nat | OnTrack(k, t0) && OnTrack(j, t1) ensures AtLeast(best.ratio, r.quads(m2, m3, k, j)) {
      assert RowTops(best.ratio, r, m2, m3, k, t1);
    }
  }

  // ----- the four runs -----

  // One run: the track of the last pulse and the order of the tracks, the two largest of the
  // first track, the positions found and their ratio.
  datatype Run = Run(base: nat, order: nat, first: nat, second: nat, m2: nat, m3: nat, m0: nat, m1: nat, ratio: Ratio)

  // The four tracks in the order in which the run treats them.
  function TrackOf(base: nat, order: nat, stage: nat): nat
    requires order < 2 && stage < 4
  {
    if order == 0 then (if stage == 0 then 2 else if stage == 1 then base else if stage == 2 then 0 else 1)
    else (if stage == 0 then base else if stage == 1 then 0 else if stage == 2 then 1 else 2)
  }

  // Run k of the four, as the two outer loops count: both stages found a best candidate.
  ghost predicate IsKth(d: seq<int>, r: Ratios, run: Run, k: nat)
    requires |d| == L_SUBFRAME && Usable(r)
  {
    && 3 <= run.base <= 4 && run.order < 2 && 2 * (run.base - 3) + run.order == k
    && BestPair(d, r, TrackOf(run.base, run.order, 0), TrackOf(run.base, run.order, 1), run.m2, run.m3, run.first, run.second)
    && BestQuad(r, run.m2, run.m3, TrackOf(run.base, run.order, 2), TrackOf(run.base, run.order, 3), run.m0, run.m1)
    && run.ratio == r.quads(run.m2, run.m3, run.m0, run.m1)
  }

  // The pulse positions in the order of their tracks, with the choice of the last track.
  datatype Found = Found(i0: nat, i1: nat, i2: nat, i3: nat, jx: nat)

  // The pulses at these positions with the signs of the target there.
  function Signed(f: Found, sign: seq<int>): FixedCodeword.Pulses
    requires AreSigns(sign) && f.i0 < L_SUBFRAME && f.i1 < L_SUBFRAME && f.i2 < L_SUBFRAME && f.i3 < L_SUBFRAME
  {
    FixedCodeword.Pulses(f.i0, f.i1, f.i2, f.i3, f.jx, sign[f.i0] > 0, sign[f.i1] > 0, sign[f.i2] > 0, sign[f.i3] > 0)
  }

  predicate OnTracks(f: Found) {
    FixedCodeword.OnTracks(FixedCodeword.Pulses(f.i0, f.i1, f.i2, f.i3, f.jx, true, true, true, true))
  }

  function FoundBy(run: Run): Found
    requires run.base >= 3
  {
    if run.order == 0 then Found(run.m0, run.m1, run.m2, run.m3, run.base - 3)
    else Found(run.m3, run.m0, run.m1, run.m2, run.base - 3)
  }

  predicate Sound(run: Run) {
    run.base >= 3 && OnTracks(FoundBy(run)) && run.ratio.energy > 0 && run.ratio.square >= 0
  }

  lemma StagesApart(base: nat, order: nat, m2: nat, m3: nat)
    requires 3 <= base <= 4 && order < 2 && OnTrack(m2, TrackOf(base, order, 0)) && OnTrack(m3, TrackOf(base, order, 1))
    ensures FourTracks(m2, m3, TrackOf(base, order, 2), TrackOf(base, order, 3))
  {
    TracksDiffer(m2, m3);
  }

  method SearchRun(d: seq<int>, r: Ratios, base: nat, order: nat) returns (ratio: Ratio, found: Found, ghost run: Run)
    requires IsTarget(d) && Usable(r) && 3 <= base <= 4 && order < 2
    ensures IsKth(d, r, run, 2 * (base - 3) + order) && Sound(run)
    ensures ratio == run.ratio && found == FoundBy(run)
  {
    var m2, m3 := SearchPair(d, r, TrackOf(base, order, 0), TrackOf(base, order, 1));
    ghost var first, second :| BestPair(d, r, TrackOf(base, order, 0), TrackOf(base, order, 1), m2, m3, first, second);
    StagesApart(base, order, m2, m3);
    var best := SearchQuad(r, m2, m3, TrackOf(base, order, 2), TrackOf(base, order, 3));
    ratio := best.ratio;
    found := if order == 0 then Found(best.a, best.b, m2, m3, base - 3) else Found(m3, best.a, best.b, m2, base - 3);
    run := Run(base, order, first, second, m2, m3, best.a, best.b, best.ratio);
  }

  // What the outer loops keep: the best of the runs so far.
  predicate Leads(runs: seq<Run>, chosen: nat, max: Ratio, f: Found) {
    && max.energy > 0
    && (forall l :: 0 <= l < |runs| ==> Sound(runs[l]) && AtLeast(max, runs[l].ratio))
    && (runs == [] ==> max == START)
    && (runs != [] ==> chosen < |runs| && f == FoundBy(runs[chosen]) && max == runs[chosen].ratio)
  }

  method TakeBetter(ghost runs: seq<Run>, ghost run: Run, chosen: nat, max: Ratio, f: Found, ratio: Ratio, found: Found, index: nat)
    returns (chosen': nat, max': Ratio, f': Found)
    requires Leads(runs, chosen, max, f) && Sound(run) && run.ratio == ratio && found == FoundBy(run) && index == |runs|
    ensures Leads(runs + [run], chosen', max', f')
  {
    if max.energy * ratio.square > ratio.energy * max.square {
      forall l | 0 <= l < |runs| ensures AtLeast(ratio, runs[l].ratio) {
        AtLeastTransitive(ratio, max, runs[l].ratio);
      }
      chosen', max', f' := index, ratio, found;
    } else {
      chosen', max', f' := chosen, max, f;
    }
  }

  /** The search makes four runs.  In each, both stages find a true maximum of C^2/E among their
      candidates; the result is a run whose ratio is at least that of all four, with one pulse on
      each of the tracks 0, 1, 2 and 3 + jx. */
  method Search(d: seq<int>, r: Ratios) returns (f: Found, ghost runs: seq<Run>, ghost chosen: nat)
    requires IsTarget(d) && Usable(r)
    ensures |runs| == 4 && forall k :: 0 <= k < 4 ==> IsKth(d, r, runs[k], k)
    ensures chosen < 4 && Sound(runs[chosen]) && f == FoundBy(runs[chosen]) && OnTracks(f)
    ensures forall k :: 0 <= k < 4 ==> AtLeast(runs[chosen].ratio, runs[k].ratio)
  {
    runs := [];
    f := Found(0, 0, 0, 0, 0);
    var max, best := START, 0;
    for base := 3 to 5
      invariant |runs| == 2 * (base - 3) && Leads(runs, best, max, f)
      invariant forall k :: 0 <= k < |runs| ==> IsKth(d, r, runs[k], k)
    {
      for order := 0 to 2
        invariant |runs| == 2 * (base - 3) + order && Leads(runs, best, max, f)
        invariant forall k :: 0 <= k < |runs| ==> IsKth(d, r, runs[k], k)
      {
        ghost var run: Run;
        var ratio, found;
        ratio, found, run := SearchRun(d, r, base, order);
        best, max, f := TakeBetter(runs, run, best, max, f, ratio, found, 2 * (base - 3) + order);
        runs := runs + [run];
      }
    }
    chosen := best;
  }

  // ----- with the ratios of the codec -----

  predicate IsSearch(d: seq<int>, phi: seq<seq<int>>) { IsTarget(d) && IsTable(phi) && Positive(phi) }

  function RatiosOf(d: seq<int>, phi: seq<seq<int>>): Ratios
    requires |d| == L_SUBFRAME && IsTable(phi)
  {
    Ratios((a: nat, b: nat) requires a < L_SUBFRAME && b < L_SUBFRAME => Pair(d, phi, a, b),
           (a: nat, b: nat, i: nat, j: nat) requires a < L_SUBFRAME && b < L_SUBFRAME && i < L_SUBFRAME && j < L_SUBFRAME
             => Quad(d, phi, a, b, i, j))
  }

  /** What a ratio of the search means: the exact square of the sum of the targets. */
  lemma QuadMeans(d: seq<int>, phi: seq<seq<int>>, a: nat, b: nat, i: nat, j: nat)
    requires IsSearch(d, phi) && AllApart(a, b, i, j)
    ensures Quad(d, phi, a, b, i, j).energy > 0
    ensures var sum := d[a] + d[b] + d[i] + d[j]; Quad(d, phi, a, b, i, j).square == sum * sum >= 0
  {
    assert QuadEnergy(phi, a, b, i, j) > 0;
    PairSquare(d[a], d[b]);
    QuadSquare(d[a] + d[b], d[i], d[j]);
  }

  lemma PairMeans(d: seq<int>, phi: seq<seq<int>>, a: nat, b: nat)
    requires IsSearch(d, phi) && a < L_SUBFRAME && b < L_SUBFRAME && OffTrack(a, b)
    ensures Pair(d, phi, a, b).energy > 0 && Pair(d, phi, a, b).square == (d[a] + d[b]) * (d[a] + d[b]) >= 0
  {
    assert E2(phi, a, b) > 0;
    PairSquare(d[a], d[b]);
  }

  lemma RatiosUsable(d: seq<int>, phi: seq<seq<int>>)
    requires IsSearch(d, phi)
    ensures Usable(RatiosOf(d, phi))
  {
    forall a: nat, b: nat | a < L_SUBFRAME && b < L_SUBFRAME && OffTrack(a, b)
      ensures Pair(d, phi, a, b).energy > 0 && Pair(d, phi, a, b).square >= 0
    {
      PairMeans(d, phi, a, b);
    }
    forall a: nat, b: nat, i: nat, j: nat | AllApart(a, b, i, j)
      ensures Quad(d, phi, a, b, i, j).energy > 0 && Quad(d, phi, a, b, i, j).square >= 0
    {
      QuadMeans(d, phi, a, b, i, j);
    }
  }

  /** The search of the codec: four runs of two true maxima each, the best of the four chosen. */
  method FixedCodebookSearch(d: seq<int>, phi: seq<seq<int>>) returns (f: Found, ghost runs: seq<Run>, ghost chosen: nat)
    requires IsSearch(d, phi)
    ensures Usable(RatiosOf(d, phi)) && |runs| == 4 && forall k :: 0 <= k < 4 ==> IsKth(d, RatiosOf(d, phi), runs[k], k)
    ensures chosen < 4 && Sound(runs[chosen]) && f == FoundBy(runs[chosen]) && OnTracks(f)
    ensures forall k :: 0 <= k < 4 ==> AtLeast(runs[chosen].ratio, runs[k].ratio)
  {
    RatiosUsable(d, phi);
    f, runs, chosen := Search(d, RatiosOf(d, phi));
  }

  // The table read is the matrix built for a response and signs.
  predicate Holds(phi: seq<seq<int>>, h: seq<int>, sign: seq<int>, scaling: nat)
    requires IsTable(phi) && |h| == L_SUBFRAME && AreSigns(sign)
  {
    forall i, j :: 0 <= i < L_SUBFRAME && 0 <= j < L_SUBFRAME && (i == j || OffTrack(i, j)) ==> phi[i][j] == Entry(h, sign, scaling, i, j)
  }

  lemma AddFits(x: int, y: int, m: nat, n: nat)
    requires BoundedBy(x, m) && BoundedBy(y, n) && m + n <= MAXINT32
    ensures Wrap32(x + y) == x + y && BoundedBy(x + y, m + n)
  {}

  // Three and four words added as the search adds them.
  lemma TripleAdds(x: int, y: int, z: int, m: nat, n: nat, o: nat)
    requires BoundedBy(x, m) && BoundedBy(y, n) && BoundedBy(z, o) && m + n + o <= MAXINT32
    ensures Wrap32(x + Wrap32(y + z)) == x + y + z && BoundedBy(x + y + z, m + n + o)
  {
    AddFits(y, z, n, o);
    AddFits(x, y + z, m, n + o);
  }

  // The two later steps of the energy: two positions known, then a third, then a fourth.
  lemma StepAdds(e: int, x: int, y: int, z: int, k: nat, m: nat, n: nat, o: nat)
    requires BoundedBy(e, k) && BoundedBy(x, m) && BoundedBy(y, n) && BoundedBy(z, o) && k + m + n + o <= MAXINT32
    ensures Wrap32(e + Wrap32(x + Wrap32(y + z))) == e + x + y + z && BoundedBy(e + x + y + z, k + m + n + o)
  {
    TripleAdds(x, y, z, m, n, o);
    AddFits(e, x + y + z, k, m + n + o);
  }

  lemma LastStepAdds(e: int, w: int, x: int, y: int, z: int, k: nat, l: nat, m: nat, n: nat, o: nat)
    requires BoundedBy(e, k) && BoundedBy(w, l) && BoundedBy(x, m) && BoundedBy(y, n) && BoundedBy(z, o) && k + l + m + n + o <= MAXINT32
    ensures Wrap32(e + Wrap32(w + Wrap32(x + Wrap32(y + z)))) == e + w + x + y + z
  {
    StepAdds(w, x, y, z, l, m, n, o);
    AddFits(e, w + x + y + z, k, l + m + n + o);
  }

  /** On the matrix of the codec the energy of a quadruple is the exact sum of its ten terms: with
      the scaling the rule picks no addition of the search overflows. */
  lemma QuadEnergyExact(phi: seq<seq<int>>, h: seq<int>, sign: seq<int>, a: nat, b: nat, i: nat, j: nat)
    requires IsScalable(h) && AreSigns(sign) && AllApart(a, b, i, j)
    requires IsTable(phi) && Holds(phi, h, sign, ScalingFor(PhiAt(h, 0, 0) / 2))
    ensures QuadEnergy(phi, a, b, i, j) == phi[a][a] + phi[b][b] + phi[a][b] + phi[i][i] + phi[i][a] + phi[i][b]
                                           + phi[j][j] + phi[j][i] + phi[j][a] + phi[j][b]
  {
    var scaling := ScalingFor(PhiAt(h, 0, 0) / 2);
    FourPulsesFit(h, sign, a, b, i, j);
    EntrySymmetric(h, sign, scaling, i, a);
    EntrySymmetric(h, sign, scaling, i, b);
    EntrySymmetric(h, sign, scaling, j, a);
    EntrySymmetric(h, sign, scaling, j, b);
    EntrySymmetric(h, sign, scaling, j, i);
    QuadAdds(phi, a, b, i, j,
             [Abs(phi[a][a]), Abs(phi[a][b]), Abs(phi[b][b]), Abs(phi[i][i]), Abs(phi[i][a]), Abs(phi[i][b]),
              Abs(phi[j][i]), Abs(phi[j][j]), Abs(phi[j][a]), Abs(phi[j][b])]);
  }

  lemma E2Exact(phi: seq<seq<int>>, a: nat, b: nat, m: nat, n: nat, o: nat)
    requires IsTable(phi) && a < L_SUBFRAME && b < L_SUBFRAME && m + n + o <= MAXINT32
    requires BoundedBy(phi[a][a], m) && BoundedBy(phi[a][b], n) && BoundedBy(phi[b][b], o)
    ensures E2(phi, a, b) == phi[a][a] + phi[a][b] + phi[b][b] && BoundedBy(E2(phi, a, b), m + n + o)
  {
    TripleAdds(phi[a][a], phi[a][b], phi[b][b], m, n, o);
  }

  lemma E3Exact(e2: int, phi: seq<seq<int>>, a: nat, b: nat, i: nat, k: nat, m: nat, n: nat, o: nat)
    requires IsTable(phi) && a < L_SUBFRAME && b < L_SUBFRAME && i < L_SUBFRAME && k + m + n + o <= MAXINT32
    requires BoundedBy(e2, k) && BoundedBy(phi[i][i], m) && BoundedBy(phi[i][a], n) && BoundedBy(phi[i][b], o)
    ensures E3(e2, phi, a, b, i) == e2 + phi[i][i] + phi[i][a] + phi[i][b] && BoundedBy(E3(e2, phi, a, b, i), k + m + n + o)
  {
    StepAdds(e2, phi[i][i], phi[i][a], phi[i][b], k, m, n, o);
  }

  lemma E4Exact(e3: int, phi: seq<seq<int>>, a: nat, b: nat, i: nat, j: nat, k: nat, l: nat, m: nat, n: nat, o: nat)
    requires IsTable(phi) && a < L_SUBFRAME && b < L_SUBFRAME && i < L_SUBFRAME && j < L_SUBFRAME && k + l + m + n + o <= MAXINT32
    requires BoundedBy(e3, k) && BoundedBy(phi[j][i], l) && BoundedBy(phi[j][j], m) && BoundedBy(phi[j][a], n) && BoundedBy(phi[j][b], o)
    ensures E4(e3, phi, a, b, i, j) == e3 + phi[j][i] + phi[j][j] + phi[j][a] + phi[j][b]
  {
    LastStepAdds(e3, phi[j][i], phi[j][j], phi[j][a], phi[j][b], k, l, m, n, o);
  }

  // The ten magnitudes in the order of the search.
  lemma QuadAdds(phi: seq<seq<int>>, a: nat, b: nat, i: nat, j: nat, m: seq<nat>)
    requires IsTable(phi) && a < L_SUBFRAME && b < L_SUBFRAME && i < L_SUBFRAME && j < L_SUBFRAME && |m| == 10
    requires BoundedBy(phi[a][a], m[0]) && BoundedBy(phi[a][b], m[1]) && BoundedBy(phi[b][b], m[2])
    requires BoundedBy(phi[i][i], m[3]) && BoundedBy(phi[i][a], m[4]) && BoundedBy(phi[i][b], m[5])
    requires BoundedBy(phi[j][i], m[6]) && BoundedBy(phi[j][j], m[7]) && BoundedBy(phi[j][a], m[8]) && BoundedBy(phi[j][b], m[9])
    requires m[0] + m[1] + m[2] + m[3] + m[4] + m[5] + m[6] + m[7] + m[8] + m[9] <= MAXINT32
    ensures QuadEnergy(phi, a, b, i, j) == phi[a][a] + phi[b][b] + phi[a][b] + phi[i][i] + phi[i][a] + phi[i][b]
                                           + phi[j][j] + phi[j][i] + phi[j][a] + phi[j][b]
  {
    var k2 := m[0] + m[1] + m[2];
    var e2 := E2(phi, a, b);
    E2Exact(phi, a, b, m[0], m[1], m[2]);
    var e3 := E3(e2, phi, a, b, i);
    E3Exact(e2, phi, a, b, i, k2, m[3], m[4], m[5]);
    E4Exact(e3, phi, a, b, i, j, k2 + m[3] + m[4] + m[5], m[6], m[7], m[8], m[9]);
  }
}
