/** The two-stage gain codebook: preselection window, search, index mapping and the gain
    prediction memory, on both sides. */
module GainCodebook {
  import opened FixedPoint

  const MAXINT64 := 0x7fffffffffffffff

  // First column: pitch gain in Q14; second column: fixed gain correction in Q12.
  function GA(i: nat): (int, int)
    requires i < 8
  {
    if i == 0 then (0, 758) else if i == 1 then (1551, 1213) else if i == 2 then (1831, 2511) else if i == 3 then (57, 2702)
    else if i == 4 then (1921, 4646) else if i == 5 then (3242, 4975) else if i == 6 then (356, 7378) else (2678, 13581)
  }

  function GB(i: nat): (int, int)
    requires i < 16
  {
    if i == 0 then (826, 1003) else if i == 1 then (1994, 0) else if i == 2 then (5142, 296) else if i == 3 then (6160, 1197)
    else if i == 4 then (8091, 2431) else if i == 5 then (9120, 263) else if i == 6 then (10573, 1483) else if i == 7 then (11569, 598)
    else if i == 8 then (13260, 1628) else if i == 9 then (14194, 815) else if i == 10 then (15132, 2457) else if i == 11 then (15161, 7138)
    else if i == 12 then (15434, 119) else if i == 13 then (16112, 1696) else if i == 14 then (17299, 931) else (18973, 2968)
  }

  function MapGA(i: nat): nat
    requires i < 8
  {
    if i == 0 then 5 else if i == 1 then 1 else if i == 2 then 4 else if i == 3 then 7
    else if i == 4 then 3 else if i == 5 then 0 else if i == 6 then 6 else 2
  }

  function MapGB(i: nat): nat
    requires i < 16
  {
    if i == 0 then 4 else if i == 1 then 6 else if i == 2 then 0 else if i == 3 then 2
    else if i == 4 then 12 else if i == 5 then 14 else if i == 6 then 8 else if i == 7 then 10
    else if i == 8 then 15 else if i == 9 then 11 else if i == 10 then 9 else if i == 11 then 13
    else if i == 12 then 7 else if i == 13 then 3 else if i == 14 then 1 else 5
  }

  function UnmapGA(i: nat): nat
    requires i < 8
  {
    if i == 0 then 5 else if i == 1 then 1 else if i == 2 then 7 else if i == 3 then 4
    else if i == 4 then 2 else if i == 5 then 0 else if i == 6 then 6 else 3
  }

  function UnmapGB(i: nat): nat
    requires i < 16
  {
    if i == 0 then 2 else if i == 1 then 14 else if i == 2 then 3 else if i == 3 then 13
    else if i == 4 then 0 else if i == 5 then 15 else if i == 6 then 1 else if i == 7 then 12
    else if i == 8 then 6 else if i == 9 then 10 else if i == 10 then 7 else if i == 11 then 9
    else if i == 12 then 4 else if i == 13 then 11 else if i == 14 then 5 else 8
  }

  /** The sent indices name the same codebook entries on both sides. */
  lemma IndexMapsInverse(a: nat, b: nat)
    requires a < 8 && b < 16
    ensures MapGA(a) < 8 && UnmapGA(MapGA(a)) == a && UnmapGA(a) < 8 && MapGA(UnmapGA(a)) == a
    ensures MapGB(b) < 16 && UnmapGB(MapGB(b)) == b && UnmapGB(b) < 16 && MapGB(UnmapGB(b)) == b
  {}

  // ----- preselection -----

  // The bound the best fixed gain is compared with (Q2), from the predicted gain (Q4).
  function GainAt(i: nat, predicted: int): int
    requires i < 8
  {
    Shr(Wrap32(GA(i).1 * predicted), 14)
  }

  // k entries of the ordered stage are below the target, or k is the search limit.
  predicate FirstNotBelowGA(k: nat, best: int, predicted: int) {
    k <= 6 && (forall i :: 0 <= i < k ==> best > GainAt(i, predicted)) && (k < 6 ==> best <= GainAt(k, predicted))
  }

  predicate FirstNotBelowGB(k: nat, best: int) {
    k <= 12 && (forall i :: 0 <= i < k ==> best > GB(i).0 / 32) && (k < 12 ==> best <= GB(k).0 / 32)
  }

  /** The window of four first-stage entries: it starts two entries before the first one that
      reaches the target, as far as there are two, and always lies inside the stage. */
  method PreselectGA(best: int, predicted: int) returns (base: nat)
    ensures exists k: nat :: FirstNotBelowGA(k, best, predicted) && base == if k < 2 then 0 else k - 2
    ensures base + 4 <= 8
  {
    base := 0;
    while base < 6 && best > GainAt(base, predicted)
      invariant 0 <= base <= 6
      invariant forall i :: 0 <= i < base ==> best > GainAt(i, predicted)
    {
      base := base + 1;
    }
    ghost var k := base;
    assert FirstNotBelowGA(k, best, predicted);
    if base > 0 { base := base - 1; }
    if base > 0 { base := base - 1; }
  }

  /** The window of eight second-stage entries, four before the first that reaches the target. */
  method PreselectGB(best: int) returns (base: nat)
    ensures exists k: nat :: FirstNotBelowGB(k, best) && base == if k < 4 then 0 else k - 4
    ensures base + 8 <= 16
  {
    base := 0;
    while base < 12 && best > GB(base).0 / 32
      invariant 0 <= base <= 12
      invariant forall i :: 0 <= i < base ==> best > GB(i).0 / 32
    {
      base := base + 1;
    }
    ghost var k := base;
    assert FirstNotBelowGB(k, best);
    if base > 0 { base := base - 1; }
    if base > 0 { base := base - 1; }
    if base > 0 { base := base - 1; }
    if base > 0 { base := base - 1; }
  }

  lemma FirstStageGrows(i: nat, j: nat)
    requires i <= j < 8
    ensures 0 <= GA(i).1 <= GA(j).1 <= 13581
  {}

  lemma SecondStageGrows(i: nat, j: nat)
    requires i <= j < 16
    ensures GB(i).0 <= GB(j).0
  {}

  lemma GainAtGrows(i: nat, j: nat, predicted: nat)
    requires i <= j < 8 && predicted <= 0x7fff
    ensures GainAt(i, predicted) <= GainAt(j, predicted)
  {
    FirstStageGrows(i, j);
    var x, y := GA(i).1, GA(j).1;
    MulMono(x, y, predicted);
    MulMono(y, 13581, predicted);
    Wrap32Id(x * predicted);
    Wrap32Id(y * predicted);
    DivMono(x * predicted, y * predicted, Pow2(14));
  }

  // No entry of a stage is nearer to the target than some entry of the window.
  predicate Nearer(gain: int, other: int, best: int) { Abs(gain - best) <= Abs(other - best) }

  /** The window of the first stage holds an entry at least as near to the target as any other. */
  lemma NearestInFirstWindow(k: nat, base: nat, best: int, predicted: nat, i: nat)
    requires predicted <= 0x7fff && FirstNotBelowGA(k, best, predicted) && base == (if k < 2 then 0 else k - 2) && i < 8
    ensures exists j :: base <= j < base + 4 && j < 8 && Nearer(GainAt(j, predicted), GainAt(i, predicted), best)
  {
    if i < base {
      GainAtGrows(i, base, predicted);
      assert Nearer(GainAt(base, predicted), GainAt(i, predicted), best);
    } else if i < base + 4 {
      assert Nearer(GainAt(i, predicted), GainAt(i, predicted), best);
    } else {
      GainAtGrows(k, i, predicted);
      assert Nearer(GainAt(k, predicted), GainAt(i, predicted), best);
    }
  }

  /** So does the window of the second stage. */
  lemma NearestInSecondWindow(k: nat, base: nat, best: int, i: nat)
    requires FirstNotBelowGB(k, best) && base == (if k < 4 then 0 else k - 4) && i < 16
    ensures exists j :: base <= j < base + 8 && j < 16 && Nearer(GB(j).0 / 32, GB(i).0 / 32, best)
  {
    if i < base {
      SecondStageGrows(i, base);
      DivMono(GB(i).0, GB(base).0, 32);
      assert Nearer(GB(base).0 / 32, GB(i).0 / 32, best);
    } else if i < base + 8 {
      assert Nearer(GB(i).0 / 32, GB(i).0 / 32, best);
    } else {
      SecondStageGrows(k, i);
      DivMono(GB(k).0, GB(i).0, 32);
      assert Nearer(GB(k).0 / 32, GB(i).0 / 32, best);
    }
  }

  // ----- search -----

  // The normalised scalar products of the target with the two filtered vectors.
  datatype Products = Products(xy: int, yy: int, xz: int, yz: int, zz: int)

  function PitchGain(a: nat, b: nat): int
    requires a < 8 && b < 16
  {
    Wrap16(GA(a).0 + GB(b).0)
  }

  function Correction(a: nat, b: nat): int
    requires a < 8 && b < 16
  {
    Wrap16(GA(a).1 + GB(b).1)
  }

  // The weighted error of a pair of entries, on 64 bits.
  function Distance(a: nat, b: nat, predicted: int, t: Products): int
    requires a < 8 && b < 16
  {
    var gp := PitchGain(a, b);
    var gc := Shr(Wrap32(Correction(a, b) * predicted), 14);
    Wrap64(Wrap32(gp * gp) * t.yy + Wrap32(gc * gc) * t.zz + Wrap32(gp * 16384) * t.xy
           + Wrap32(gc * 16384) * t.xz + Wrap32(gp * gc) * t.yz)
  }

  datatype Pair = Pair(a: nat, b: nat)

  predicate InWindow(p: Pair, baseA: nat, baseB: nat) {
    baseA <= p.a < baseA + 4 && baseB <= p.b < baseB + 8
  }

  // Nothing in the window has a smaller cost.
  ghost predicate IsBest(best: Pair, baseA: nat, baseB: nat, cost: Pair --> int)
    requires forall p :: InWindow(p, baseA, baseB) ==> cost.requires(p)
  {
    InWindow(best, baseA, baseB) && forall p :: InWindow(p, baseA, baseB) ==> cost(best) <= cost(p)
  }

  /** The search returns a pair of the window with the least cost; only when every cost is the
      largest 64 bit value does it keep entry (0, 0). */
  method SearchWindow(baseA: nat, baseB: nat, cost: Pair --> int) returns (best: Pair, found: bool)
    requires forall p :: InWindow(p, baseA, baseB) ==> cost.requires(p)
    ensures found ==> IsBest(best, baseA, baseB, cost)
    ensures !found ==> best == Pair(0, 0)
    ensures found <==> exists p :: InWindow(p, baseA, baseB) && cost(p) < MAXINT64
  {
    best := Pair(0, 0);
    found := false;
    var distanceMin := MAXINT64;
    for i := 0 to 4
      invariant found ==> InWindow(best, baseA, baseB) && distanceMin == cost(best) < MAXINT64
      invariant !found ==> best == Pair(0, 0) && distanceMin == MAXINT64
      invariant forall p :: InWindow(p, baseA, baseB) && p.a < baseA + i ==> distanceMin <= cost(p)
    {
      for j := 0 to 8
        invariant found ==> InWindow(best, baseA, baseB) && distanceMin == cost(best) < MAXINT64
        invariant !found ==> best == Pair(0, 0) && distanceMin == MAXINT64
        invariant forall p :: InWindow(p, baseA, baseB) && p.a < baseA + i ==> distanceMin <= cost(p)
        invariant forall p :: InWindow(p, baseA, baseB) && p.a == baseA + i && p.b < baseB + j ==> distanceMin <= cost(p)
      {
        var p := Pair(i + baseA, j + baseB);
        var acc := cost(p);
        if acc < distanceMin {
          distanceMin := acc;
          best := p;
          found := true;
        }
      }
    }
  }

  // ----- gain prediction memory -----

  const GAIN_HISTORY := 4

  predicate IsGainHistory(h: seq<int>) { |h| == GAIN_HISTORY }

  // 20 log10 of the correction factor in Q10; `log2` is the fixed-point logarithm (Q16).
  function GainError(log2: int -> int, correction: int): int {
    Wrap16(Pshr(Mult16x32(24660, Wrap32(log2(correction) - 786432), 12), 6))
  }

  /** Wherever the logarithm is exact the error is that of the gain in dB: none for a correction of one, and
      6165 in Q10, 6.02 dB, for every doubling. */
  lemma GainErrorIsDecibels(log2: int -> int, correction: int, doublings: int)
    requires -5 <= doublings <= 5 && log2(correction) == (12 + doublings) * 0x10000
    ensures GainError(log2, correction) == 6165 * doublings
  {
    var x := doublings * 0x10000;
    Wrap32Id(x);
    Pow2Table();
    SplitMultiplyIsFloor(24660, x, 12);
    SixDecibels(doublings);
  }

  lemma SixDecibels(n: int)
    requires -5 <= n <= 5
    ensures (24660 * (n * 0x10000)) / 4096 == 394560 * n && Wrap16(Pshr(394560 * n, 6)) == 6165 * n
  {
    assert Pow2(5) == 32 && Pow2(6) == 64;
    assert (394560 * n + 32) / 64 == 6165 * n;
  }

  // Without the macros, from the logarithm above that of one.
  function PlainError(x: int): int { ((24660 * x) / 4096 + 32) / 64 }

  lemma GainErrorIsPlain(log2: int -> int, correction: int)
    requires -0x50000 <= log2(correction) - 786432 <= 0x50000
    ensures GainError(log2, correction) == PlainError(log2(correction) - 786432)
  {
    var x := log2(correction) - 786432;
    Wrap32Id(x);
    Pow2Table();
    SplitMultiplyIsFloor(24660, x, 12);
    RoundsBySix((24660 * x) / 4096);
  }

  lemma RoundsBySix(m: int)
    requires -1972801 <= m <= 1972801
    ensures Wrap16(Pshr(m, 6)) == (m + 32) / 64
  {
    assert Pow2(5) == 32 && Pow2(6) == 64;
    Wrap32Id(m + 32);
  }

  /** And it never falls when the logarithm grows. */
  lemma GainErrorGrows(log2: int -> int, quiet: int, loud: int)
    requires -0x50000 <= log2(quiet) - 786432 <= log2(loud) - 786432 <= 0x50000
    ensures GainError(log2, quiet) <= GainError(log2, loud)
  {
    var x, y := log2(quiet) - 786432, log2(loud) - 786432;
    GainErrorIsPlain(log2, quiet);
    GainErrorIsPlain(log2, loud);
    DivMono(24660 * x, 24660 * y, 4096);
    DivMono((24660 * x) / 4096 + 32, (24660 * y) / 4096 + 32, 64);
  }

  function GainPushed(h: seq<int>, error: int): (r: seq<int>)
    requires IsGainHistory(h)
    ensures IsGainHistory(r)
  {
    [error] + h[..GAIN_HISTORY - 1]
  }

  method ComputeGainPredictionError(log2: int -> int, correction: int, history: array<int>)
    requires history.Length == GAIN_HISTORY
    modifies history
    ensures history[..] == GainPushed(old(history[..]), GainError(log2, correction))
  {
    history[3] := history[2];
    history[2] := history[1];
    history[1] := history[0];
    history[0] := GainError(log2, correction);
  }

  predicate InTables(p: Pair) { p.a < 8 && p.b < 16 }

  // The fixed gain in Q2 that a pair gives on the encoder side, from the predicted gain in Q4.
  function FixedGainQ2(p: Pair, predicted: int): int
    requires InTables(p)
  {
    Shr(Wrap32(Correction(p.a, p.b) * predicted), 14)
  }

  /** Encoder side, from the targets of the two searches to the sent indices and the quantised gains:
      the pair is a best one of a window that lies inside both stages, the gains are the pair's, and
      the memory takes its error. */
  method GainQuantization(log2: int -> int, bestPitch: int, bestFixed: int, predicted: int, t: Products, history: array<int>)
    returns (stage1: nat, stage2: nat, pitchGain: int, fixedGain: int, chosen: Pair, found: bool, baseA: nat, baseB: nat)
    requires history.Length == GAIN_HISTORY
    modifies history
    ensures baseA + 4 <= 8 && baseB + 8 <= 16
    ensures if found then InWindow(chosen, baseA, baseB) else chosen == Pair(0, 0)
    ensures found <==> exists p :: InWindow(p, baseA, baseB) && Distance(p.a, p.b, predicted, t) < MAXINT64
    ensures found ==> forall p :: InWindow(p, baseA, baseB) ==>
      Distance(chosen.a, chosen.b, predicted, t) <= Distance(p.a, p.b, predicted, t)
    ensures InTables(chosen) && stage1 == MapGA(chosen.a) && stage2 == MapGB(chosen.b)
    ensures found ==> pitchGain == PitchGain(chosen.a, chosen.b) && fixedGain == Wrap16(FixedGainQ2(chosen, predicted) / 2)
    ensures history[..] == GainPushed(old(history[..]), GainError(log2, Correction(chosen.a, chosen.b)))
  {
    baseA := PreselectGA(bestFixed, predicted);
    baseB := PreselectGB(bestPitch);
    chosen, found := SearchWindow(baseA, baseB, (p: Pair) requires InTables(p) => Distance(p.a, p.b, predicted, t));
    pitchGain := Wrap16(GA(chosen.a).0 + GB(chosen.b).0);
    var gamma := Wrap16(GA(chosen.a).1 + GB(chosen.b).1);
    fixedGain := Wrap16(Shr(Wrap32(gamma * predicted), 14) / 2);
    ComputeGainPredictionError(log2, Correction(chosen.a, chosen.b), history);
    stage1, stage2 := MapGA(chosen.a), MapGB(chosen.b);
  }

  /** The decoder's fixed gain in Q1 from the predicted gain in Q16: the correction of the received
      entries times the prediction, rounded once after a floor, reduced to 32 and then to 16 bits. */
  method DecodeFixedGain(predicted: int, stage1: nat, stage2: nat) returns (fixedGain: int)
    requires stage1 < 8 && stage2 < 16 && Is32(predicted)
    ensures UnmapGA(stage1) < 8 && UnmapGB(stage2) < 16
    ensures var scaled := (Correction(UnmapGA(stage1), UnmapGB(stage2)) * predicted) / 4096;
      fixedGain == Wrap16(Wrap32(scaled + 0x4000) / 0x8000)
  {
    IndexMapsInverse(stage1, stage2);
    var a, b := UnmapGA(stage1), UnmapGB(stage2);
    var correction := Wrap16(GA(a).1 + GB(b).1);
    Pow2Table();
    SplitMultiplyIsFloor(correction, predicted, 12);
    Wrap32Add((correction * predicted) / 4096, 0x4000);
    fixedGain := Wrap16(Pshr(Mult16x32(correction, predicted, 12), 15));
  }

  /** Decoder side of a received frame. */
  method DecodeGains(log2: int -> int, stage1: nat, stage2: nat, history: array<int>) returns (pitchGain: int)
    requires stage1 < 8 && stage2 < 16 && history.Length == GAIN_HISTORY
    modifies history
    ensures UnmapGA(stage1) < 8 && UnmapGB(stage2) < 16
    ensures pitchGain == PitchGain(UnmapGA(stage1), UnmapGB(stage2))
    ensures history[..] == GainPushed(old(history[..]), GainError(log2, Correction(UnmapGA(stage1), UnmapGB(stage2))))
  {
    IndexMapsInverse(stage1, stage2);
    var a, b := UnmapGA(stage1), UnmapGB(stage2);
    pitchGain := Wrap16(GA(a).0 + GB(b).0);
    ComputeGainPredictionError(log2, Wrap16(GA(a).1 + GB(b).1), history);
  }

  /** One subframe in lockstep: from equal memories, the decoder recovers the encoder's quantised
      pitch gain and both memories are equal again, whichever pair was chosen. */
  lemma SubframeGainLockstep(log2: int -> int, chosen: Pair, h: seq<int>)
    requires chosen.a < 8 && chosen.b < 16 && IsGainHistory(h)
    ensures MapGA(chosen.a) < 8 && MapGB(chosen.b) < 16
    ensures var a, b := UnmapGA(MapGA(chosen.a)), UnmapGB(MapGB(chosen.b));
      && a < 8 && b < 16
      && PitchGain(a, b) == PitchGain(chosen.a, chosen.b)
      && GainPushed(h, GainError(log2, Correction(a, b))) == GainPushed(h, GainError(log2, Correction(chosen.a, chosen.b)))
  {
    IndexMapsInverse(chosen.a, chosen.b);
  }
}
