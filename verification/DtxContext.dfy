/** What noise frames are analysed from: the autocorrelations of the last seven frames, each with its own
    scale, from the state a channel is created in; and which runs of frames make the block sum shift
    a word further than C allows. */
module DtxContext {
  import opened FixedPoint
  import opened Autocorrelation
  import opened BlockFloat
  import opened StepUp
  import opened LpWindow
  import opened LpAnalysis

  const L_FRAME := 80
  const INITIAL_SCALE := 30

  predicate IsFrame(f: seq<int>) { |f| == L_FRAME && Words(f) }

  predicate IsRun(run: seq<seq<int>>) { forall i :: 0 <= i < |run| ==> IsFrame(run[i]) }

  function Silence(n: nat): (s: seq<int>)
    ensures |s| == n && Words(s)
  {
    seq(n, _ => 0)
  }

  // The 240 samples that the analysis of the run's last frame sees.
  function Buffer(run: seq<seq<int>>): (b: seq<int>)
    requires IsRun(run)
    ensures IsBuffer(b)
  {
    if run == [] then Silence(L_LP_ANALYSIS_WINDOW)
    else (Buffer(run[..|run| - 1]) + run[|run| - 1])[L_FRAME..]
  }

  function WindowOf(run: seq<seq<int>>): (w: seq<int>)
    requires IsRun(run)
    ensures IsSignal(w) && |w| == L_LP_ANALYSIS_WINDOW
  {
    Windowed(Buffer(run))
  }

  // The run without its last i frames.
  function Until(run: seq<seq<int>>, i: nat): (r: seq<seq<int>>)
    requires i <= |run|
    ensures IsRun(run) ==> IsRun(r)
  {
    run[..|run| - i]
  }

  // The energy of the frame i frames ago; a frame before the first counts as silent.
  function EnergyAgo(run: seq<seq<int>>, i: nat): (e: int)
    requires IsRun(run)
    ensures e >= 1
  {
    if i >= |run| then 1
    else
      var w := WindowOf(Until(run, i));
      EnergyGrows(w, 0, |w|);
      Floored(Energy(w, |w|))
  }

  function InitialCoefficients(): (r: seq<int>)
    ensures |r| == COEFFICIENTS
  {
    [0x40000000] + Silence(COEFFICIENTS - 1)
  }

  // What is stored of the frame i frames ago.
  ghost predicate IsAgo(run: seq<seq<int>>, i: nat, r: seq<int>, scale: int)
    requires IsRun(run)
  {
    |r| == COEFFICIENTS
    && if i < |run| then IsNormalised(WindowOf(Until(run, i)), scale, r) else r == InitialCoefficients() && scale == INITIAL_SCALE
  }

  // The lists hold the last seven frames, the newest first.
  ghost predicate HoldsLast(run: seq<seq<int>>, coefficients: seq<seq<int>>, scales: seq<int>) {
    && IsRun(run) && |coefficients| == |scales| == MAX_FRAMES
    && forall i :: 0 <= i < MAX_FRAMES ==> IsAgo(run, i, coefficients[i], scales[i])
  }

  lemma UpdateHolds(run: seq<seq<int>>, frame: seq<int>, coefficients: seq<seq<int>>, scales: seq<int>, r: seq<int>, scale: int)
    requires HoldsLast(run, coefficients, scales) && IsFrame(frame) && |r| == COEFFICIENTS
    requires IsNormalised(WindowOf(run + [frame]), scale, r)
    ensures HoldsLast(run + [frame], [r] + coefficients[..MAX_FRAMES - 1], [scale] + scales[..MAX_FRAMES - 1])
  {
    var next := run + [frame];
    assert Until(next, 0) == next;
    var c, sc := [r] + coefficients[..MAX_FRAMES - 1], [scale] + scales[..MAX_FRAMES - 1];
    forall i | 1 <= i < MAX_FRAMES ensures IsAgo(next, i, c[i], sc[i]) {
      assert c[i] == coefficients[i - 1] && sc[i] == scales[i - 1];
      OneMoreAgo(run, frame, i - 1, c[i], sc[i]);
    }
  }

  lemma OneMoreAgo(run: seq<seq<int>>, frame: seq<int>, i: nat, r: seq<int>, scale: int)
    requires IsRun(run) && IsFrame(frame) && IsAgo(run, i, r, scale)
    ensures IsAgo(run + [frame], i + 1, r, scale)
  {
    if i < |run| { assert Until(run + [frame], i + 1) == Until(run, i); }
  }

  // ----- the frames are clear -----

  lemma NormalisedIsClear(w: seq<int>, scale: int, r: seq<int>)
    requires IsSignal(w) && |r| == COEFFICIENTS && IsNormalised(w, scale, r)
    ensures IsClear(r[0], r[1]) && forall i :: 0 <= i < COEFFICIENTS ==> Is32(r[i])
  {
    SignalIsClear(w, scale);
    EnergyGrows(w, 0, |w|);
    forall i | 1 <= i < COEFFICIENTS ensures Is32(r[i]) {
      CorrelationBound(w, i, |w|);
      NormalisedFits(Correlation(w, i, |w|), Floored(Energy(w, |w|)), scale);
    }
  }

  /** Over every run each of the seven frames is clear of r(1) = r(0) and r(1) = -r(0). */
  lemma HeldAreClear(run: seq<seq<int>>, coefficients: seq<seq<int>>, scales: seq<int>, from: nat, to: nat)
    requires HoldsLast(run, coefficients, scales) && from < to <= MAX_FRAMES
    ensures AllClear(coefficients[from..to], scales[from..to])
  {
    forall i | 0 <= i < MAX_FRAMES
      ensures IsClear(coefficients[i][0], coefficients[i][1]) && forall k :: 0 <= k < COEFFICIENTS ==> Is32(coefficients[i][k])
    {
      if i < |run| { NormalisedIsClear(WindowOf(Until(run, i)), scales[i], coefficients[i]); }
    }
  }

  // ----- how far scales can be apart -----

  /** The normalising shift s of a positive energy is the one with 2^(30-s) <= e < 2^(31-s). */
  lemma ScaleIs(e: int, s: int)
    requires 0 < e && s <= 30
    ensures Normalises(e, s) <==> Pow2(30 - s) <= e < Pow2(31 - s)
  {
    Pow2Table();
    Pow2Add(15, 15);
    if s >= 0 {
      Pow2Add(30 - s, s);
      LeftScale(e, Pow2(30 - s), Pow2(31 - s), Pow2(s));
    } else {
      Pow2Add(30, -s);
      QuotientAtLeast(e, 0x40000000, Pow2(-s));
      QuotientAtLeast(e, 0x80000000, Pow2(-s));
      assert Pow2(31 - s) == 2 * Pow2(30 - s);
    }
  }

  lemma LeftScale(e: int, low: nat, high: nat, p: nat)
    requires p >= 1 && high == 2 * low && low * p == 0x40000000
    ensures 0x40000000 <= e * p < 0x80000000 <==> low <= e < high
  {
    ProductAtLeast(e, low, p);
    ProductAtLeast(e, high, p);
    assert high * p == 2 * (low * p);
  }

  lemma ProductAtLeast(e: int, x: int, p: nat)
    requires p >= 1
    ensures e * p >= x * p <==> e >= x
  {
    if e >= x { MulMono(x, e, p); } else { MulMono(e + 1, x, p); }
  }

  lemma QuotientAtLeast(e: int, x: int, p: nat)
    requires p >= 1
    ensures e / p >= x <==> e >= x * p
  {
    var q := e / p;
    assert q * p <= e < q * p + p;
    if q >= x { MulMono(x, q, p); } else { MulMono(q + 1, x, p); }
  }

  /** A signal of 240 words has a scale of -7 to 30. */
  lemma ScaleRange(w: seq<int>, s: int)
    requires IsSignal(w) && Normalises(Floored(Energy(w, |w|)), s)
    ensures -7 <= s <= 30
  {
    var e := Floored(Energy(w, |w|));
    EnergyLimit(w, |w|);
    Pow2Table();
    Pow2Add(15, 15);
    Pow2Add(15, 16);
    Pow2Add(30, 8);
    if s > 30 {
      Pow2Mono(31, s);
      MulMono(1, e, Pow2(s));
    } else if s < -7 {
      ScaleIs(e, s);
      Pow2Mono(38, 30 - s);
    }
  }

  /** Over every run each scale is the normalising shift of its frame's energy; a frame before the first
      has the scale of a silent one. */
  lemma HeldScales(run: seq<seq<int>>, coefficients: seq<seq<int>>, scales: seq<int>, i: nat)
    requires HoldsLast(run, coefficients, scales) && i < MAX_FRAMES
    ensures -7 <= scales[i] <= 30 && Normalises(EnergyAgo(run, i), scales[i])
  {
    if i < |run| {
      ScaleRange(WindowOf(Until(run, i)), scales[i]);
    } else {
      ScaleIs(1, INITIAL_SCALE);
      assert Pow2(0) == 1 && Pow2(1) == 2;
    }
  }

  // e is 32 doublings above f: the power k + 1 lies above f, and 31 doublings more are not above e.
  predicate FarAbove(e: int, f: int, k: nat) { e >= Pow2(k + 32) && f < Pow2(k + 1) }

  ghost predicate Comparable(e: int, f: int) {
    !exists k: nat :: FarAbove(e, f, k)
  }

  lemma ComparableIff(e: int, f: int, s: int, t: int)
    requires 0 < e && 0 < f && -7 <= s <= 30 && -7 <= t <= 30 && Normalises(e, s) && Normalises(f, t)
    ensures Comparable(e, f) <==> t - s <= 31
  {
    ScaleIs(e, s);
    ScaleIs(f, t);
    if t - s <= 31 {
      forall k: nat ensures !FarAbove(e, f, k) { NotFarAbove(e, f, 30 - s, 30 - t, k); }
    } else {
      Pow2Mono(62 - t, 30 - s);
      assert FarAbove(e, f, 30 - t);
    }
  }

  lemma NotFarAbove(e: int, f: int, i: nat, j: nat, k: nat)
    requires i - j <= 31 && e < Pow2(i + 1) && Pow2(j) <= f
    ensures !FarAbove(e, f, k)
  {
    if i + 1 <= k + 32 { Pow2Mono(i + 1, k + 32); } else { Pow2Mono(k + 1, j); }
  }

  ghost predicate AllComparable(run: seq<seq<int>>, from: nat, to: nat)
    requires IsRun(run)
  {
    forall i, j :: from <= i < to && from <= j < to ==> Comparable(EnergyAgo(run, i), EnergyAgo(run, j))
  }

  /** Over every run, for any block of the frames held: all shifts of the block sum stay below 32 if and
      only if the energies of the block's frames are comparable. */
  lemma ShiftsFitIff(run: seq<seq<int>>, coefficients: seq<seq<int>>, scales: seq<int>, from: nat, to: nat, least: int)
    requires HoldsLast(run, coefficients, scales) && from < to <= MAX_FRAMES && IsLeast(least, scales[from..to])
    ensures Spread(scales[from..to], least) <==> AllComparable(run, from, to)
  {
    var block := scales[from..to];
    SpreadIff(block, least);
    forall i, j | from <= i < to && from <= j < to
      ensures Comparable(EnergyAgo(run, i), EnergyAgo(run, j)) <==> block[j - from] - block[i - from] <= 31
    {
      HeldScales(run, coefficients, scales, i);
      HeldScales(run, coefficients, scales, j);
      ComparableIff(EnergyAgo(run, i), EnergyAgo(run, j), scales[i], scales[j]);
    }
    if AllComparable(run, from, to) {
      forall j, i | 0 <= j < |block| && 0 <= i < |block| ensures block[j] - block[i] <= 31 {
        assert Comparable(EnergyAgo(run, i + from), EnergyAgo(run, j + from));
      }
    }
  }

  lemma EnergyBelow(run: seq<seq<int>>, i: nat)
    requires IsRun(run)
    ensures EnergyAgo(run, i) < Pow2(38)
  {
    Pow2Table();
    Pow2Add(15, 15);
    Pow2Add(30, 8);
    if i < |run| { EnergyLimit(WindowOf(Until(run, i)), L_LP_ANALYSIS_WINDOW); }
  }

  /** Frames with an energy of at least 64 are always comparable. */
  lemma EnergeticIsComparable(run: seq<seq<int>>, from: nat, to: nat)
    requires IsRun(run) && forall i :: from <= i < to ==> EnergyAgo(run, i) >= 64
    ensures AllComparable(run, from, to)
  {
    forall i, j | from <= i < to && from <= j < to ensures Comparable(EnergyAgo(run, i), EnergyAgo(run, j)) {
      EnergyBelow(run, i);
      EnergeticPair(EnergyAgo(run, i), EnergyAgo(run, j));
    }
  }

  lemma EnergeticPair(e: int, f: int)
    requires e < Pow2(38) && f >= 64
    ensures Comparable(e, f)
  {
    assert Pow2(6) == 64;
    var i, j := 37, 6;
    forall k: nat ensures !FarAbove(e, f, k) { NotFarAbove(e, f, i, j, k); }
  }

  /** Beside a frame from before the start, or a silent one, exactly the frames with an energy below 2^32
      are comparable. */
  lemma BesideSilenceIff(run: seq<seq<int>>, from: nat, to: nat, silent: nat)
    requires IsRun(run) && from <= silent < to && EnergyAgo(run, silent) == 1
    ensures AllComparable(run, from, to) <==> forall i :: from <= i < to ==> EnergyAgo(run, i) < Pow2(32)
  {
    forall i | from <= i < to && EnergyAgo(run, i) >= Pow2(32) ensures !Comparable(EnergyAgo(run, i), EnergyAgo(run, silent)) {
      FarAboveOne(EnergyAgo(run, i));
    }
    if !AllComparable(run, from, to) {
      var i, j :| from <= i < to && from <= j < to && !Comparable(EnergyAgo(run, i), EnergyAgo(run, j));
      var k: nat :| FarAbove(EnergyAgo(run, i), EnergyAgo(run, j), k);
      Pow2Mono(32, k + 32);
    }
  }

  lemma FarAboveOne(e: int)
    requires e >= Pow2(32)
    ensures !Comparable(e, 1)
  {
    assert Pow2(1) == 2;
    assert FarAbove(e, 1, 0);
  }

  // ----- a run that shifts too far -----

  const LOUD_SAMPLE := 0x3000

  predicate IsLoud(f: seq<int>) { forall i :: 0 <= i < |f| ==> Abs(f[i]) >= LOUD_SAMPLE }

  lemma BufferStep(before: seq<seq<int>>, f: seq<int>, run: seq<seq<int>>)
    requires IsRun(before) && IsFrame(f) && run == before + [f]
    ensures IsRun(run) && Buffer(run) == (Buffer(before) + f)[L_FRAME..]
  {
    assert run[..|run| - 1] == before;
  }

  // Three loud frames fill the buffer.
  lemma LoudBuffer(run: seq<seq<int>>)
    requires IsRun(run) && |run| == 3 && forall i :: 0 <= i < 3 ==> IsLoud(run[i])
    ensures IsLoud(Buffer(run))
  {
    var one, two := [run[0]], [run[0], run[1]];
    BufferStep([], run[0], one);
    BufferStep(one, run[1], two);
    BufferStep(two, run[2], run);
    forall j | 0 <= j < L_LP_ANALYSIS_WINDOW ensures Abs(Buffer(run)[j]) >= LOUD_SAMPLE {
      if j < 80 { assert Buffer(run)[j] == run[0][j]; }
      else if j < 160 { assert Buffer(run)[j] == run[1][j - 80]; }
      else { assert Buffer(run)[j] == run[2][j - 160]; }
    }
  }

  // The weights of the window's high part.
  lemma HighWeights(j: nat)
    requires 160 <= j < 210
    ensures Wlp(j) >= 28000
  {}

  lemma LoudSample(x: int, j: nat)
    requires Is16(x) && Abs(x) >= LOUD_SAMPLE && 160 <= j < 210
    ensures WindowedAt(x, j) * WindowedAt(x, j) >= 100000000
  {
    HighWeights(j);
    var p := Wlp(j);
    if x > 0 {
      MulMono(LOUD_SAMPLE, x, p);
      MulMono(28000, p, LOUD_SAMPLE);
    } else {
      MulMono(x, -LOUD_SAMPLE, p);
      MulMono(28000, p, LOUD_SAMPLE);
      assert (-LOUD_SAMPLE) * p == -(LOUD_SAMPLE * p);
    }
    var y: nat := Abs(WindowedAt(x, j));
    assert y >= 10000;
    MulMono(10000, y, y);
    MulMono(10000, y, 10000);
  }

  lemma {:induction false} EnergyFrom(w: seq<int>, l: nat, m: nat, square: nat)
    requires l <= m <= |w| && forall j :: l <= j < m ==> w[j] * w[j] >= square
    ensures Energy(w, m) >= (m - l) * square
  {
    if l < m {
      EnergyFrom(w, l, m - 1, square);
      assert (m - l) * square == (m - 1 - l) * square + square;
    } else {
      EnergyGrows(w, 0, m);
    }
  }

  lemma LoudEnergy(run: seq<seq<int>>)
    requires IsRun(run) && |run| == 3 && forall i :: 0 <= i < 3 ==> IsLoud(run[i])
    ensures var w := WindowOf(run); Energy(w, |w|) >= 0x1_0000_0000
  {
    var b, w := Buffer(run), WindowOf(run);
    LoudBuffer(run);
    forall j | 160 <= j < 210 ensures w[j] * w[j] >= 100000000 { LoudSample(b[j], j); }
    EnergyFrom(w, 160, 210, 100000000);
    EnergyGrows(w, 210, |w|);
  }

  lemma LoudAgo(run: seq<seq<int>>)
    requires IsRun(run) && |run| >= 3 && forall i :: 0 <= i < 3 ==> IsLoud(run[i])
    ensures EnergyAgo(run, |run| - 3) >= Pow2(32)
  {
    var three := Until(run, |run| - 3);
    assert three == run[..3];
    LoudEnergy(three);
    Pow2Table();
    Pow2Add(16, 16);
  }

  /** A channel that starts with three loud frames: while a frame from before the start is among the six
      past ones, at the fourth frame to the sixth, the sum over them shifts by 32 bits or more. */
  lemma LoudStartShiftsTooFar(run: seq<seq<int>>, coefficients: seq<seq<int>>, scales: seq<int>, least: int)
    requires HoldsLast(run, coefficients, scales) && 4 <= |run| <= 6 && IsLeast(least, scales[1..MAX_FRAMES])
    requires forall i :: 0 <= i < 3 ==> IsLoud(run[i])
    ensures !Spread(scales[1..MAX_FRAMES], least)
  {
    LoudAgo(run);
    ShiftsFitIff(run, coefficients, scales, 1, MAX_FRAMES, least);
    BesideSilenceIff(run, 1, MAX_FRAMES, MAX_FRAMES - 1);
  }

  // ----- the context -----

  /** The encoder's signal buffer and the frames of its DTX context. */
  class AnalysisContext {
    const signalBuffer: array<int>
    const autocorrelationCoefficients: array<seq<int>>
    const autocorrelationCoefficientsScale: array<int>
    ghost var run: seq<seq<int>>

    ghost predicate Valid()
      reads this, signalBuffer, autocorrelationCoefficients, autocorrelationCoefficientsScale
    {
      && signalBuffer.Length == L_LP_ANALYSIS_WINDOW && signalBuffer != autocorrelationCoefficientsScale
      && autocorrelationCoefficients.Length == autocorrelationCoefficientsScale.Length == MAX_FRAMES
      && HoldsLast(run, autocorrelationCoefficients[..], autocorrelationCoefficientsScale[..])
      && signalBuffer[..L_LP_ANALYSIS_WINDOW - L_FRAME] == Buffer(run)[L_FRAME..]
    }

    constructor ()
      ensures Valid() && run == []
      ensures fresh(signalBuffer) && fresh(autocorrelationCoefficients) && fresh(autocorrelationCoefficientsScale)
    {
      signalBuffer := new int[L_LP_ANALYSIS_WINDOW](_ => 0);
      autocorrelationCoefficients := new seq<int>[MAX_FRAMES](_ => InitialCoefficients());
      autocorrelationCoefficientsScale := new int[MAX_FRAMES](_ => INITIAL_SCALE);
      run := [];
      new;
      assert signalBuffer[..L_LP_ANALYSIS_WINDOW - L_FRAME] == Silence(L_LP_ANALYSIS_WINDOW)[L_FRAME..];
    }

    // The six newest frames move on by one, the last first.
    method UpdateDTXContext(r: seq<int>, scale: int)
      requires autocorrelationCoefficients.Length == autocorrelationCoefficientsScale.Length == MAX_FRAMES
      modifies autocorrelationCoefficients, autocorrelationCoefficientsScale
      ensures autocorrelationCoefficients[..] == [r] + old(autocorrelationCoefficients[..])[..MAX_FRAMES - 1]
      ensures autocorrelationCoefficientsScale[..] == [scale] + old(autocorrelationCoefficientsScale[..])[..MAX_FRAMES - 1]
    {
      autocorrelationCoefficients[6], autocorrelationCoefficientsScale[6] := autocorrelationCoefficients[5], autocorrelationCoefficientsScale[5];
      autocorrelationCoefficients[5], autocorrelationCoefficientsScale[5] := autocorrelationCoefficients[4], autocorrelationCoefficientsScale[4];
      autocorrelationCoefficients[4], autocorrelationCoefficientsScale[4] := autocorrelationCoefficients[3], autocorrelationCoefficientsScale[3];
      autocorrelationCoefficients[3], autocorrelationCoefficientsScale[3] := autocorrelationCoefficients[2], autocorrelationCoefficientsScale[2];
      autocorrelationCoefficients[2], autocorrelationCoefficientsScale[2] := autocorrelationCoefficients[1], autocorrelationCoefficientsScale[1];
      autocorrelationCoefficients[1], autocorrelationCoefficientsScale[1] := autocorrelationCoefficients[0], autocorrelationCoefficientsScale[0];
      autocorrelationCoefficients[0], autocorrelationCoefficientsScale[0] := r, scale;
    }

    /** One frame: its samples join the buffer, the buffer is analysed, the analysis is stored, and the
        buffer moves on. */
    method AnalyseFrame(frame: seq<int>) returns (found: bool, lp: array<int>, k: array<int>)
      requires Valid() && IsFrame(frame)
      modifies this`run, signalBuffer, autocorrelationCoefficients, autocorrelationCoefficientsScale
      ensures Valid() && run == old(run) + [frame] && lp.Length == k.Length == ORDER
      ensures found ==> lp[..] == FromReflections(k[..])
    {
      ghost var before, held, heldScales := run, autocorrelationCoefficients[..], autocorrelationCoefficientsScale[..];
      TakeIn(frame);
      assert (before + [frame])[..|before|] == before;
      assert signalBuffer[..] == Buffer(before + [frame]);
      ghost var signal := signalBuffer[..];
      var noLag, scale;
      found, lp, k, noLag, scale := ComputeLp(signalBuffer[..]);
      UpdateDTXContext(noLag, scale);
      UpdateHolds(before, frame, held, heldScales, noLag, scale);
      run := before + [frame];
      MoveOn();
      assert signalBuffer[..L_LP_ANALYSIS_WINDOW - L_FRAME] == signal[L_FRAME..];
    }

    method TakeIn(frame: seq<int>)
      requires signalBuffer.Length == L_LP_ANALYSIS_WINDOW && |frame| == L_FRAME
      modifies signalBuffer
      ensures signalBuffer[..] == old(signalBuffer[..L_LP_ANALYSIS_WINDOW - L_FRAME]) + frame
    {
      forall i | 0 <= i < L_FRAME { signalBuffer[L_LP_ANALYSIS_WINDOW - L_FRAME + i] := frame[i]; }
    }

    method MoveOn()
      requires signalBuffer.Length == L_LP_ANALYSIS_WINDOW
      modifies signalBuffer
      ensures signalBuffer[..L_LP_ANALYSIS_WINDOW - L_FRAME] == old(signalBuffer[L_FRAME..])
    {
      forall i | 0 <= i < L_LP_ANALYSIS_WINDOW - L_FRAME { signalBuffer[i] := signalBuffer[i + L_FRAME]; }
    }

    /** The LP coefficients of the frames from..to ago, as a noise frame asks for 0..2 and a descriptor for
        1..7: there is a sum to analyse if and only if the energies of those frames are comparable;
        then its first division is safe and the result is that of the recursion on the sum, the
        step-up of its reflections. */
    method BlockLp(from: nat, to: nat)
      returns (inRange: bool, found: bool, lp: array<int>, k: array<int>, residualEnergy: int, ghost least: int, ghost right: nat)
      requires Valid() && from < to <= MAX_FRAMES
      ensures lp.Length == k.Length == ORDER
      ensures (inRange <==> AllComparable(run, from, to)) && (found ==> inRange)
      ensures var r, scales := autocorrelationCoefficients[..][from..to], autocorrelationCoefficientsScale[..][from..to];
        (inRange ==> IsFrames(r, scales) && Spread(scales, least) && IsLeast(least, scales) && right <= 3
                     && IsResultOf(BlockSum(r, scales, least, right), found, lp[..], k[..], residualEnergy))
    {
      var r, scales := autocorrelationCoefficients[from..to], autocorrelationCoefficientsScale[from..to];
      HeldAreClear(run, autocorrelationCoefficients[..], autocorrelationCoefficientsScale[..], from, to);
      assert r == autocorrelationCoefficients[..][from..to] && scales == autocorrelationCoefficientsScale[..][from..to];
      inRange, found, lp, k, residualEnergy, least, right := NoiseLp(r, scales);
      ShiftsFitIff(run, autocorrelationCoefficients[..], autocorrelationCoefficientsScale[..], from, to, least);
    }
  }
}
