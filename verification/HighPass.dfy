/** The second-order high-pass filters at both ends of the codec: saturated recursive filters
    whose state is carried from block to block. */
module HighPass {
  import opened FixedPoint

  // Coefficients in Q`q`; the state is kept in the same scale and saturated to 16 integer bits.
  datatype Coefficients = Coefficients(q: nat, a1: int, a2: int, b0: int, b1: int, b2: int)

  const POST := Coefficients(13, 15836, -7667, 7699, -15398, 7699)
  const PRE := Coefficients(12, 7807, -3733, 1899, -3798, 1899)

  predicate IsTame(c: Coefficients) {
    && 1 <= c.q <= 15 && Is16(c.a1) && Is16(c.a2) && Is16(c.b0) && Is16(c.b1) && Is16(c.b2)
    && Abs(c.a1) + Abs(c.a2) + Abs(c.b0) + Abs(c.b1) + Abs(c.b2) < 0x10000
  }

  function Limit(c: Coefficients): nat { 0x8000 * Pow2(c.q) - 1 }

  datatype State = State(x0: int, x1: int, y1: int, y2: int)

  const CLEAR := State(0, 0, 0, 0)

  predicate Bounded(c: Coefficients, s: State) {
    && Is16(s.x0) && Is16(s.x1)
    && s.y1 <= Limit(c) && -s.y1 <= Limit(c) + 1 && s.y2 <= Limit(c) && -s.y2 <= Limit(c) + 1
  }

  // The accumulator on 32 bits, term after term, before the saturation.
  function Accumulated(c: Coefficients, s: State, x: int): int {
    AddFive(Mult16x32(c.a1, s.y1, c.q), Mult16x32(c.a2, s.y2, c.q), x * c.b0, s.x0 * c.b1, s.x1 * c.b2)
  }

  function AddFive(t1: int, t2: int, t3: int, t4: int, t5: int): int {
    Wrap32(Wrap32(Wrap32(Wrap32(t1 + t2) + t3) + t4) + t5)
  }

  // The same over the integers.
  function Plain(c: Coefficients, s: State, x: int): int {
    (c.a1 * s.y1) / Pow2(c.q) + (c.a2 * s.y2) / Pow2(c.q) + x * c.b0 + s.x0 * c.b1 + s.x1 * c.b2
  }

  function Next(c: Coefficients, s: State, x: int): State {
    State(x, s.x0, Saturate(Accumulated(c, s, x), Limit(c)), s.y1)
  }

  // ----- no overflow -----

  // A coefficient times a saturated state, brought back to scale.
  lemma ScaledProduct(a: int, y: int, p: nat)
    requires p > 0 && y < 0x8000 * p && -y <= 0x8000 * p
    ensures (a * y) / p <= 0x8000 * Abs(a) && -((a * y) / p) <= 0x8000 * Abs(a)
  {
    var m, top := Abs(a), 0x8000 * Abs(a);
    MulMono(y, 0x8000 * p, m);
    MulMono(-(0x8000 * p), y, m);
    assert (0x8000 * p) * m == top * p && (-(0x8000 * p)) * m == -(top * p);
    if a <= 0 { assert a * y == -(y * m); }
    assert (top + 1) * p == top * p + p && (-top) * p == -(top * p);
    QuotientInRange(a * y, p, -top, top);
  }

  // Five bounded terms, added one after the other.
  lemma FiveTerms(t1: int, t2: int, t3: int, t4: int, t5: int, m1: nat, m2: nat, m3: nat, m4: nat, m5: nat)
    requires BoundedBy(t1, m1) && BoundedBy(t2, m2) && BoundedBy(t3, m3) && BoundedBy(t4, m4) && BoundedBy(t5, m5)
    requires m1 + m2 + m3 + m4 + m5 <= MAXINT32
    ensures AddFive(t1, t2, t3, t4, t5) == t1 + t2 + t3 + t4 + t5 && Is32(t1 + t2 + t3 + t4 + t5)
  {
    Wrap32Id(t1 + t2);
    Wrap32Id(t1 + t2 + t3);
    Wrap32Id(t1 + t2 + t3 + t4);
    Wrap32Id(t1 + t2 + t3 + t4 + t5);
  }

  lemma BoundedFits(c: Coefficients, y: int)
    requires IsTame(c) && y <= Limit(c) && -y <= Limit(c) + 1
    ensures Is32(y) && y < 0x8000 * Pow2(c.q) && -y <= 0x8000 * Pow2(c.q)
  {
    Pow2Mono(c.q, 15);
    Pow2Table();
  }

  // The two recursive products are exact.
  lemma FeedbackExact(c: Coefficients, a: int, y: int)
    requires IsTame(c) && Is16(a) && Abs(a) < 0x10000 && y <= Limit(c) && -y <= Limit(c) + 1
    ensures Mult16x32(a, y, c.q) == (a * y) / Pow2(c.q) && BoundedBy((a * y) / Pow2(c.q), 0x8000 * Abs(a))
  {
    BoundedFits(c, y);
    ScaledProduct(a, y, Pow2(c.q));
    SplitMultiplyIsFloor(a, y, c.q);
  }

  /** From a bounded state, for every 16 bit input: no partial sum leaves 32 bits, so the
      accumulator is the plain sum, and the next state is bounded again. */
  lemma NoOverflow(c: Coefficients, s: State, x: int)
    requires IsTame(c) && Bounded(c, s) && Is16(x)
    ensures Accumulated(c, s, x) == Plain(c, s, x) && Is32(Plain(c, s, x))
    ensures Bounded(c, Next(c, s, x))
  {
    FeedbackExact(c, c.a1, s.y1);
    FeedbackExact(c, c.a2, s.y2);
    Product16(x, c.b0);
    Product16(s.x0, c.b1);
    Product16(s.x1, c.b2);
    FiveTerms((c.a1 * s.y1) / Pow2(c.q), (c.a2 * s.y2) / Pow2(c.q), x * c.b0, s.x0 * c.b1, s.x1 * c.b2,
              0x8000 * Abs(c.a1), 0x8000 * Abs(c.a2), 0x8000 * Abs(c.b0), 0x8000 * Abs(c.b1), 0x8000 * Abs(c.b2));
  }

  lemma BothTame()
    ensures IsTame(POST) && IsTame(PRE)
    ensures Limit(POST) == 0xfffffff && Limit(PRE) == 0x7ffffff
  {
    Pow2Table();
  }

  // ----- runs -----

  function After(c: Coefficients, s: State, xs: seq<int>): State {
    if xs == [] then s else Next(c, After(c, s, xs[..|xs| - 1]), xs[|xs| - 1])
  }

  // The saturated accumulators of a run.
  function Response(c: Coefficients, s: State, xs: seq<int>): (ys: seq<int>)
    ensures |ys| == |xs|
  {
    if xs == [] then [] else Response(c, s, xs[..|xs| - 1]) + [After(c, s, xs).y1]
  }

  lemma {:induction false} RunStaysBounded(c: Coefficients, s: State, xs: seq<int>)
    requires IsTame(c) && Bounded(c, s) && Words(xs)
    ensures Bounded(c, After(c, s, xs))
  {
    if xs != [] {
      RunStaysBounded(c, s, xs[..|xs| - 1]);
      NoOverflow(c, After(c, s, xs[..|xs| - 1]), xs[|xs| - 1]);
    }
  }

  /** Over every run of 16 bit input, from a clear filter or any bounded state, at every sample: the
      state is bounded and no partial sum of the accumulator has left 32 bits. */
  lemma RunNeverOverflows(c: Coefficients, s: State, xs: seq<int>, i: nat)
    requires IsTame(c) && Bounded(c, s) && Words(xs) && i < |xs|
    ensures var before := After(c, s, xs[..i]);
      Bounded(c, before) && Accumulated(c, before, xs[i]) == Plain(c, before, xs[i]) && Is32(Plain(c, before, xs[i]))
  {
    RunStaysBounded(c, s, xs[..i]);
    NoOverflow(c, After(c, s, xs[..i]), xs[i]);
  }

  /** Block by block equals all at once: the state carries everything. */
  lemma {:induction false} BlocksCompose(c: Coefficients, s: State, xs: seq<int>, more: seq<int>)
    ensures After(c, s, xs + more) == After(c, After(c, s, xs), more)
    ensures Response(c, s, xs + more) == Response(c, s, xs) + Response(c, After(c, s, xs), more)
  {
    if more == [] {
      assert xs + more == xs;
    } else {
      assert (xs + more)[..|xs + more| - 1] == xs + more[..|more| - 1];
      BlocksCompose(c, s, xs, more[..|more| - 1]);
    }
  }

  // ----- the difference equation -----

  // The state is the last two inputs and the last two accumulators.
  lemma StateOfRun(c: Coefficients, s: State, xs: seq<int>, n: nat)
    requires 2 <= n <= |xs|
    ensures var ys := Response(c, s, xs); After(c, s, xs[..n]) == State(xs[n - 1], xs[n - 2], ys[n - 1], ys[n - 2])
  {
    ResponseAt(c, s, xs, n - 1);
    ResponseAt(c, s, xs, n - 2);
    assert xs[..n][..n - 1] == xs[..n - 1] && xs[..n - 1][..n - 2] == xs[..n - 2];
  }

  lemma {:induction false} ResponseAt(c: Coefficients, s: State, xs: seq<int>, n: nat)
    requires n < |xs|
    ensures Response(c, s, xs)[n] == After(c, s, xs[..n + 1]).y1
  {
    if n + 1 == |xs| {
      assert xs[..n + 1] == xs;
    } else {
      ResponseAt(c, s, xs[..|xs| - 1], n);
      assert xs[..|xs| - 1][..n + 1] == xs[..n + 1];
    }
  }

  lemma TwoFloors(u: int, v: int, w: int, p: nat)
    requires p > 0
    ensures 0 <= u + v + w * p - (u / p + v / p + w) * p < 2 * p
  {
    assert (u / p) * p <= u < (u / p) * p + p && (v / p) * p <= v < (v / p) * p + p;
    assert (u / p + v / p + w) * p == (u / p) * p + (v / p) * p + w * p;
  }

  // Accumulator y after y1 and y2 for inputs x, x1 and x2: saturated, or less than two units below the
  // difference equation in the scale of the coefficients squared.
  predicate Follows(c: Coefficients, x: int, x1: int, x2: int, y: int, y1: int, y2: int) {
    y == Limit(c) || y == -(Limit(c) + 1)
    || 0 <= c.a1 * y1 + c.a2 * y2 + (c.b0 * x + c.b1 * x1 + c.b2 * x2) * Pow2(c.q) - y * Pow2(c.q) < 2 * Pow2(c.q)
  }

  lemma OneSample(c: Coefficients, s: State, x: int)
    requires Accumulated(c, s, x) == Plain(c, s, x)
    ensures Follows(c, x, s.x0, s.x1, Next(c, s, x).y1, s.y1, s.y2)
  {
    TwoFloors(c.a1 * s.y1, c.a2 * s.y2, x * c.b0 + s.x0 * c.b1 + s.x1 * c.b2, Pow2(c.q));
    assert x * c.b0 + s.x0 * c.b1 + s.x1 * c.b2 == c.b0 * x + c.b1 * s.x0 + c.b2 * s.x1;
  }

  lemma SampleOfRun(c: Coefficients, s: State, xs: seq<int>, n: nat)
    requires n < |xs|
    ensures Response(c, s, xs)[n] == Next(c, After(c, s, xs[..n]), xs[n]).y1
  {
    ResponseAt(c, s, xs, n);
    assert xs[..n + 1][..n] == xs[..n];
  }

  /** Over every run of 16 bit input each accumulator follows from the inputs and accumulators around it. */
  lemma DifferenceEquation(c: Coefficients, s: State, xs: seq<int>, n: nat)
    requires IsTame(c) && Bounded(c, s) && Words(xs) && 2 <= n < |xs|
    ensures var ys := Response(c, s, xs); Follows(c, xs[n], xs[n - 1], xs[n - 2], ys[n], ys[n - 1], ys[n - 2])
  {
    StateOfRun(c, s, xs, n);
    SampleOfRun(c, s, xs, n);
    RunNeverOverflows(c, s, xs, n);
    OneSample(c, After(c, s, xs[..n]), xs[n]);
  }

  // ----- the two filters -----

  // Half of the Q13 accumulator's fraction is dropped by doubling, then everything to 16 bits.
  function PostSample(acc: int): int { Saturate(Pshr(acc, 12), MAXINT16) }

  function PreSample(acc: int): int { Wrap16(Pshr(acc, 12)) }

  /** The decoder's sample is the accumulator at twice its Q13 value, rounded, or the nearest word. */
  lemma PostSampleNear(acc: int)
    requires -0x10000000 <= acc <= 0xfffffff
    ensures Is16(PostSample(acc))
    ensures -0x8000000 <= acc <= 0x7fff7ff ==> -0x800 < acc - 0x1000 * PostSample(acc) + 1 <= 0x801
    ensures acc > 0x7fff7ff ==> PostSample(acc) == 0x7fff
    ensures acc < -0x8000000 ==> PostSample(acc) == -0x8000
  {
    Pow2Table();
    Wrap32Id(acc + 0x800);
  }

  function Samples(f: int -> int, ys: seq<int>): seq<int> {
    seq(|ys|, i requires 0 <= i < |ys| => f(ys[i]))
  }

  class Filter {
    const c: Coefficients
    var inputX0: int
    var inputX1: int
    var outputY1: int
    var outputY2: int

    ghost function Value(): State
      reads this
    {
      State(inputX0, inputX1, outputY1, outputY2)
    }

    constructor (c: Coefficients)
      ensures Value() == CLEAR && this.c == c
    {
      this.c := c;
      inputX0, inputX1, outputY1, outputY2 := 0, 0, 0, 0;
    }

    method Step(x: int) returns (acc: int)
      modifies this
      ensures Value() == Next(c, old(Value()), x) && acc == outputY1
    {
      var inputX2 := inputX1;
      inputX1 := inputX0;
      inputX0 := x;
      acc := Mult16x32(c.a1, outputY1, c.q);
      acc := Wrap32(acc + Mult16x32(c.a2, outputY2, c.q));
      acc := Wrap32(acc + inputX0 * c.b0);
      acc := Wrap32(acc + inputX1 * c.b1);
      acc := Saturate(Wrap32(acc + inputX2 * c.b2), 0x8000 * Pow2(c.q) - 1);
      outputY2 := outputY1;
      outputY1 := acc;
    }

    /** Decoder side: the output replaces the input. */
    method PostProcess(signal: array<int>)
      modifies this, signal
      ensures Value() == After(c, old(Value()), old(signal[..]))
      ensures signal[..] == Samples(PostSample, Response(c, old(Value()), old(signal[..])))
    {
      ghost var s, xs := Value(), signal[..];
      var i := 0;
      while i < signal.Length
        invariant 0 <= i <= signal.Length
        invariant Value() == After(c, s, xs[..i])
        invariant signal[..i] == Samples(PostSample, Response(c, s, xs[..i]))
        invariant signal[i..] == xs[i..]
      {
        assert xs[..i + 1][..i] == xs[..i];
        assert signal[i] == signal[i..][0] == xs[i..][0] == xs[i];
        var acc := Step(signal[i]);
        signal[i] := PostSample(acc);
        i := i + 1;
      }
      assert xs[..i] == xs && signal[..i] == signal[..];
    }

    /** Encoder side: into a buffer of its own. */
    method PreProcess(signal: array<int>, preProcessedSignal: array<int>)
      requires signal.Length == preProcessedSignal.Length && signal != preProcessedSignal
      modifies this, preProcessedSignal
      ensures Value() == After(c, old(Value()), signal[..])
      ensures preProcessedSignal[..] == Samples(PreSample, Response(c, old(Value()), signal[..]))
    {
      ghost var s, xs := Value(), signal[..];
      var i := 0;
      while i < signal.Length
        invariant 0 <= i <= signal.Length
        invariant Value() == After(c, s, xs[..i])
        invariant preProcessedSignal[..i] == Samples(PreSample, Response(c, s, xs[..i]))
        invariant signal[..] == xs
      {
        assert xs[..i + 1][..i] == xs[..i];
        var acc := Step(signal[i]);
        preProcessedSignal[i] := PreSample(acc);
        i := i + 1;
      }
      assert xs[..i] == xs && preProcessedSignal[..i] == preProcessedSignal[..];
    }
  }

  // ----- the last rounding -----

  /** The decoder's sample is the rounded accumulator, saturated; the encoder's has no saturation,
      and is the rounded accumulator exactly when that is below the last half unit. */
  lemma PreSampleIff(acc: int)
    requires -0x8000000 <= acc <= 0x7ffffff
    ensures PreSample(acc) == (acc + 0x800) / 0x1000 <==> acc <= 134215679
    ensures acc > 134215679 ==> PreSample(acc) == -0x8000
  {
    Pow2Table();
    Wrap32Id(acc + 0x800);
  }

  // A long negative step.
  function Low(n: nat): (xs: seq<int>)
    ensures |xs| == n
  {
    seq(n, _ => -0x8000)
  }

  // The saturated accumulators of the clear encoder filter on it.
  function Fall(k: nat): int {
    if k == 0 then 0 else if k == 1 then -62226432 else if k == 2 then -56377512 else if k == 3 then -50744133
    else if k == 4 then -45337450 else if k == 5 then -40166413 else if k == 6 then -35237912 else if k == 7 then -30556924
    else if k == 8 then -26126657 else if k == 9 then -21948686 else if k == 10 then -18023092 else if k == 11 then -14348593
    else if k == 12 then -10922673 else if k == 13 then -7741703 else if k == 14 then -4801060 else if k == 15 then -2095240
    else if k == 16 then 382035 else if k == 17 then 2637713 else if k == 18 then 4679318 else if k == 19 then 6514856
    else if k == 20 then 8152730 else 9601661
  }

  function FallState(k: nat): State {
    State(if k > 0 then -0x8000 else 0, if k > 1 then -0x8000 else 0, Fall(k), if k > 0 then Fall(k - 1) else 0)
  }

  // The plain sum of the encoder filter, in numbers.
  function PrePlain(s: State, x: int): int {
    (7807 * s.y1) / 4096 + (-3733 * s.y2) / 4096 + x * 1899 - s.x0 * 3798 + s.x1 * 1899
  }

  lemma Falls1(k: nat)
    requires 0 <= k < 7
    ensures PrePlain(FallState(k), -0x8000) == Fall(k + 1)
  {}

  lemma Falls2(k: nat)
    requires 7 <= k < 14
    ensures PrePlain(FallState(k), -0x8000) == Fall(k + 1)
  {}

  lemma Falls3(k: nat)
    requires 14 <= k < 21
    ensures PrePlain(FallState(k), -0x8000) == Fall(k + 1)
  {}

  lemma NextPlain(s: State, x: int)
    requires Bounded(PRE, s) && Is16(x) && -0x8000000 <= PrePlain(s, x) <= 0x7ffffff
    ensures Next(PRE, s, x) == State(x, s.x0, PrePlain(s, x), s.y1) && Bounded(PRE, Next(PRE, s, x))
  {
    BothTame();
    Pow2Table();
    NoOverflow(PRE, s, x);
  }

  lemma FallFits(k: nat)
    requires k <= 21
    ensures -0x8000000 <= Fall(k) <= 0x7ffffff && Bounded(PRE, FallState(k))
  {
    BothTame();
  }

  lemma FallStep(k: nat)
    requires k < 21
    ensures Next(PRE, FallState(k), -0x8000) == FallState(k + 1)
  {
    if k < 7 { Falls1(k); } else if k < 14 { Falls2(k); } else { Falls3(k); }
    FallFits(k);
    FallFits(k + 1);
    NextPlain(FallState(k), -0x8000);
  }

  lemma {:induction false} FallsTo(k: nat)
    requires k <= 21
    ensures After(PRE, CLEAR, Low(k)) == FallState(k)
  {
    if k > 0 {
      FallsTo(k - 1);
      assert Low(k)[..k - 1] == Low(k - 1);
      FallStep(k - 1);
    } else {
      assert Low(0) == [];
    }
  }

  /** The unsaturated sample is met: after 21 samples of -32768, one of 32767 drives the clear
      encoder filter into saturation and its output sample wraps to -32768. */
  lemma PreProcessingCanWrap()
    ensures var xs := Low(21) + [0x7fff]; Words(xs) && PreSample(After(PRE, CLEAR, xs).y1) == -0x8000
  {
    var s, xs := FallState(21), Low(21) + [0x7fff];
    FallsTo(21);
    FallFits(21);
    assert xs[..21] == Low(21);
    TopsOut(s);
    PreSampleIff(0x7ffffff);
  }

  lemma TopsOut(s: State)
    requires s == FallState(21) && Bounded(PRE, s)
    ensures Next(PRE, s, 0x7fff).y1 == 0x7ffffff
  {
    BothTame();
    Pow2Table();
    NoOverflow(PRE, s, 0x7fff);
    assert s.y1 == 9601661 && s.y2 == 8152730;
  }
}
