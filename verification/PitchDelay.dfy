/** The pitch delay of each subframe: search windows and codewords P1, P2 on the encoder side,
    their decoding and the concealment of lost delays on the decoder side. */
module PitchDelay {
  import opened FixedPoint

  const MAXIMUM_INT_PITCH_DELAY := 143

  // Integer part and thirds: the delay is whole + third/3.
  datatype Delay = Delay(whole: int, third: int)

  // The delays the closed-loop search can return in the first subframe.
  predicate FirstDelay(d: Delay) {
    20 <= d.whole <= MAXIMUM_INT_PITCH_DELAY && -1 <= d.third <= 1 && (d.whole >= 85 ==> d.third == 0)
  }

  datatype Window = Window(min: int, max: int)

  // Around the open-loop delay, for the first subframe.
  function OpenLoopWindow(delay: int): Window {
    var min := if delay - 3 < 20 then 20 else delay - 3;
    if min + 6 > MAXIMUM_INT_PITCH_DELAY
    then Window(MAXIMUM_INT_PITCH_DELAY - 6, MAXIMUM_INT_PITCH_DELAY)
    else Window(min, min + 6)
  }

  // Around the first subframe's integer delay, for the second subframe.
  function SecondWindow(whole: int): Window {
    var min := if whole - 5 < 20 then 20 else whole - 5;
    if min + 9 > MAXIMUM_INT_PITCH_DELAY
    then Window(MAXIMUM_INT_PITCH_DELAY - 9, MAXIMUM_INT_PITCH_DELAY)
    else Window(min, min + 9)
  }

  predicate SecondDelay(d: Delay, w: Window) {
    w.min <= d.whole <= w.max && -1 <= d.third <= 1
  }

  function EncodedP1(d: Delay): int {
    if d.whole <= 85 then 3 * d.whole - 58 + d.third else d.whole + 112
  }

  function EncodedP2(d: Delay, w: Window): int {
    3 * (d.whole - w.min) + d.third + 2
  }

  // 10923 is one third in Q15.
  function ThirdOf(x: int): int { (x * 10923) / 32768 }

  function DecodedP1(p1: nat): Delay {
    if p1 < 197 then
      var whole := ThirdOf(p1 + 2) + 19;
      Delay(whole, p1 - 3 * whole + 58)
    else Delay(p1 - 112, 0)
  }

  function DecoderWindowMin(whole: int): int {
    var tMin := if whole - 5 < 20 then 20 else whole - 5;
    if tMin > 134 then 134 else tMin
  }

  function DecodedP2(p2: nat, whole: int): Delay {
    var offset := ThirdOf(p2 + 2) - 1;
    Delay(offset + DecoderWindowMin(whole), p2 - 3 * offset - 2)
  }

  lemma ThirdIsExact(x: nat)
    requires x <= 300
    ensures ThirdOf(x) == x / 3
  {
    var q := x / 3;
    assert 3 * q <= x <= 3 * q + 2;
  }

  /** Both subframe delays survive the trip: P1 fits eight bits, P2 five, the decoder rebuilds
      the encoder's second window from what it decoded, and every fraction comes back. */
  lemma DelaysRoundTrip(d1: Delay, d2: Delay)
    requires FirstDelay(d1) && SecondDelay(d2, SecondWindow(d1.whole))
    ensures 0 <= EncodedP1(d1) < 256 && DecodedP1(EncodedP1(d1)) == d1
    ensures DecoderWindowMin(d1.whole) == SecondWindow(d1.whole).min
    ensures var p2 := EncodedP2(d2, SecondWindow(d1.whole));
      1 <= p2 <= 30 && DecodedP2(p2, DecodedP1(EncodedP1(d1)).whole) == d2
  {
    ThirdIsExact(EncodedP1(d1) + 2);
    ThirdIsExact(EncodedP2(d2, SecondWindow(d1.whole)) + 2);
  }

  /** Every 8 bit P1 is the codeword of the delay it decodes to, and all but two of them, 0 and
      196, are codewords the encoder can emit. */
  lemma P1IsBijective(p1: nat)
    requires p1 < 256
    ensures var d := DecodedP1(p1);
      && EncodedP1(d) == p1
      && 19 <= d.whole <= MAXIMUM_INT_PITCH_DELAY && -1 <= d.third <= 1
      && (d.whole == 19 <==> p1 == 0) && (p1 == 0 ==> d.third == 1)
      && (FirstDelay(d) <==> p1 != 0 && p1 != 196)
  {
    ThirdIsExact(p1 + 2);
  }

  lemma P2Range(p2: nat, whole: int)
    requires p2 < 32
    ensures var d := DecodedP2(p2, whole);
      && -1 <= d.third <= 1 && 19 <= d.whole <= 144
      && (d.whole == 19 ==> d.third == 1) && (d.whole == 144 ==> d.third == -1)
  {
    ThirdIsExact(p2 + 2);
  }

  /** The search window for the first subframe lies inside what P1 can code. */
  lemma OpenLoopWindowFits(delay: int)
    requires 20 <= delay <= MAXIMUM_INT_PITCH_DELAY
    ensures var w := OpenLoopWindow(delay);
      20 <= w.min <= delay <= w.max <= MAXIMUM_INT_PITCH_DELAY && w.max == w.min + 6
  {}

  // ----- the decoder, any bits and any losses -----

  // What reaches the decoder for one frame.
  datatype Received = Received(p1: nat, p2: nat, parityError: bool, erased: bool)

  predicate IsReceived(r: Received) { r.p1 < 256 && r.p2 < 32 }

  // The remembered delay after one concealed subframe.
  function Aged(previous: int): int {
    if previous + 1 > MAXIMUM_INT_PITCH_DELAY then MAXIMUM_INT_PITCH_DELAY else previous + 1
  }

  datatype Outcome = Outcome(first: Delay, second: Delay, previous: int)

  function FrameStep(previous: int, r: Received): Outcome {
    var concealed := r.parityError || r.erased;
    var first := if concealed then Delay(previous, 0) else DecodedP1(r.p1);
    var kept := if concealed then Aged(previous) else first.whole;
    if r.erased then Outcome(first, Delay(kept, 0), Aged(kept))
    else
      var second := DecodedP2(r.p2, first.whole);
      Outcome(first, second, second.whole)
  }

  class DelayDecoder {
    var previousIntPitchDelay: int

    constructor ()
      ensures previousIntPitchDelay == 60
    {
      previousIntPitchDelay := 60;
    }

    // One subframe; `whole` carries the first subframe's integer delay into the second.
    method DecodeSubframe(secondSubframe: bool, index: nat, parityError: bool, erased: bool, whole: int) returns (d: Delay)
      requires index < 256
      modifies this
      ensures !secondSubframe ==>
        && d == (if parityError || erased then Delay(old(previousIntPitchDelay), 0) else DecodedP1(index))
        && previousIntPitchDelay == if parityError || erased then Aged(old(previousIntPitchDelay)) else d.whole
      ensures secondSubframe ==>
        && d == (if erased then Delay(old(previousIntPitchDelay), 0) else DecodedP2(index, whole))
        && previousIntPitchDelay == if erased then Aged(old(previousIntPitchDelay)) else d.whole
    {
      if (if secondSubframe then erased else parityError || erased) {
        d := Delay(previousIntPitchDelay, 0);
        previousIntPitchDelay := previousIntPitchDelay + 1;
        if previousIntPitchDelay > MAXIMUM_INT_PITCH_DELAY {
          previousIntPitchDelay := MAXIMUM_INT_PITCH_DELAY;
        }
      } else if !secondSubframe {
        if index < 197 {
          var w := ThirdOf(index + 2) + 19;
          d := Delay(w, index - w * 3 + 58);
        } else {
          d := Delay(index - 112, 0);
        }
        previousIntPitchDelay := d.whole;
      } else {
        var tMin := whole - 5;
        if tMin < 20 { tMin := 20; }
        if tMin > 134 { tMin := 134; }
        var w := ThirdOf(index + 2) - 1;
        d := Delay(w + tMin, index - w * 3 - 2);
        previousIntPitchDelay := d.whole;
      }
    }

    method DecodeFrame(r: Received) returns (o: Outcome)
      requires IsReceived(r)
      modifies this
      ensures o == FrameStep(old(previousIntPitchDelay), r) && previousIntPitchDelay == o.previous
    {
      var first := DecodeSubframe(false, r.p1, r.parityError, r.erased, 0);
      var second := DecodeSubframe(true, r.p2, r.parityError, r.erased, first.whole);
      o := Outcome(first, second, previousIntPitchDelay);
    }
  }

  // The remembered delay after a run of frames.
  function After(previous: int, run: seq<Received>): int {
    if run == [] then previous else FrameStep(After(previous, run[..|run| - 1]), run[|run| - 1]).previous
  }

  // The number of whole samples the interpolator steps back: whole + 1 for a third of +1.
  function StepBack(d: Delay): int { if d.third == 1 then d.whole + 1 else d.whole }

  /** Whatever bits arrive, with any parity errors and erasures in any order, both subframes of
      the next frame ask the interpolator to step back 19 to 144 samples, and 19 needs a
      concealed subframe. */
  lemma {:induction false} ReachableDelays(run: seq<Received>, next: Received)
    requires IsReceived(next) && forall i :: 0 <= i < |run| ==> IsReceived(run[i])
    ensures 19 <= After(60, run) <= 144
    ensures var o := FrameStep(After(60, run), next);
      && 19 <= StepBack(o.first) <= 144 && 19 <= StepBack(o.second) <= 144
      && -1 <= o.first.third <= 1 && -1 <= o.second.third <= 1
      && (StepBack(o.first) == 19 ==> next.parityError || next.erased)
      && (StepBack(o.second) == 19 ==> next.erased)
  {
    if run != [] {
      ReachableDelays(run[..|run| - 1], run[|run| - 1]);
      var previous, last := After(60, run[..|run| - 1]), run[|run| - 1];
      P1IsBijective(last.p1);
      P2Range(last.p2, FrameStep(previous, last).first.whole);
    }
    P1IsBijective(next.p1);
    P2Range(next.p2, FrameStep(After(60, run), next).first.whole);
  }

  // The delay after k lost frames in a row: two samples longer each, up to the longest.
  lemma {:induction false} DelayOverLosses(previous: int, run: seq<Received>)
    requires 0 <= previous <= MAXIMUM_INT_PITCH_DELAY && forall i :: 0 <= i < |run| ==> run[i].erased
    ensures After(previous, run) == if previous + 2 * |run| <= MAXIMUM_INT_PITCH_DELAY then previous + 2 * |run| else MAXIMUM_INT_PITCH_DELAY
  {
    if run != [] { DelayOverLosses(previous, run[..|run| - 1]); }
  }

  /** The extremes are reached: P2 = 0 under a short first delay remembers 19, and P2 = 31 under
      a long one remembers 144, one more than the longest delay the encoder searches. */
  lemma ExtremesAreReached()
    ensures FrameStep(After(60, [Received(1, 0, false, false)]), Received(0, 0, true, false)).first == Delay(19, 0)
    ensures After(60, [Received(255, 31, false, false)]) == 144
  {
    ThirdIsExact(2);
    ThirdIsExact(3);
    ThirdIsExact(33);
    assert After(60, []) == 60;
  }
}
