/** The decision smoothing of the voice activity detector: a start-up phase that waits for loud
    frames, then hysteresis and three smoothing stages over the raw decision of each frame. */
module Vad {
  import opened FixedPoint

  const START_UP_FRAMES := 32
  const LOUD := 3072
  const SMALL_STEP := 614
  const HANGOVER := 6

  // What the frame analysis supplies: the energy, its distance below the mean, and the decision
  // of the multi-boundary test, which only counts in a loud frame.
  datatype Analysis = Analysis(ef: int, deltaEf: int, boundary: bool)

  // True is voice, false is noise.
  datatype Detector = Detector(frameCount: nat, validFrames: nat, inert: nat, last: bool, lastButOne: bool,
                               secondStage: bool, smoothing: nat, previousEf: int, continuity: int)

  const INITIAL := Detector(0, 0, 0, true, true, true, 0, 0, 0)

  // What one frame did: whether the start-up was over, the raw and the smoothed decision, and
  // whether the third stage overruled.
  datatype Decision = Decision(running: bool, raw: bool, output: bool, third: bool)

  predicate SmallRise(d: Detector, a: Analysis) { a.ef - d.previousEf <= SMALL_STEP }

  predicate SmallChange(d: Detector, a: Analysis) { Abs(a.ef - d.previousEf) <= SMALL_STEP }

  // Without a single loud frame the start-up begins again.
  function Counted(d: Detector): nat {
    if d.frameCount == START_UP_FRAMES && d.validFrames == 0 then 0 else d.frameCount
  }

  function StartUpStep(d: Detector, a: Analysis): (r: (Detector, Decision)) {
    var loud := a.ef >= LOUD;
    (d.(frameCount := Counted(d) + 1,
        validFrames := if loud then (d.validFrames + 1) % 0x100 else d.validFrames,
        previousEf := a.ef, lastButOne := d.last, last := loud),
     Decision(false, loud, loud, false))
  }

  function RunningStep(d: Detector, a: Analysis): (r: (Detector, Decision)) {
    var raw := a.ef >= LOUD && a.boundary;
    var inert := if raw then 0 else if d.inert < HANGOVER then d.inert + 1 else d.inert;
    var hung := raw || d.inert < HANGOVER;
    var first := hung || (d.last && a.deltaEf > 410 && a.ef > LOUD);
    var stretched := d.secondStage && !first && d.last && d.lastButOne && SmallChange(d, a);
    var voice := first || stretched;
    var smoothing := if stretched then (if d.smoothing + 1 <= 4 then d.smoothing + 1 else 0) else d.smoothing;
    var continuity := if voice then d.continuity else Wrap32(d.continuity + 1);
    var third := voice && continuity > 10 && SmallRise(d, a);
    var output := voice && !third;
    (Detector((Counted(d) + 1) % 0x1_0000_0000, d.validFrames, if third then HANGOVER else inert, output, d.last,
              !stretched || d.smoothing + 1 <= 4, smoothing, a.ef, if voice then 0 else continuity),
     Decision(true, raw, output, third))
  }

  function Step(d: Detector, a: Analysis): (r: (Detector, Decision)) {
    if Counted(d) < START_UP_FRAMES then StartUpStep(d, a) else RunningStep(d, a)
  }

  /** The detector with its counters updated in the order of the source. */
  class VadContext {
    var frameCount: nat
    var nbValidInitFrame: nat
    var Count_inert: nat
    var SVDm1: bool
    var SVDm2: bool
    var secondStageVADSmoothingFlag: bool
    var smoothingCounter: nat
    var previousFrameEf: int
    var noiseContinuityCounter: int

    ghost function State(): Detector
      reads this
    {
      Detector(frameCount, nbValidInitFrame, Count_inert, SVDm1, SVDm2, secondStageVADSmoothingFlag, smoothingCounter,
               previousFrameEf, noiseContinuityCounter)
    }

    constructor ()
      ensures State() == INITIAL
    {
      frameCount, nbValidInitFrame, Count_inert, SVDm1, SVDm2 := 0, 0, 0, true, true;
      secondStageVADSmoothingFlag, smoothingCounter, previousFrameEf, noiseContinuityCounter := true, 0, 0, 0;
    }

    method Smooth(a: Analysis) returns (voice: bool)
      modifies this
      ensures State() == Step(old(State()), a).0 && voice == Step(old(State()), a).1.output
    {
      if frameCount == START_UP_FRAMES && nbValidInitFrame == 0 {
        frameCount := 0;
      }
      if frameCount < START_UP_FRAMES {
        voice := a.ef >= LOUD;
        if voice { nbValidInitFrame := (nbValidInitFrame + 1) % 0x100; }
        frameCount := frameCount + 1;
      } else {
        voice := SmoothRunning(a);
        frameCount := (frameCount + 1) % 0x1_0000_0000;
      }
      previousFrameEf := a.ef;
      SVDm2 := SVDm1;
      SVDm1 := voice;
    }

    method SmoothRunning(a: Analysis) returns (voice: bool)
      modifies this`Count_inert, this`secondStageVADSmoothingFlag, this`smoothingCounter, this`noiseContinuityCounter
      ensures var (after, decision) := RunningStep(old(State()), a);
        && voice == decision.output && Count_inert == after.inert && secondStageVADSmoothingFlag == after.secondStage
        && smoothingCounter == after.smoothing && noiseContinuityCounter == after.continuity
    {
      voice := if a.ef < LOUD then false else a.boundary;
      if voice { Count_inert := 0; }
      if !voice && Count_inert < 6 {
        Count_inert := Count_inert + 1;
        voice := true;
      }
      if !voice && SVDm1 && a.deltaEf > 410 && a.ef > LOUD { voice := true; }
      if secondStageVADSmoothingFlag && !voice && SVDm1 && SVDm2 && Abs(a.ef - previousFrameEf) <= 614 {
        voice := true;
        smoothingCounter := smoothingCounter + 1;
        if smoothingCounter <= 4 {
          secondStageVADSmoothingFlag := true;
        } else {
          secondStageVADSmoothingFlag := false;
          smoothingCounter := 0;
        }
      } else {
        secondStageVADSmoothingFlag := true;
      }
      if !voice { noiseContinuityCounter := Wrap32(noiseContinuityCounter + 1); }
      if voice && noiseContinuityCounter > 10 && a.ef - previousFrameEf <= 614 {
        voice := false;
        noiseContinuityCounter := 0;
        Count_inert := 6;
      }
      if voice { noiseContinuityCounter := 0; }
    }
  }

  // ----- runs -----

  function After(run: seq<Analysis>): Detector {
    if run == [] then INITIAL else Step(After(run[..|run| - 1]), run[|run| - 1]).0
  }

  // The decision on frame k of the run.
  function DecisionAt(run: seq<Analysis>, k: nat): Decision
    requires k < |run|
  {
    Step(After(run[..k]), run[k]).1
  }

  // The n frames before frame k were smoothed frames of raw noise heard as voice.
  predicate HungOver(run: seq<Analysis>, k: nat, n: nat)
    requires k <= |run|
  {
    n <= k && forall i :: k - n <= i < k ==> DecisionAt(run, i) == Decision(true, false, true, false)
  }

  // The n frames before frame k were smoothed frames of noise.
  predicate Noisy(run: seq<Analysis>, k: nat, n: nat)
    requires k <= |run|
  {
    n <= k && forall i :: k - n <= i < k ==> DecisionAt(run, i).running && !DecisionAt(run, i).output
  }

  lemma AfterStep(run: seq<Analysis>, k: nat)
    requires k < |run|
    ensures After(run[..k + 1]) == Step(After(run[..k]), run[k]).0
  {
    assert run[..k + 1][..k] == run[..k];
  }

  predicate Bounded(d: Detector, k: nat) {
    && d.frameCount <= k && d.inert <= HANGOVER && d.smoothing <= 4 && Is32(d.continuity)
    && (d.frameCount <= START_UP_FRAMES ==> d.inert == 0 && d.continuity == 0)
    && (d.frameCount > START_UP_FRAMES && !d.last ==> d.inert == HANGOVER)
  }

  // What the counters say about the frames before frame k.
  predicate Remembers(run: seq<Analysis>, k: nat)
    requires k <= |run|
  {
    var d := After(run[..k]);
    && Bounded(d, k)
    && (k > 0 ==> d.last == DecisionAt(run, k - 1).output)
    && (d.last ==> HungOver(run, k, d.inert))
    && (d.continuity > 0 ==> Noisy(run, k, d.continuity))
  }

  lemma StepStaysBounded(d: Detector, a: Analysis, k: nat)
    requires Bounded(d, k) && k + 1 < 0x1_0000_0000
    ensures Bounded(Step(d, a).0, k + 1)
  {}

  // How one frame moves the two counters that remember.
  lemma StepCounts(d: Detector, a: Analysis, k: nat)
    requires Bounded(d, k)
    ensures var (d1, decision) := Step(d, a);
      && d1.last == decision.output
      && (d1.last && d1.inert > 0 ==> decision == Decision(true, false, true, false))
      && (d1.last && d1.inert > 1 ==> d.last && d1.inert <= d.inert + 1)
      && (d1.continuity > 0 ==> decision.running && !decision.output)
      && (d1.continuity > 1 ==> d1.continuity == d.continuity + 1)
  {}

  lemma HungOverGrows(run: seq<Analysis>, k: nat, before: nat, after: nat)
    requires k < |run|
    requires after > 0 ==> DecisionAt(run, k) == Decision(true, false, true, false)
    requires after > 1 ==> after <= before + 1 && HungOver(run, k, before)
    ensures HungOver(run, k + 1, after)
  {}

  lemma NoisyGrows(run: seq<Analysis>, k: nat, after: nat)
    requires k < |run| && DecisionAt(run, k).running && !DecisionAt(run, k).output
    requires after > 1 ==> Noisy(run, k, after - 1)
    requires after > 0
    ensures Noisy(run, k + 1, after)
  {}

  lemma RememberOneMore(run: seq<Analysis>, k: nat)
    requires k < |run| < 0x1_0000_0000 && Remembers(run, k)
    ensures Remembers(run, k + 1)
  {
    var d, d1 := After(run[..k]), After(run[..k + 1]);
    AfterStep(run, k);
    StepStaysBounded(d, run[k], k);
    StepCounts(d, run[k], k);
    if d1.last { HungOverGrows(run, k, d.inert, d1.inert); }
    if d1.continuity > 0 { NoisyGrows(run, k, d1.continuity); }
  }

  lemma {:induction false} CountersRemember(run: seq<Analysis>, k: nat)
    requires k <= |run| < 0x1_0000_0000
    ensures Remembers(run, k)
  {
    if k > 0 {
      CountersRemember(run, k - 1);
      RememberOneMore(run, k - 1);
    }
  }

  /** In every run of fewer than 2^32 frames the hysteresis counter never exceeds six and the
      second-stage counter never exceeds four between frames. */
  lemma CountersBounded(run: seq<Analysis>)
    requires |run| < 0x1_0000_0000
    ensures After(run).inert <= 6 && After(run).smoothing <= 4
  {
    CountersRemember(run, |run|);
    assert run[..|run|] == run;
  }

  /** After the start-up the output turns from voice to noise only behind six consecutive frames
      of raw noise that were all heard as voice. */
  lemma SwitchNeedsHangover(run: seq<Analysis>, j: nat)
    requires 0 < j < |run| < 0x1_0000_0000
    requires DecisionAt(run, j).running && !DecisionAt(run, j).output && DecisionAt(run, j - 1).output
    ensures j >= 6 && forall i :: j - 6 <= i < j ==> DecisionAt(run, i) == Decision(true, false, true, false)
  {
    CountersRemember(run, j);
    var d := After(run[..j]);
    if DecisionAt(run, j).third { ThirdNeedsNoise(run, j); }
    assert d.inert == HANGOVER;
  }

  /** The third stage overrules only behind eleven consecutive frames of noise. */
  lemma ThirdNeedsNoise(run: seq<Analysis>, j: nat)
    requires j < |run| < 0x1_0000_0000 && DecisionAt(run, j).third
    ensures j >= 11 && forall i :: j - 11 <= i < j ==> DecisionAt(run, i).running && !DecisionAt(run, i).output
  {
    CountersRemember(run, j);
    assert After(run[..j]).continuity > 10;
  }

  /** A frame of raw voice is heard as noise only behind eleven consecutive frames of noise: the
      smoothing never cuts into speech. */
  lemma VoiceIsKept(run: seq<Analysis>, j: nat)
    requires j < |run| < 0x1_0000_0000 && DecisionAt(run, j).raw && !DecisionAt(run, j).output
    ensures j >= 11 && forall i :: j - 11 <= i < j ==> DecisionAt(run, i).running && !DecisionAt(run, i).output
  {
    ThirdNeedsNoise(run, j);
  }

  // ----- every decision from earlier decisions and energies -----

  // The n frames before frame k were smoothed frames of raw noise, output as noise.
  predicate PlainNoise(run: seq<Analysis>, k: nat, n: nat)
    requires k <= |run|
  {
    n <= k && forall i :: k - n <= i < k ==> DecisionAt(run, i) == Decision(true, false, false, false)
  }

  // The mean lies more than 410 above the energy of a loud frame.
  predicate BelowTheMean(a: Analysis) { a.deltaEf > 410 && a.ef > LOUD }

  // Frame i is raw noise behind the hangover and voice all the same, but not for its energy.
  predicate Stretched(run: seq<Analysis>, i: nat)
    requires i < |run|
  {
    DecisionAt(run, i) == Decision(true, false, true, false) && HungOver(run, i, HANGOVER) && !BelowTheMean(run[i])
  }

  function StretchedBefore(run: seq<Analysis>, k: nat): nat
    requires k <= |run|
  {
    if k == 0 then 0 else StretchedBefore(run, k - 1) + if Stretched(run, k - 1) then 1 else 0
  }

  // Every fifth stretched frame is followed by one that is not.
  predicate MayStretch(run: seq<Analysis>, k: nat)
    requires k <= |run|
  {
    k > 0 && Stretched(run, k - 1) ==> StretchedBefore(run, k) % 5 != 0
  }

  // What the state holds, read from the decisions and energies before frame k.
  predicate CountersTell(run: seq<Analysis>, k: nat)
    requires k <= |run|
  {
    var d := After(run[..k]);
    && 0 <= d.continuity && PlainNoise(run, k, d.continuity) && !PlainNoise(run, k, d.continuity + 1)
    && (d.inert < HANGOVER ==> !HungOver(run, k, d.inert + 1))
    && (d.continuity > 0 ==> !d.last && d.frameCount > START_UP_FRAMES)
  }

  predicate MemoryTells(run: seq<Analysis>, k: nat)
    requires k <= |run|
  {
    var d := After(run[..k]);
    && (k > 0 ==> d.previousEf == run[k - 1].ef && (DecisionAt(run, k - 1).running <==> d.frameCount > START_UP_FRAMES))
    && (k > 1 ==> d.lastButOne == DecisionAt(run, k - 2).output)
  }

  predicate StretchTells(run: seq<Analysis>, k: nat)
    requires k <= |run|
  {
    var d := After(run[..k]);
    && d.smoothing == StretchedBefore(run, k) % 5 && (d.secondStage <==> MayStretch(run, k))
    && (d.frameCount <= START_UP_FRAMES ==> d.secondStage)
  }

  // One frame on a state whose noise counter is zero behind voice.
  lemma StepTells(d: Detector, a: Analysis, k: nat)
    requires Bounded(d, k) && k + 1 < 0x7fffffff && 0 <= d.continuity <= k
    requires d.continuity > 0 ==> !d.last && d.frameCount > START_UP_FRAMES
    ensures var (d1, decision) := Step(d, a);
      && (decision.third <==> decision.running && decision.raw && !decision.output)
      && d1.continuity == (if decision == Decision(true, false, false, false) then d.continuity + 1 else 0)
      && (d1.continuity > 0 ==> !d1.last && d1.frameCount > START_UP_FRAMES)
      && (d1.inert < HANGOVER ==> decision != Decision(true, false, true, false) || d1.inert == d.inert + 1)
      && d1.previousEf == a.ef && d1.lastButOne == d.last && d1.last == decision.output
      && (decision.running <==> d1.frameCount > START_UP_FRAMES)
  {}

  // The decision itself, and whether the second stage made it.
  lemma StepDecides(d: Detector, a: Analysis, k: nat, hung: bool)
    requires Bounded(d, k) && k + 1 < 0x7fffffff && 0 <= d.continuity <= k && (hung <==> d.last && d.inert == HANGOVER)
    requires d.continuity > 0 ==> !d.last && d.frameCount > START_UP_FRAMES
    ensures var (d1, decision) := Step(d, a);
      var second := d.secondStage && d.lastButOne && Abs(a.ef - d.previousEf) <= 614;
      var stretched := decision == Decision(true, false, true, false) && hung && !BelowTheMean(a);
      && (decision.running ==> (decision.output <==>
           if decision.raw then !(d.continuity >= 11 && a.ef - d.previousEf <= 614)
           else d.frameCount <= START_UP_FRAMES || (d.last && (!hung || BelowTheMean(a) || second))))
      && (stretched ==> d1.smoothing == (d.smoothing + 1) % 5 && d1.secondStage == (d1.smoothing != 0))
      && (!stretched ==> d1.smoothing == d.smoothing && (d1.secondStage || (!decision.running && !d.secondStage)))
  {}

  lemma PlainNoiseGrows(run: seq<Analysis>, k: nat, n: nat)
    requires k < |run|
    ensures PlainNoise(run, k + 1, n + 1) <==> PlainNoise(run, k, n) && DecisionAt(run, k) == Decision(true, false, false, false)
  {}

  lemma HungOverGrowsIff(run: seq<Analysis>, k: nat, n: nat)
    requires k < |run|
    ensures HungOver(run, k + 1, n + 1) <==> HungOver(run, k, n) && DecisionAt(run, k) == Decision(true, false, true, false)
  {}

  lemma CountersTellOneMore(run: seq<Analysis>, k: nat)
    requires k < |run| < 0x7fffffff && Bounded(After(run[..k]), k) && CountersTell(run, k)
    ensures CountersTell(run, k + 1)
  {
    var d := After(run[..k]);
    AfterStep(run, k);
    StepTells(d, run[k], k);
    PlainNoiseGrows(run, k, d.continuity);
    PlainNoiseGrows(run, k, d.continuity + 1);
    PlainNoiseGrows(run, k, 0);
    HungOverGrowsIff(run, k, Step(d, run[k]).0.inert);
  }

  lemma HungIs(run: seq<Analysis>, k: nat)
    requires k <= |run| && Remembers(run, k) && CountersTell(run, k)
    ensures HungOver(run, k, HANGOVER) <==> After(run[..k]).last && After(run[..k]).inert == HANGOVER
  {
    var d := After(run[..k]);
    if d.inert < HANGOVER { HungLess(run, k, HANGOVER, d.inert + 1); }
    assert HungOver(run, k, HANGOVER) ==> DecisionAt(run, k - 1).output;
  }

  lemma HungLess(run: seq<Analysis>, k: nat, n: nat, m: nat)
    requires k <= |run| && m <= n
    ensures HungOver(run, k, n) ==> HungOver(run, k, m)
  {}

  lemma MemoryTellsOneMore(run: seq<Analysis>, k: nat)
    requires k < |run| < 0x7fffffff && Remembers(run, k) && CountersTell(run, k)
    ensures MemoryTells(run, k + 1)
  {
    AfterStep(run, k);
    StepTells(After(run[..k]), run[k], k);
  }

  lemma StretchTellsOneMore(run: seq<Analysis>, k: nat)
    requires k < |run| < 0x7fffffff && Remembers(run, k) && CountersTell(run, k) && StretchTells(run, k)
    ensures StretchTells(run, k + 1)
  {
    AfterStep(run, k);
    HungIs(run, k);
    StretchOne(After(run[..k]), run[k], k, HungOver(run, k, HANGOVER), StretchedBefore(run, k));
    assert Stretched(run, k) ==> StretchedBefore(run, k + 1) == StretchedBefore(run, k) + 1;
  }

  lemma StretchOne(d: Detector, a: Analysis, k: nat, hung: bool, count: nat)
    requires Bounded(d, k) && k + 1 < 0x7fffffff && 0 <= d.continuity <= k && (hung <==> d.last && d.inert == HANGOVER)
    requires d.continuity > 0 ==> !d.last && d.frameCount > START_UP_FRAMES
    requires d.smoothing == count % 5 && (d.frameCount <= START_UP_FRAMES ==> d.secondStage)
    ensures var (d1, decision) := Step(d, a);
      && (d1.frameCount <= START_UP_FRAMES ==> d1.secondStage)
      && if decision == Decision(true, false, true, false) && hung && !BelowTheMean(a)
         then d1.smoothing == (count + 1) % 5 && (d1.secondStage <==> (count + 1) % 5 != 0)
         else d1.smoothing == count % 5 && d1.secondStage
  {
    StepDecides(d, a, k, hung);
    StepTells(d, a, k);
  }

  lemma {:induction false} AllTell(run: seq<Analysis>, k: nat)
    requires k <= |run| < 0x7fffffff
    ensures Remembers(run, k) && CountersTell(run, k) && MemoryTells(run, k) && StretchTells(run, k)
  {
    CountersRemember(run, k);
    if k > 0 {
      AllTell(run, k - 1);
      CountersTellOneMore(run, k - 1);
      MemoryTellsOneMore(run, k - 1);
      StretchTellsOneMore(run, k - 1);
    }
  }

  // Eleven frames of plain noise went before, and the energy hardly rises.
  predicate Cut(run: seq<Analysis>, j: nat)
    requires 0 < j < |run|
  {
    PlainNoise(run, j, 11) && run[j].ef - run[j - 1].ef <= 614
  }

  // Voice went before, and the hangover lasts, or the energy lies below the mean, or it is nearly
  // that of the frame before and the last stretch has been short.
  predicate Kept(run: seq<Analysis>, j: nat)
    requires 1 < j < |run|
  {
    DecisionAt(run, j - 1).output
    && (!HungOver(run, j, HANGOVER) || BelowTheMean(run[j])
        || (DecisionAt(run, j - 2).output && Abs(run[j].ef - run[j - 1].ef) <= 614 && MayStretch(run, j)))
  }

  // Frame j as voice: raw voice that is not cut, raw noise behind the start-up or kept.
  predicate HeardAsVoice(run: seq<Analysis>, j: nat)
    requires 1 < j < |run|
  {
    if DecisionAt(run, j).raw then !Cut(run, j) else !DecisionAt(run, j - 1).running || Kept(run, j)
  }

  lemma TrailingNoise(run: seq<Analysis>, k: nat, c: nat, n: nat)
    requires k <= |run| && PlainNoise(run, k, c) && !PlainNoise(run, k, c + 1)
    ensures PlainNoise(run, k, n) <==> n <= c
  {
    if n > c { PlainLess(run, k, n, c + 1); }
  }

  lemma PlainLess(run: seq<Analysis>, k: nat, n: nat, m: nat)
    requires k <= |run| && m <= n
    ensures PlainNoise(run, k, n) ==> PlainNoise(run, k, m)
  {}

  // No frame is smoothed before the start-up is over.
  lemma RunningIsLate(run: seq<Analysis>, j: nat)
    requires j < |run| < 0x7fffffff && DecisionAt(run, j).running
    ensures j >= START_UP_FRAMES
  {
    CountersRemember(run, j);
  }

  /** Every smoothed decision, over every run, from the decisions and energies before it and nothing
      else: no counter is left in the condition. */
  lemma DecisionIff(run: seq<Analysis>, j: nat)
    requires j < |run| < 0x7fffffff && DecisionAt(run, j).running
    ensures j > 1 && (DecisionAt(run, j).output <==> HeardAsVoice(run, j))
  {
    var d := After(run[..j]);
    RunningIsLate(run, j);
    AllTell(run, j);
    HungIs(run, j);
    TrailingNoise(run, j, d.continuity, 11);
    StepDecides(d, run[j], j, HungOver(run, j, HANGOVER));
  }

  /** So raw voice is cut if and only if the last eleven frames were raw noise output as noise and the
      energy rises by 614 at most; */
  lemma VoiceIsCutIff(run: seq<Analysis>, j: nat)
    requires j < |run| < 0x7fffffff && DecisionAt(run, j).running && DecisionAt(run, j).raw
    ensures j > 1 && (!DecisionAt(run, j).output <==> PlainNoise(run, j, 11) && run[j].ef - run[j - 1].ef <= 614)
  {
    DecisionIff(run, j);
  }

  /** and never in two frames in a row, though a cut frame is output as noise like the eleven before it. */
  lemma VoiceIsCutOnce(run: seq<Analysis>, j: nat)
    requires j + 1 < |run| < 0x7fffffff && DecisionAt(run, j).running && DecisionAt(run, j + 1).running
    requires DecisionAt(run, j).raw && DecisionAt(run, j + 1).raw
    ensures DecisionAt(run, j).output || DecisionAt(run, j + 1).output
  {
    VoiceIsCutIff(run, j + 1);
    assert PlainNoise(run, j + 1, 11) ==> DecisionAt(run, j) == Decision(true, false, false, false);
  }

  // ----- the first smoothing stage -----

  // The code keeps voice where the mean lies above the frame's energy; its comment has it the other way.
  predicate FirstStageKeeps(d: Detector, a: Analysis) { d.last && BelowTheMean(a) }

  predicate SecondStageKeeps(d: Detector, a: Analysis) { d.secondStage && d.last && d.lastButOne && SmallChange(d, a) }

  /** A frame of raw noise behind the hangover is heard as voice if and only if the frame before was
      and either its energy, still loud, lies more than 410 below the mean or the second stage
      keeps it.  The third stage never overrules here. */
  lemma NoiseIsKeptIff(run: seq<Analysis>, j: nat)
    requires 0 < j < |run| < 0x1_0000_0000 && After(run[..j]).inert == HANGOVER
    requires DecisionAt(run, j).running && !DecisionAt(run, j).raw
    ensures var d := After(run[..j]);
      DecisionAt(run, j).output <==> FirstStageKeeps(d, run[j]) || SecondStageKeeps(d, run[j])
  {
    CountersRemember(run, j);
    assert After(run[..j]).last ==> After(run[..j]).continuity <= 0;
  }

  const STEADY := Analysis(4000, 0, false)

  // A frame as the analysis sees it beside a given mean energy, with nothing for the boundary test.
  function Beside(mean: int, ef: int): Analysis { Analysis(ef, mean - ef, false) }

  // A loud start-up, then as much of the hangover as there are frames for.
  lemma {:induction false} SteadyState(run: seq<Analysis>)
    requires |run| <= START_UP_FRAMES + HANGOVER && forall i :: 0 <= i < |run| ==> run[i] == STEADY
    ensures run != [] ==> After(run) == Detector(|run|, if |run| < START_UP_FRAMES then |run| else START_UP_FRAMES,
      if |run| < START_UP_FRAMES then 0 else |run| - START_UP_FRAMES, true, true, true, 0, 4000, 0)
  {
    if run != [] { SteadyState(run[..|run| - 1]); }
  }

  /** After the same 38 frames a frame of energy 6000 is dropped beside a mean of 1000, though its energy
      is far above that, and kept beside a mean of 7000, which it is below. */
  lemma OnlyBelowTheMeanIsKept(steady: seq<Analysis>, above: Analysis, below: Analysis)
    requires |steady| == START_UP_FRAMES + HANGOVER && forall i :: 0 <= i < |steady| ==> steady[i] == STEADY
    requires above == Beside(1000, 6000) && below == Beside(7000, 6000)
    ensures !DecisionAt(steady + [above], |steady|).output && DecisionAt(steady + [below], |steady|).output
  {
    SteadyState(steady);
    assert (steady + [above])[..|steady|] == (steady + [below])[..|steady|] == steady;
  }

  // ----- the start-up -----

  predicate LoudIn(run: seq<Analysis>, from: nat, to: nat)
    requires to <= |run|
  {
    exists i :: from <= i < to && run[i].ef >= LOUD
  }

  // The last whole blocks of 32 frames before frame k have a loud one.
  predicate Started(run: seq<Analysis>, k: nat)
    requires k <= |run|
  {
    LoudIn(run, 0, 32 * (k / 32))
  }

  // The start of the block that frame k - 1 is in.
  function BlockOf(k: nat): nat { if k == 0 then 0 else 32 * ((k - 1) / 32) }

  predicate StartUpTells(run: seq<Analysis>, k: nat)
    requires k <= |run|
  {
    var d := After(run[..k]);
    if LoudIn(run, 0, BlockOf(k)) then d.frameCount > START_UP_FRAMES
    else d.frameCount == k - BlockOf(k) && d.validFrames <= k - BlockOf(k) && (d.validFrames > 0 <==> LoudIn(run, BlockOf(k), k))
  }

  lemma LoudSplits(run: seq<Analysis>, from: nat, mid: nat, to: nat)
    requires from <= mid <= to <= |run|
    ensures LoudIn(run, from, to) <==> LoudIn(run, from, mid) || LoudIn(run, mid, to)
  {}

  lemma BlocksStep(k: nat)
    ensures BlockOf(k) <= k && BlockOf(k + 1) == 32 * (k / 32)
    ensures k % 32 != 0 ==> BlockOf(k + 1) == BlockOf(k)
    ensures k % 32 == 0 ==> BlockOf(k + 1) == k && (k > 0 ==> BlockOf(k) == k - 32)
    ensures k > 0 ==> 0 < k - BlockOf(k) <= 32 && (k - BlockOf(k) == 32 <==> k % 32 == 0)
  {}

  // One frame of the start-up.
  lemma StartUpOne(d: Detector, a: Analysis, k: nat)
    requires d.frameCount <= START_UP_FRAMES && d.validFrames <= 32
    ensures var (d1, decision) := Step(d, a);
      && (decision.running <==> d.frameCount == START_UP_FRAMES && d.validFrames > 0)
      && (decision.running ==> d1.frameCount > START_UP_FRAMES)
      && (!decision.running ==> d1.frameCount == (if d.frameCount == START_UP_FRAMES then 0 else d.frameCount) + 1)
      && (!decision.running ==> d1.validFrames == d.validFrames + if a.ef >= LOUD then 1 else 0)
      && (!decision.running ==> decision.output == decision.raw == (a.ef >= LOUD))
  {}

  lemma StartUpTellsOneMore(run: seq<Analysis>, k: nat)
    requires k < |run| < 0x7fffffff && StartUpTells(run, k) && After(run[..k]).frameCount <= k
    ensures StartUpTells(run, k + 1) && (DecisionAt(run, k).running <==> Started(run, k))
  {
    var d := After(run[..k]);
    AfterStep(run, k);
    BlocksStep(k);
    LoudSplits(run, 0, BlockOf(k), BlockOf(k + 1));
    LoudSplits(run, BlockOf(k + 1), k, k + 1);
    assert LoudIn(run, k, k + 1) <==> run[k].ef >= LOUD;
    if !LoudIn(run, 0, BlockOf(k)) { StartUpOne(d, run[k], k); }
  }

  lemma {:induction false} AllStartUpTells(run: seq<Analysis>, k: nat)
    requires k <= |run| < 0x7fffffff
    ensures StartUpTells(run, k)
  {
    if k > 0 {
      AllStartUpTells(run, k - 1);
      CountersRemember(run, k - 1);
      StartUpTellsOneMore(run, k - 1);
    }
  }

  /** A frame is smoothed if and only if some whole block of 32 frames before it had a loud one; until then
      its loudness alone decides. */
  lemma RunningIff(run: seq<Analysis>, j: nat)
    requires j < |run| < 0x7fffffff
    ensures DecisionAt(run, j).running <==> Started(run, j)
    ensures !DecisionAt(run, j).running ==> (DecisionAt(run, j).output <==> run[j].ef >= LOUD)
  {
    AllStartUpTells(run, j);
    CountersRemember(run, j);
    StartUpTellsOneMore(run, j);
  }

  // Energies, all too low, for as long as one likes.
  predicate Quiet(run: seq<Analysis>) { forall i :: 0 <= i < |run| ==> run[i].ef < LOUD }

  /** As long as no frame is loud the start-up begins again and again, and every frame is noise. */
  lemma {:induction false} QuietNeverStarts(run: seq<Analysis>)
    requires Quiet(run)
    ensures After(run).frameCount <= START_UP_FRAMES && After(run).validFrames == 0
    ensures forall k :: 0 <= k < |run| ==> !DecisionAt(run, k).running && !DecisionAt(run, k).output
  {
    if run != [] {
      var before := run[..|run| - 1];
      QuietNeverStarts(before);
      forall k | 0 <= k < |run| ensures !DecisionAt(run, k).running && !DecisionAt(run, k).output {
        if k < |before| {
          assert before[..k] == run[..k];
          assert DecisionAt(before, k) == DecisionAt(run, k);
        }
      }
    }
  }
}
