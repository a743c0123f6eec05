/** Pitch sharpening is not in lockstep.  The two sides carry their own gain from subframe to
    subframe: the encoder bounds it by 1.2 and keeps it through a silence, the decoder bounds it by
    0.8 and sets it back in every silent frame; then one truncates and the other rounds. */
module PulseSharpening {
  import opened Common
  import opened FixedPoint
  import opened LsfVector
  import opened MaPrediction
  import opened LsfCodebook
  import opened BitStream
  import opened PitchDelay
  import opened FixedCodeword
  import opened GainCodebook
  import opened ComfortNoise
  import opened Channel
  import opened Lockstep

  // The quantised pitch gain of the run's last speech subframe; the smallest bound before any.
  function LastPitchGain(run: seq<Choice>): int
    requires IsRun(run)
  {
    if run == [] then MIN_SHARPENING
    else
      match run[|run| - 1]
      case Talk(s) => PitchGain(s.gains2.a, s.gains2.b)
      case Hush(_) => LastPitchGain(run[..|run| - 1])
  }

  predicate EndsInSilence(run: seq<Choice>) { run != [] && run[|run| - 1].Hush? }

  // What the decoder sharpens with after the run.
  function DecoderGain(run: seq<Choice>): int
    requires IsRun(run)
  {
    if EndsInSilence(run) then MIN_SHARPENING else Bounded(LastPitchGain(run), MAX_SHARPENING_DECODER)
  }

  lemma EncodedGain(kit: Kit, e: Encoder, c: Choice)
    requires Shaped(kit.tables) && IsEncoder(e) && IsChoice(c)
    ensures Encode(kit, e, c).0.sharpening == match c
      case Talk(s) => Bounded(PitchGain(s.gains2.a, s.gains2.b), MAX_SHARPENING_ENCODER)
      case Hush(_) => e.sharpening
  {}

  lemma DecodedSpeechGain(kit: Kit, d: Decoder, s: Speech)
    requires Shaped(kit.tables) && IsDecoder(d) && IsSpeech(s)
    ensures DecodeSpeech(kit, d, SpeechFields(s), false).0.sharpening
      == Bounded(PitchGain(s.gains2.a, s.gains2.b), MAX_SHARPENING_DECODER)
  {
    IndexMapsInverse(s.gains2.a, s.gains2.b);
  }

  lemma DecodedNoiseGain(kit: Kit, d: Decoder, sid: Option<SidFields>)
    requires Shaped(kit.tables) && IsDecoder(d) && (sid.Some? ==> SidFieldsInRange(sid.value))
    ensures DecodeSid(kit, d, sid).0.sharpening == MIN_SHARPENING
  {}

  function GainSetBy(c: Choice): int
    requires IsChoice(c)
  {
    match c
    case Talk(s) => Bounded(PitchGain(s.gains2.a, s.gains2.b), MAX_SHARPENING_DECODER)
    case Hush(_) => MIN_SHARPENING
  }

  lemma FollowedGain(kit: Kit, e: Encoder, d: Decoder, c: Choice)
    requires Shaped(kit.tables) && IsEncoder(e) && IsDecoder(d) && IsChoice(c) && e.talking == d.talking
    ensures Follow(kit, e, d, c).0.sharpening == GainSetBy(c)
  {
    match c
    case Talk(s) => DecodedSpeechGain(kit, d, s);
    case Hush(n) =>
      NoiseIsFollowed(kit, e, d, n);
      DecodedNoiseGain(kit, d, SidRead(e, n));
  }

  lemma {:induction false} EncoderGainAfter(kit: Kit, run: seq<Choice>)
    requires Shaped(kit.tables) && IsRun(run)
    ensures EncoderAfter(kit, InitialEncoder(), run).sharpening == Bounded(LastPitchGain(run), MAX_SHARPENING_ENCODER)
  {
    if run != [] {
      EncoderGainAfter(kit, run[..|run| - 1]);
      EncodedGain(kit, EncoderAfter(kit, InitialEncoder(), run[..|run| - 1]), run[|run| - 1]);
    }
  }

  lemma FlagsMatch(kit: Kit, run: seq<Choice>)
    requires Shaped(kit.tables) && IsRun(run)
    ensures EncoderAfter(kit, InitialEncoder(), run).talking == Follower(kit, InitialEncoder(), InitialDecoder(), run).talking
  {
    StartInSync();
    RunKeepsAgreement(kit, InitialEncoder(), InitialDecoder(), run, 5);
  }

  lemma DecoderGainIsLast(run: seq<Choice>)
    requires IsRun(run)
    ensures DecoderGain(run) == if run == [] then MIN_SHARPENING else GainSetBy(run[|run| - 1])
  {}

  lemma FollowedRunGain(kit: Kit, run: seq<Choice>)
    requires Shaped(kit.tables) && IsRun(run) && run != []
    ensures Follower(kit, InitialEncoder(), InitialDecoder(), run).sharpening == GainSetBy(run[|run| - 1])
  {
    var before, last := run[..|run| - 1], run[|run| - 1];
    FollowerStep(kit, InitialEncoder(), InitialDecoder(), run);
    FlagsMatch(kit, before);
    FollowedGain(kit, EncoderAfter(kit, InitialEncoder(), before), Follower(kit, InitialEncoder(), InitialDecoder(), before), last);
  }

  lemma DecoderGainAfter(kit: Kit, run: seq<Choice>)
    requires Shaped(kit.tables) && IsRun(run)
    ensures Follower(kit, InitialEncoder(), InitialDecoder(), run).sharpening == DecoderGain(run)
  {
    DecoderGainIsLast(run);
    if run == [] {
      assert Stream(kit, InitialEncoder(), run) == [];
    } else {
      FollowedRunGain(kit, run);
    }
  }

  // The two sides' gains after the run are one: small enough for both bounds, and not set back,
  // or no larger than what it is set back to.
  predicate GainsMeet(run: seq<Choice>)
    requires IsRun(run)
  {
    LastPitchGain(run) <= MIN_SHARPENING || (LastPitchGain(run) <= MAX_SHARPENING_DECODER && !EndsInSilence(run))
  }

  /** Over every run of speech and noise frames the two sides sharpen the next subframe with the same
      gain if and only if the last quantised gain is at most 0.2, or at most 0.8 with no silence since. */
  lemma SharpeningGainsEqualIff(kit: Kit, run: seq<Choice>)
    requires Shaped(kit.tables) && IsRun(run)
    ensures EncoderAfter(kit, InitialEncoder(), run).sharpening == Follower(kit, InitialEncoder(), InitialDecoder(), run).sharpening
      <==> GainsMeet(run)
  {
    EncoderGainAfter(kit, run);
    DecoderGainAfter(kit, run);
  }

  // ----- the pulse vectors -----

  // No entry pair of the gain codebook lies just above one of the bounds.
  lemma GainGaps(a: nat, b: nat)
    requires a < 8 && b < 16
    ensures PitchGain(a, b) > MIN_SHARPENING ==> PitchGain(a, b) > MIN_SHARPENING + 2
    ensures PitchGain(a, b) > MAX_SHARPENING_DECODER ==> PitchGain(a, b) > MAX_SHARPENING_DECODER + 2
  {}

  lemma {:induction false} LastGainGaps(run: seq<Choice>)
    requires IsRun(run)
    ensures LastPitchGain(run) > MIN_SHARPENING ==> LastPitchGain(run) > MIN_SHARPENING + 2
    ensures LastPitchGain(run) > MAX_SHARPENING_DECODER ==> LastPitchGain(run) > MAX_SHARPENING_DECODER + 2
  {
    if run != [] {
      match run[|run| - 1]
      case Talk(s) => GainGaps(s.gains2.a, s.gains2.b);
      case Hush(_) => LastGainGaps(run[..|run| - 1]);
    }
  }

  // Both sides' vectors for the first subframe of the frame after a run, and for the second.
  predicate FirstVectorsAgree(kit: Kit, run: seq<Choice>, s: Speech)
    requires Shaped(kit.tables) && IsRun(run) && IsSpeech(s)
  {
    var e, d := EncoderAfter(kit, InitialEncoder(), run), Follower(kit, InitialEncoder(), InitialDecoder(), run);
    s.delay1.whole >= 1 && e.sharpening >= 0 && d.sharpening >= 0
    && VectorsAgree(s.pulses1, s.delay1.whole, e.sharpening, d.sharpening)
  }

  predicate SecondVectorsAgree(s: Speech)
    requires IsSpeech(s)
  {
    var gain := PitchGain(s.gains1.a, s.gains1.b);
    VectorsAgree(s.pulses2, s.delay2.whole, Bounded(gain, MAX_SHARPENING_ENCODER), Bounded(gain, MAX_SHARPENING_DECODER))
  }

  lemma BoundsApart(gain: int, silent: bool)
    requires gain > MIN_SHARPENING ==> gain > MIN_SHARPENING + 2
    requires gain > MAX_SHARPENING_DECODER ==> gain > MAX_SHARPENING_DECODER + 2
    ensures var x, y := Bounded(gain, MAX_SHARPENING_ENCODER), if silent then MIN_SHARPENING else Bounded(gain, MAX_SHARPENING_DECODER);
      && MIN_SHARPENING <= y <= x <= MAX_SHARPENING_ENCODER && (x == y || x > y + 2)
      && (x == y <==> gain <= MIN_SHARPENING || (gain <= MAX_SHARPENING_DECODER && !silent))
  {}

  /** For every run and every speech frame after it, the pulse vectors that the two sides build for
      the first subframe agree if and only if no pulse echoes inside the subframe, or the gains
      after the run meet at an even value. */
  lemma FirstVectorsAgreeIff(kit: Kit, run: seq<Choice>, s: Speech)
    requires Shaped(kit.tables) && IsRun(run) && IsSpeech(s)
    ensures FirstVectorsAgree(kit, run, s)
      <==> !HasEcho(s.pulses1, s.delay1.whole) || (GainsMeet(run) && Bounded(LastPitchGain(run), MAX_SHARPENING_ENCODER) % 2 == 0)
  {
    EncoderGainAfter(kit, run);
    DecoderGainAfter(kit, run);
    LastGainGaps(run);
    BoundsApart(LastPitchGain(run), EndsInSilence(run));
    SharpeningAgreesIff(s.pulses1, s.delay1.whole, Bounded(LastPitchGain(run), MAX_SHARPENING_ENCODER), DecoderGain(run));
  }

  /** For the second subframe: no echo, or the first subframe's gain at most 0.8 and even as bounded. */
  lemma SecondVectorsAgreeIff(s: Speech)
    requires IsSpeech(s)
    ensures var gain := PitchGain(s.gains1.a, s.gains1.b);
      SecondVectorsAgree(s) <==>
      !HasEcho(s.pulses2, s.delay2.whole) || (gain <= MAX_SHARPENING_DECODER && Bounded(gain, MAX_SHARPENING_ENCODER) % 2 == 0)
  {
    var gain := PitchGain(s.gains1.a, s.gains1.b);
    GainGaps(s.gains1.a, s.gains1.b);
    BoundsApart(gain, false);
    SharpeningAgreesIff(s.pulses2, s.delay2.whole, Bounded(gain, MAX_SHARPENING_ENCODER), Bounded(gain, MAX_SHARPENING_DECODER));
  }

  // ----- one run for each way to fail -----

  // Four pulses at the start of the subframe, a short delay, and entry b of the second gain stage.
  function Example(b: nat): (s: Speech)
    requires b < 16
    ensures IsSpeech(s) && s.gains2 == Pair(0, b) && s.delay1 == Delay(20, 0) && HasEcho(s.pulses1, 20)
  {
    var p := Pulses(0, 1, 2, 3, 0, true, true, true, true);
    assert EchoesAt(p, 20, 0);
    Speech(0, 0, 0, 0, Delay(20, 0), Delay(20, 0), p, p, Pair(0, b), Pair(0, b))
  }

  lemma ExampleGains()
    ensures PitchGain(0, 5) == 9120 && PitchGain(0, 7) == 11569 && PitchGain(0, 13) == 16112
  {}

  // A run of one speech frame, and the same with a noise frame behind it.
  lemma GainOfOne(s: Speech)
    requires IsSpeech(s)
    ensures IsRun([Talk(s)]) && LastPitchGain([Talk(s)]) == PitchGain(s.gains2.a, s.gains2.b) && !EndsInSilence([Talk(s)])
  {}

  lemma GainOfTwo(s: Speech, n: Noise)
    requires IsSpeech(s) && SidFieldsInRange(n.sid)
    ensures var run := [Talk(s), Hush(n)];
      && IsRun(run) && run[..1] == [Talk(s)] && EndsInSilence(run)
      && LastPitchGain(run) == PitchGain(s.gains2.a, s.gains2.b)
  {
    GainOfOne(s);
    assert [Talk(s), Hush(n)][..1] == [Talk(s)];
  }

  // The gains of both sides and the disagreement, from what is known of a run.
  lemma Splits(kit: Kit, run: seq<Choice>, s: Speech)
    requires Shaped(kit.tables) && IsRun(run) && IsSpeech(s) && HasEcho(s.pulses1, s.delay1.whole)
    requires !GainsMeet(run) || Bounded(LastPitchGain(run), MAX_SHARPENING_ENCODER) % 2 != 0
    ensures EncoderAfter(kit, InitialEncoder(), run).sharpening == Bounded(LastPitchGain(run), MAX_SHARPENING_ENCODER)
    ensures Follower(kit, InitialEncoder(), InitialDecoder(), run).sharpening == DecoderGain(run)
    ensures !FirstVectorsAgree(kit, run, s)
  {
    EncoderGainAfter(kit, run);
    DecoderGainAfter(kit, run);
    FirstVectorsAgreeIff(kit, run, s);
  }

  /** A gain of 16112 splits the sides at once: the encoder sharpens with it, the decoder with 13107. */
  lemma LargeGainSplits(kit: Kit)
    requires Shaped(kit.tables)
    ensures var run := [Talk(Example(13))];
      && EncoderAfter(kit, InitialEncoder(), run).sharpening == 16112
      && Follower(kit, InitialEncoder(), InitialDecoder(), run).sharpening == 13107
      && !FirstVectorsAgree(kit, run, Example(13))
  {
    var s := Example(13);
    ExampleGains();
    GainOfOne(s);
    Splits(kit, [Talk(s)], s);
  }

  /** A gain of 9120 meets both bounds, until one noise frame sets the decoder back to 3277. */
  lemma SilenceSplits(kit: Kit, n: Noise)
    requires Shaped(kit.tables) && SidFieldsInRange(n.sid)
    ensures var run := [Talk(Example(5)), Hush(n)];
      && GainsMeet(run[..1])
      && EncoderAfter(kit, InitialEncoder(), run).sharpening == 9120
      && Follower(kit, InitialEncoder(), InitialDecoder(), run).sharpening == 3277
      && !FirstVectorsAgree(kit, run, Example(5))
  {
    var s := Example(5);
    ExampleGains();
    GainOfOne(s);
    GainOfTwo(s, n);
    Splits(kit, [Talk(s), Hush(n)], s);
  }

  /** An odd gain splits the roundings even where the gains meet. */
  lemma RoundingSplits(kit: Kit)
    requires Shaped(kit.tables)
    ensures var run := [Talk(Example(7))]; GainsMeet(run) && !FirstVectorsAgree(kit, run, Example(7))
  {
    var s := Example(7);
    ExampleGains();
    GainOfOne(s);
    Splits(kit, [Talk(s)], s);
  }
}
