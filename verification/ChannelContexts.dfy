/** The two channel contexts as the objects they are: buffers overwritten in place frame by
    frame.  Each frame method is tied to the state transformer of `Channel`. */
module ChannelContexts {
  import opened Common
  import opened FixedPoint
  import opened LsfVector
  import opened MaPrediction
  import opened LsfCodebook
  import opened BitStream
  import opened PitchDelay
  import opened FixedCodeword
  import opened GainCodebook
  import opened ComfortNoise
  import opened Channel

  // ----- passes both sides share -----

  method AddStages(first: seq<int>, low: seq<int>, high: seq<int>) returns (code: array<int>)
    requires IsRow(first) && IsRow(low) && IsRow(high)
    ensures fresh(code) && code.Length == NB_LSP_COEFF && code[..] == StageSum(first, low, high)
  {
    code := new int[NB_LSP_COEFF];
    var i := 0;
    while i < NB_LSP_COEFF / 2
      invariant 0 <= i <= NB_LSP_COEFF / 2
      invariant forall k :: 0 <= k < i ==> code[k] == Wrap16(first[k] + low[k])
    {
      code[i] := Wrap16(first[i] + low[i]);
      i := i + 1;
    }
    while i < NB_LSP_COEFF
      invariant NB_LSP_COEFF / 2 <= i <= NB_LSP_COEFF
      invariant forall k :: 0 <= k < i ==> code[k] == Wrap16(first[k] + if k < 5 then low[k] else high[k])
    {
      code[i] := Wrap16(first[i] + high[i]);
      i := i + 1;
    }
  }

  method ConvertToLsp(kit: Kit, lsf: array<int>, lsp: array<int>)
    requires lsf.Length == lsp.Length == NB_LSP_COEFF && lsf != lsp
    modifies lsp
    ensures lsp[..] == Lsp(kit, lsf[..])
  {
    var i := 0;
    while i < NB_LSP_COEFF
      invariant 0 <= i <= NB_LSP_COEFF
      invariant forall k :: 0 <= k < i ==> lsp[k] == kit.cos(lsf[k])
    {
      lsp[i] := kit.cos(lsf[i]);
      i := i + 1;
    }
  }

  // Interpolate with the previous vector, convert both to filters, remember the new one.
  method UpdateFilters(kit: Kit, previous: array<int>, current: array<int>) returns (filters: Filters)
    requires previous.Length == current.Length == NB_LSP_COEFF && previous != current
    modifies previous
    ensures filters == FiltersOf(kit, old(previous[..]), current[..])
    ensures previous[..] == current[..]
  {
    var interpolated := new int[NB_LSP_COEFF];
    var i := 0;
    while i < NB_LSP_COEFF
      invariant 0 <= i <= NB_LSP_COEFF
      invariant forall k :: 0 <= k < i ==> interpolated[k] == Wrap16(Pshr(Wrap32(old(previous[k]) + current[k]), 1))
      invariant previous[..] == old(previous[..])
    {
      interpolated[i] := Wrap16(Pshr(Wrap32(previous[i] + current[i]), 1));
      i := i + 1;
    }
    var middle := interpolated[..];
    assert middle == Interpolated(old(previous[..]), current[..]);
    i := 0;
    while i < NB_LSP_COEFF
      invariant 0 <= i <= NB_LSP_COEFF
      invariant forall k :: 0 <= k < i ==> previous[k] == current[k]
      modifies previous
    {
      previous[i] := current[i];
      i := i + 1;
    }
    assert previous[..] == current[..];
    filters := Filters(kit.toLp(middle), kit.toLp(current[..]));
  }

  // ----- encoder -----

  class EncoderContext {
    const previousqLsf: array2<int>
    const previousqLsp: array<int>
    const gainErrors: array<int>
    const sidqLsp: array<int>
    const random: RandomGenerator
    var previousVad: bool
    var countFr: int
    var currentSidGain: int
    var smoothedSidGain: int
    var lastQuantizedAdaptativeCodebookGain: int

    ghost predicate Valid()
      reads this, random
    {
      && IsHistoryBuffer(previousqLsf) && previousqLsp.Length == sidqLsp.Length == NB_LSP_COEFF
      && gainErrors.Length == GAIN_HISTORY && IsSeed(random.seed)
      && previousqLsp != sidqLsp && previousqLsp != gainErrors && sidqLsp != gainErrors
    }

    ghost function State(): (e: Encoder)
      requires Valid()
      reads this, random, previousqLsf, previousqLsp, gainErrors, sidqLsp
      ensures IsEncoder(e)
    {
      Encoder(Columns(previousqLsf), previousqLsp[..], gainErrors[..], previousVad, random.seed, countFr, sidqLsp[..],
              currentSidGain, smoothedSidGain, lastQuantizedAdaptativeCodebookGain)
    }

    constructor ()
      ensures Valid() && State() == InitialEncoder()
      ensures fresh(previousqLsf) && fresh(previousqLsp) && fresh(gainErrors) && fresh(sidqLsp) && fresh(random)
    {
      previousqLsf := new int[MA_MAX_K, NB_LSP_COEFF]((j, i) => if 0 <= i < NB_LSP_COEFF then INITIAL_LSF[i] else 0);
      previousqLsp := new int[NB_LSP_COEFF](i requires 0 <= i < NB_LSP_COEFF => INITIAL_QLSP[i]);
      gainErrors := new int[GAIN_HISTORY](_ => -14336);
      sidqLsp := new int[NB_LSP_COEFF](_ => 0);
      random := new RandomGenerator(RANDOM_SEED_INIT);
      previousVad, countFr, currentSidGain, smoothedSidGain := true, 0, 0, 0;
      lastQuantizedAdaptativeCodebookGain := MIN_SHARPENING;
      new;
      assert forall i :: 0 <= i < NB_LSP_COEFF ==> Column(previousqLsf, i) == InitialHistory()[i];
      assert Columns(previousqLsf) == InitialHistory();
      assert previousqLsp[..] == INITIAL_QLSP;
      assert gainErrors[..] == INITIAL_GAIN_ERRORS;
      assert sidqLsp[..] == [0, 0, 0, 0, 0, 0, 0, 0, 0, 0];
    }

    // Reconstruct the spectrum the searches chose.
    method QuantiseSpeech(kit: Kit, n: Fields) returns (filters: Filters)
      requires Valid() && Shaped(kit.tables) && FieldsInRange(n)
      modifies previousqLsf, previousqLsp
      ensures Columns(previousqLsf) == Shifted(old(Columns(previousqLsf)), SpeechCode(kit, n))
      ensures previousqLsp[..] == Lsp(kit, SpeechLsf(kit, old(Columns(previousqLsf)), n))
      ensures filters == FiltersOf(kit, old(previousqLsp[..]), previousqLsp[..])
    {
      var code := AddStages(kit.tables.first[n.L1], kit.tables.second[n.L2], kit.tables.second[n.L3]);
      var qLsf := new int[NB_LSP_COEFF];
      Reconstruct(kit.tables.speech[n.L0], code, previousqLsf, qLsf);
      var qLsp := new int[NB_LSP_COEFF];
      ConvertToLsp(kit, qLsf, qLsp);
      filters := UpdateFilters(kit, previousqLsp, qLsp);
    }

    method QuantiseBothGains(kit: Kit, first: Pair, second: Pair)
      requires InTables(first) && InTables(second) && gainErrors.Length == GAIN_HISTORY
      modifies this`lastQuantizedAdaptativeCodebookGain, gainErrors
      ensures gainErrors[..] == GainsPushed(kit, old(gainErrors[..]), first, second)
      ensures lastQuantizedAdaptativeCodebookGain == Bounded(PitchGain(second.a, second.b), MAX_SHARPENING_ENCODER)
    {
      ComputeGainPredictionError(kit.log2, Correction(first.a, first.b), gainErrors);
      RememberGain(PitchGain(first.a, first.b));
      ComputeGainPredictionError(kit.log2, Correction(second.a, second.b), gainErrors);
      RememberGain(PitchGain(second.a, second.b));
    }

    // Spectrum and gains, one after the other.
    method EncodeParts(kit: Kit, n: Fields, first: Pair, second: Pair) returns (filters: Filters)
      requires Valid() && Shaped(kit.tables) && FieldsInRange(n) && InTables(first) && InTables(second)
      modifies this`lastQuantizedAdaptativeCodebookGain, previousqLsf, previousqLsp, gainErrors
      ensures Columns(previousqLsf) == Shifted(old(Columns(previousqLsf)), SpeechCode(kit, n))
      ensures previousqLsp[..] == Lsp(kit, SpeechLsf(kit, old(Columns(previousqLsf)), n))
      ensures filters == FiltersOf(kit, old(previousqLsp[..]), previousqLsp[..])
      ensures gainErrors[..] == GainsPushed(kit, old(gainErrors[..]), first, second)
      ensures lastQuantizedAdaptativeCodebookGain == Bounded(PitchGain(second.a, second.b), MAX_SHARPENING_ENCODER)
    {
      filters := QuantiseSpeech(kit, n);
      ghost var lsp := previousqLsp[..];
      QuantiseBothGains(kit, first, second);
      assert previousqLsp[..] == lsp;
    }

    /** A speech frame after its searches: quantise the spectrum, push both gain errors. */
    method EncodeSpeechFrame(kit: Kit, s: Speech) returns (output: Output)
      requires Valid() && Shaped(kit.tables) && IsSpeech(s)
      modifies this, random, previousqLsf, previousqLsp, gainErrors
      ensures Valid() && (State(), output) == EncodeSpeech(kit, old(State()), s)
    {
      ghost var e := State();
      random.seed := RANDOM_SEED_INIT;
      previousVad := true;
      var filters := EncodeParts(kit, SpeechFields(s), s.gains1, s.gains2);
      assert sidqLsp[..] == e.sidqLsp;
      output := Voice(filters, s.delay1, s.delay2, s.pulses1, s.pulses2, GainsOf(s.gains1), GainsOf(s.gains2));
      SpeechEncoded(kit, e, s, State(), output);
    }

    // Bounded for the sharpening of the next subframe.
    method RememberGain(gain: int)
      modifies this`lastQuantizedAdaptativeCodebookGain
      ensures lastQuantizedAdaptativeCodebookGain == Bounded(gain, MAX_SHARPENING_ENCODER)
    {
      lastQuantizedAdaptativeCodebookGain := gain;
      if lastQuantizedAdaptativeCodebookGain > 19661 { lastQuantizedAdaptativeCodebookGain := 19661; }
      if lastQuantizedAdaptativeCodebookGain < 3277 { lastQuantizedAdaptativeCodebookGain := 3277; }
    }

    // The part of a noise frame that quantises a new spectrum.
    method QuantiseNoise(kit: Kit, n: SidFields)
      requires Valid() && Shaped(kit.tables) && SidFieldsInRange(n)
      modifies this`currentSidGain, previousqLsf, sidqLsp
      ensures Valid()
      ensures Columns(previousqLsf) == Shifted(old(Columns(previousqLsf)), NoiseCode(kit, n))
      ensures sidqLsp[..] == Lsp(kit, NoiseLsf(kit, old(Columns(previousqLsf)), n))
      ensures currentSidGain == SidGain(n.gain)
    {
      var code := AddStages(kit.tables.first[kit.tables.firstSubset[n.L1]],
                            kit.tables.second[kit.tables.lowSubset[n.L2]], kit.tables.second[kit.tables.highSubset[n.L2]]);
      var qLsf := new int[NB_LSP_COEFF];
      Reconstruct(kit.tables.noise[n.L0], code, previousqLsf, qLsf);
      ConvertToLsp(kit, qLsf, sidqLsp);
      currentSidGain := SidGain(n.gain);
    }

    // Descriptor or nothing, by the frame counter.
    method ChooseFrameType(changed: bool) returns (sid: bool)
      modifies this`countFr
      ensures sid == (previousVad || (old(countFr) + 1 >= 3 && changed))
      ensures countFr == if sid then 0 else if old(countFr) + 1 < 3 then old(countFr) + 1 else 3
    {
      if previousVad {
        sid := true;
      } else {
        countFr := countFr + 1;
        if countFr < 3 {
          sid := false;
        } else {
          sid := changed;
          countFr := 3;
        }
      }
      if sid { countFr := 0; }
    }

    method SmoothGain()
      modifies this`smoothedSidGain
      ensures smoothedSidGain == if previousVad then currentSidGain else Smoothed(old(smoothedSidGain), currentSidGain)
    {
      if previousVad {
        smoothedSidGain := currentSidGain;
      } else {
        smoothedSidGain := Wrap16(smoothedSidGain - smoothedSidGain / 8);
        smoothedSidGain := Wrap16(smoothedSidGain + currentSidGain / 8);
      }
    }

    /** A noise frame: decide whether to send, quantise if so, smooth the gain, draw the excitation. */
    method EncodeSidFrame(kit: Kit, n: Noise) returns (output: Output, sid: bool)
      requires Valid() && Shaped(kit.tables) && SidFieldsInRange(n.sid)
      modifies this, random, previousqLsf, previousqLsp, sidqLsp
      ensures Valid() && (State(), output) == EncodeNoise(kit, old(State()), n)
      ensures sid == Sends(old(State()), n)
    {
      ghost var e := State();
      sid := ChooseFrameType(n.changed);
      if sid { QuantiseNoise(kit, n.sid); }
      ghost var lsp := sidqLsp[..];
      SmoothGain();
      output := ComfortFrame(kit, previousqLsp, sidqLsp, smoothedSidGain, random);
      previousVad := false;
      assert sidqLsp[..] == lsp && gainErrors[..] == e.gainErrors;
      NoiseEncoded(kit, e, n, State(), output);
    }
  }

  // Field by field, a speech frame is encoded.
  lemma SpeechEncoded(kit: Kit, e: Encoder, s: Speech, e1: Encoder, output: Output)
    requires Shaped(kit.tables) && IsEncoder(e) && IsEncoder(e1) && IsSpeech(s)
    requires e1.history == Shifted(e.history, SpeechCode(kit, SpeechFields(s)))
    requires e1.previousqLsp == Lsp(kit, SpeechLsf(kit, e.history, SpeechFields(s)))
    requires e1.gainErrors == GainsPushed(kit, e.gainErrors, s.gains1, s.gains2)
    requires e1.sharpening == Bounded(PitchGain(s.gains2.a, s.gains2.b), MAX_SHARPENING_ENCODER)
    requires e1 == e.(history := e1.history, previousqLsp := e1.previousqLsp, gainErrors := e1.gainErrors, talking := true,
                      seed := RANDOM_SEED_INIT, sharpening := e1.sharpening)
    requires output == Voice(FiltersOf(kit, e.previousqLsp, e1.previousqLsp), s.delay1, s.delay2, s.pulses1, s.pulses2,
                             GainsOf(s.gains1), GainsOf(s.gains2))
    ensures (e1, output) == EncodeSpeech(kit, e, s)
  {}

  // Field by field, a noise frame is encoded.
  lemma NoiseEncoded(kit: Kit, e: Encoder, n: Noise, e1: Encoder, output: Output)
    requires Shaped(kit.tables) && IsEncoder(e) && IsEncoder(e1) && SidFieldsInRange(n.sid)
    requires e1.history == if Sends(e, n) then Shifted(e.history, NoiseCode(kit, n.sid)) else e.history
    requires e1.sidqLsp == if Sends(e, n) then Lsp(kit, NoiseLsf(kit, e.history, n.sid)) else e.sidqLsp
    requires e1.currentGain == if Sends(e, n) then SidGain(n.sid.gain) else e.currentGain
    requires e1.smoothedGain == if e.talking then e1.currentGain else Smoothed(e.smoothedGain, e1.currentGain)
    requires e1.previousqLsp == e1.sidqLsp && e1.gainErrors == e.gainErrors && !e1.talking
    requires e1.seed == SeedAfter(e.seed, DRAWS_PER_FRAME) && e1.countFr == CountAfter(e, n) && e1.sharpening == e.sharpening
    requires output == Comfort(FiltersOf(kit, e.previousqLsp, e1.sidqLsp), e1.smoothedGain, e.seed)
    ensures (e1, output) == EncodeNoise(kit, e, n)
  {}

  // The frame of noise both sides synthesise.
  method ComfortFrame(kit: Kit, previousqLsp: array<int>, sidqLsp: array<int>, gain: int, random: RandomGenerator) returns (output: Output)
    requires previousqLsp.Length == sidqLsp.Length == NB_LSP_COEFF && previousqLsp != sidqLsp && IsSeed(random.seed)
    modifies previousqLsp, random
    ensures output == Comfort(FiltersOf(kit, old(previousqLsp[..]), sidqLsp[..]), gain, old(random.seed))
    ensures previousqLsp[..] == sidqLsp[..]
    ensures IsSeed(random.seed) && random.seed == SeedAfter(old(random.seed), DRAWS_PER_FRAME)
  {
    var seed := random.seed;
    var first, second := DrawFrame(random);
    var filters := UpdateFilters(kit, previousqLsp, sidqLsp);
    output := Comfort(filters, gain, seed);
  }

  // ----- decoder -----

  class DecoderContext {
    const previousLCodeWord: array2<int>
    const previousqLsp: array<int>
    const gainErrors: array<int>
    const sidqLsp: array<int>
    const lastqLsf: array<int>
    const random: RandomGenerator
    const pulseRandom: RandomGenerator
    const delays: DelayDecoder
    var previousFrameIsActive: bool
    var receivedSidGain: int
    var smoothedSidGain: int
    var lastValidL0: nat
    var adaptativeCodebookGain: int
    var boundedAdaptativeCodebookGain: int

    ghost predicate Valid()
      reads this, random, pulseRandom
    {
      && IsHistoryBuffer(previousLCodeWord) && previousqLsp.Length == sidqLsp.Length == lastqLsf.Length == NB_LSP_COEFF
      && gainErrors.Length == GAIN_HISTORY && IsSeed(random.seed) && IsSeed(pulseRandom.seed) && lastValidL0 < 2
      && previousqLsp != sidqLsp && previousqLsp != gainErrors && previousqLsp != lastqLsf
      && sidqLsp != gainErrors && sidqLsp != lastqLsf && lastqLsf != gainErrors && random != pulseRandom
    }

    ghost function State(): (d: Decoder)
      requires Valid()
      reads this, random, pulseRandom, delays, previousLCodeWord, previousqLsp, gainErrors, sidqLsp, lastqLsf
      ensures IsDecoder(d)
    {
      Decoder(Columns(previousLCodeWord), previousqLsp[..], gainErrors[..], previousFrameIsActive, random.seed, sidqLsp[..],
              receivedSidGain, smoothedSidGain, delays.previousIntPitchDelay, lastqLsf[..], lastValidL0,
              adaptativeCodebookGain, pulseRandom.seed, boundedAdaptativeCodebookGain)
    }

    constructor ()
      ensures Valid() && State() == InitialDecoder()
      ensures fresh(previousLCodeWord) && fresh(previousqLsp) && fresh(gainErrors) && fresh(sidqLsp) && fresh(lastqLsf)
      ensures fresh(random) && fresh(pulseRandom) && fresh(delays)
    {
      previousLCodeWord := new int[MA_MAX_K, NB_LSP_COEFF]((j, i) => if 0 <= i < NB_LSP_COEFF then INITIAL_LSF[i] else 0);
      previousqLsp := new int[NB_LSP_COEFF](i requires 0 <= i < NB_LSP_COEFF => INITIAL_QLSP[i]);
      gainErrors := new int[GAIN_HISTORY](_ => -14336);
      sidqLsp := new int[NB_LSP_COEFF](i requires 0 <= i < NB_LSP_COEFF => INITIAL_SID_QLSP[i]);
      lastqLsf := new int[NB_LSP_COEFF](i requires 0 <= i < NB_LSP_COEFF => INITIAL_LSF[i]);
      random := new RandomGenerator(RANDOM_SEED_INIT);
      pulseRandom := new RandomGenerator(21845);
      delays := new DelayDecoder();
      previousFrameIsActive, receivedSidGain, smoothedSidGain, lastValidL0, adaptativeCodebookGain := true, 0, 0, 0, 0;
      boundedAdaptativeCodebookGain := MIN_SHARPENING;
      new;
      assert forall i :: 0 <= i < NB_LSP_COEFF ==> Column(previousLCodeWord, i) == InitialHistory()[i];
      assert Columns(previousLCodeWord) == InitialHistory();
      assert previousqLsp[..] == INITIAL_QLSP;
      assert gainErrors[..] == INITIAL_GAIN_ERRORS;
      assert sidqLsp[..] == INITIAL_SID_QLSP;
      assert lastqLsf[..] == INITIAL_LSF;
    }

    // The spectrum of a received speech frame; the vector is kept for concealment.
    method DecodeLsp(kit: Kit, n: Fields, qLsp: array<int>)
      requires Valid() && Shaped(kit.tables) && FieldsInRange(n) && qLsp.Length == NB_LSP_COEFF && qLsp != lastqLsf
      modifies this`lastValidL0, previousLCodeWord, lastqLsf, qLsp
      ensures Valid() && lastValidL0 == n.L0
      ensures Columns(previousLCodeWord) == Shifted(old(Columns(previousLCodeWord)), SpeechCode(kit, n))
      ensures lastqLsf[..] == SpeechLsf(kit, old(Columns(previousLCodeWord)), n)
      ensures qLsp[..] == Lsp(kit, lastqLsf[..])
    {
      var currentqLsf := AddStages(kit.tables.first[n.L1], kit.tables.second[n.L2], kit.tables.second[n.L3]);
      ComputeqLsf(kit.tables.speech[n.L0], currentqLsf, previousLCodeWord);
      KeepLast(currentqLsf, n.L0);
      ConvertToLsp(kit, lastqLsf, qLsp);
    }

    method KeepLast(lsf: array<int>, L0: nat)
      requires lsf.Length == lastqLsf.Length == NB_LSP_COEFF && lsf != lastqLsf
      modifies this`lastValidL0, lastqLsf
      ensures lastValidL0 == L0 && lastqLsf[..] == lsf[..]
    {
      forall i | 0 <= i < NB_LSP_COEFF { lastqLsf[i] := lsf[i]; }
      lastValidL0 := L0;
    }

    method DecodeSpectrum(kit: Kit, n: Fields) returns (filters: Filters)
      requires Valid() && Shaped(kit.tables) && FieldsInRange(n)
      modifies this`lastValidL0, previousLCodeWord, previousqLsp, lastqLsf
      ensures Valid() && lastValidL0 == n.L0
      ensures Columns(previousLCodeWord) == Shifted(old(Columns(previousLCodeWord)), SpeechCode(kit, n))
      ensures lastqLsf[..] == SpeechLsf(kit, old(Columns(previousLCodeWord)), n)
      ensures previousqLsp[..] == Lsp(kit, lastqLsf[..])
      ensures filters == FiltersOf(kit, old(previousqLsp[..]), previousqLsp[..])
    {
      var qLsp := new int[NB_LSP_COEFF];
      DecodeLsp(kit, n, qLsp);
      ghost var lsf := lastqLsf[..];
      filters := UpdateFilters(kit, previousqLsp, qLsp);
      assert lastqLsf[..] == lsf;
    }

    // Bounded for the sharpening of the next subframe.
    method BoundGain()
      modifies this`boundedAdaptativeCodebookGain
      ensures boundedAdaptativeCodebookGain == Bounded(adaptativeCodebookGain, MAX_SHARPENING_DECODER)
    {
      boundedAdaptativeCodebookGain := adaptativeCodebookGain;
      if boundedAdaptativeCodebookGain > 13107 { boundedAdaptativeCodebookGain := 13107; }
      if boundedAdaptativeCodebookGain < 3277 { boundedAdaptativeCodebookGain := 3277; }
    }

    method DecodeBothGains(kit: Kit, n: Fields)
      requires FieldsInRange(n) && gainErrors.Length == GAIN_HISTORY
      modifies this`adaptativeCodebookGain, this`boundedAdaptativeCodebookGain, gainErrors
      ensures var first, second := PairOf(n.GA1, n.GB1), PairOf(n.GA2, n.GB2);
        && gainErrors[..] == GainsPushed(kit, old(gainErrors[..]), first, second)
        && adaptativeCodebookGain == PitchGain(second.a, second.b)
        && boundedAdaptativeCodebookGain == Bounded(adaptativeCodebookGain, MAX_SHARPENING_DECODER)
    {
      adaptativeCodebookGain := DecodeGains(kit.log2, n.GA1, n.GB1, gainErrors);
      BoundGain();
      adaptativeCodebookGain := DecodeGains(kit.log2, n.GA2, n.GB2, gainErrors);
      BoundGain();
    }

    // Spectrum, delays and gains, one after the other.
    method DecodeParts(kit: Kit, n: Fields, parityError: bool) returns (filters: Filters, outcome: Outcome)
      requires Valid() && Shaped(kit.tables) && FieldsInRange(n)
      modifies this`lastValidL0, this`adaptativeCodebookGain, this`boundedAdaptativeCodebookGain, delays, previousLCodeWord, previousqLsp, gainErrors, lastqLsf
      ensures Valid() && lastValidL0 == n.L0
      ensures Columns(previousLCodeWord) == Shifted(old(Columns(previousLCodeWord)), SpeechCode(kit, n))
      ensures lastqLsf[..] == SpeechLsf(kit, old(Columns(previousLCodeWord)), n) && previousqLsp[..] == Lsp(kit, lastqLsf[..])
      ensures filters == FiltersOf(kit, old(previousqLsp[..]), previousqLsp[..])
      ensures outcome == FrameStep(old(delays.previousIntPitchDelay), Received(n.P1, n.P2, parityError, false))
      ensures delays.previousIntPitchDelay == outcome.previous
      ensures gainErrors[..] == GainsPushed(kit, old(gainErrors[..]), PairOf(n.GA1, n.GB1), PairOf(n.GA2, n.GB2))
      ensures adaptativeCodebookGain == GainsOf(PairOf(n.GA2, n.GB2)).pitch
      ensures boundedAdaptativeCodebookGain == Bounded(adaptativeCodebookGain, MAX_SHARPENING_DECODER)
    {
      filters := DecodeSpectrum(kit, n);
      ghost var lsf, lsp := lastqLsf[..], previousqLsp[..];
      outcome := delays.DecodeFrame(Received(n.P1, n.P2, parityError, false));
      DecodeBothGains(kit, n);
      assert lastqLsf[..] == lsf && previousqLsp[..] == lsp;
    }

    /** A received speech frame. */
    method DecodeSpeechFrame(kit: Kit, n: Fields, parityError: bool) returns (output: Output)
      requires Valid() && Shaped(kit.tables) && FieldsInRange(n)
      modifies this, random, delays, previousLCodeWord, previousqLsp, gainErrors, lastqLsf
      ensures Valid() && (State(), output) == DecodeSpeech(kit, old(State()), n, parityError)
    {
      ghost var d := State();
      previousFrameIsActive := true;
      random.seed := RANDOM_SEED_INIT;
      var filters, outcome := DecodeParts(kit, n, parityError);
      output := Voice(filters, outcome.first, outcome.second, DecodedPulses(n.S1, n.C1), DecodedPulses(n.S2, n.C2),
                      GainsOf(PairOf(n.GA1, n.GB1)), GainsOf(PairOf(n.GA2, n.GB2)));
      assert sidqLsp[..] == d.sidqLsp;
      SpeechDecoded(kit, d, n, parityError, State(), output);
    }

    // A lost frame's spectrum: the last good vector again, and the codeword that predicts it.
    method ConcealLsp(kit: Kit) returns (filters: Filters)
      requires Valid() && Shaped(kit.tables)
      modifies previousLCodeWord, previousqLsp
      ensures Columns(previousLCodeWord) == Shifted(old(Columns(previousLCodeWord)),
                ConcealedCode(kit, old(Columns(previousLCodeWord)), lastqLsf[..], lastValidL0))
      ensures previousqLsp[..] == Lsp(kit, lastqLsf[..])
      ensures filters == FiltersOf(kit, old(previousqLsp[..]), previousqLsp[..])
    {
      ConcealHistory(kit);
      var qLsp := new int[NB_LSP_COEFF];
      ConvertToLsp(kit, lastqLsf, qLsp);
      filters := UpdateFilters(kit, previousqLsp, qLsp);
    }

    method ConcealHistory(kit: Kit)
      requires Valid() && Shaped(kit.tables)
      modifies previousLCodeWord
      ensures Columns(previousLCodeWord) == Shifted(old(Columns(previousLCodeWord)),
                ConcealedCode(kit, old(Columns(previousLCodeWord)), lastqLsf[..], lastValidL0))
    {
      ghost var h := Columns(previousLCodeWord);
      ghost var code := ConcealedCode(kit, h, lastqLsf[..], lastValidL0);
      var i := 0;
      while i < NB_LSP_COEFF
        invariant 0 <= i <= NB_LSP_COEFF
        invariant forall k :: 0 <= k < i ==> Column(previousLCodeWord, k) == Pushed(h[k], code[k])
        invariant forall k :: i <= k < NB_LSP_COEFF ==> Column(previousLCodeWord, k) == h[k]
      {
        ConcealColumn(kit.tables.inverse[lastValidL0][i], lastqLsf[i], kit.tables.speech[lastValidL0].past[i], previousLCodeWord, i);
        i := i + 1;
      }
      assert Columns(previousLCodeWord) == Shifted(h, code);
    }

    // A lost subframe's gains.
    method ConcealGains()
      requires gainErrors.Length == GAIN_HISTORY
      modifies this`adaptativeCodebookGain, gainErrors
      ensures adaptativeCodebookGain == FadedPitchGain(old(adaptativeCodebookGain))
      ensures gainErrors[..] == GainConcealed(old(gainErrors[..]))
    {
      if adaptativeCodebookGain < 16384 {
        adaptativeCodebookGain := (adaptativeCodebookGain * 29491) / 0x8000;
      } else {
        adaptativeCodebookGain := 14746;
      }
      var error := MeanError(gainErrors);
      if error < -10240 {
        error := -14336;
      } else {
        error := error - 4096;
      }
      gainErrors[3] := gainErrors[2];
      gainErrors[2] := gainErrors[1];
      gainErrors[1] := gainErrors[0];
      gainErrors[0] := Wrap16(error);
    }

    // Random position and sign codewords.
    method DrawPulses() returns (p: Pulses)
      requires IsSeed(pulseRandom.seed)
      modifies pulseRandom
      ensures IsSeed(pulseRandom.seed) && pulseRandom.seed == SeedAfter(old(pulseRandom.seed), 2)
      ensures p == RandomPulses(old(pulseRandom.seed))
    {
      ghost var s := pulseRandom.seed;
      assert SeedAfter(s, 1) == NextSeed(s);
      assert SeedAfter(s, 2) == NextSeed(NextSeed(s));
      var positions := pulseRandom.Draw();
      var signs := pulseRandom.Draw();
      p := DecodedPulses(signs % 16, positions % 8192);
    }

    // Two lost subframes: random pulses and faded gains, in turn.
    method ConcealSubframes() returns (pulses1: Pulses, pulses2: Pulses, pitch1: int)
      requires gainErrors.Length == GAIN_HISTORY && IsSeed(pulseRandom.seed)
      modifies this`adaptativeCodebookGain, this`boundedAdaptativeCodebookGain, pulseRandom, gainErrors
      ensures IsSeed(pulseRandom.seed) && pulseRandom.seed == SeedAfter(old(pulseRandom.seed), 4)
      ensures pulses1 == RandomPulses(old(pulseRandom.seed)) && pulses2 == RandomPulses(SeedAfter(old(pulseRandom.seed), 2))
      ensures pitch1 == FadedPitchGain(old(adaptativeCodebookGain)) && adaptativeCodebookGain == FadedPitchGain(pitch1)
      ensures boundedAdaptativeCodebookGain == Bounded(adaptativeCodebookGain, MAX_SHARPENING_DECODER)
      ensures gainErrors[..] == GainConcealed(GainConcealed(old(gainErrors[..])))
    {
      SeedAfterAdds(pulseRandom.seed, 2, 2);
      pulses1 := DrawPulses();
      ConcealGains();
      BoundGain();
      pitch1 := adaptativeCodebookGain;
      pulses2 := DrawPulses();
      ConcealGains();
      BoundGain();
    }

    /** A lost speech frame, concealed. */
    method DecodeErasedFrame(kit: Kit) returns (output: Output)
      requires Valid() && Shaped(kit.tables)
      modifies this, random, pulseRandom, delays, previousLCodeWord, previousqLsp, gainErrors
      ensures Valid() && (State(), output) == DecodeErased(kit, old(State()))
    {
      ghost var d := State();
      previousFrameIsActive := true;
      random.seed := RANDOM_SEED_INIT;
      var filters := ConcealLsp(kit);
      ghost var h, lsp := Columns(previousLCodeWord), previousqLsp[..];
      var outcome := delays.DecodeFrame(Received(0, 0, false, true));
      var pulses1, pulses2, pitch1 := ConcealSubframes();
      assert Columns(previousLCodeWord) == h && previousqLsp[..] == lsp && sidqLsp[..] == d.sidqLsp && lastqLsf[..] == d.lastLsf;
      output := Concealed(filters, outcome.first, outcome.second, pulses1, pulses2, pitch1, adaptativeCodebookGain);
      FrameErased(kit, d, State(), output);
    }

    // The part of a descriptor frame that reads the descriptor.
    method ReadDescriptor(kit: Kit, n: SidFields)
      requires Valid() && Shaped(kit.tables) && SidFieldsInRange(n)
      modifies this`receivedSidGain, previousLCodeWord, sidqLsp
      ensures Valid()
      ensures Columns(previousLCodeWord) == Shifted(old(Columns(previousLCodeWord)), NoiseCode(kit, n))
      ensures sidqLsp[..] == Lsp(kit, NoiseLsf(kit, old(Columns(previousLCodeWord)), n))
      ensures receivedSidGain == SidGain(n.gain)
    {
      var currentqLsf := AddStages(kit.tables.first[kit.tables.firstSubset[n.L1]],
                                   kit.tables.second[kit.tables.lowSubset[n.L2]], kit.tables.second[kit.tables.highSubset[n.L2]]);
      receivedSidGain := SidGain(n.gain);
      ComputeqLsf(kit.tables.noise[n.L0], currentqLsf, previousLCodeWord);
      ConvertToLsp(kit, currentqLsf, sidqLsp);
    }

    method SmoothGain()
      modifies this`smoothedSidGain
      ensures smoothedSidGain == if previousFrameIsActive then receivedSidGain else Smoothed(old(smoothedSidGain), receivedSidGain)
    {
      if previousFrameIsActive {
        smoothedSidGain := receivedSidGain;
      } else {
        smoothedSidGain := Wrap16(smoothedSidGain - smoothedSidGain / 8);
        smoothedSidGain := Wrap16(smoothedSidGain + receivedSidGain / 8);
      }
    }

    /** A descriptor, or a frame of silence with nothing received. */
    method DecodeSidFrame(kit: Kit, sid: Option<SidFields>) returns (output: Output)
      requires Valid() && Shaped(kit.tables) && (sid.Some? ==> SidFieldsInRange(sid.value))
      modifies this, random, previousLCodeWord, previousqLsp, sidqLsp
      ensures Valid() && (State(), output) == DecodeSid(kit, old(State()), sid)
    {
      ghost var d := State();
      if sid.Some? { ReadDescriptor(kit, sid.value); }
      ghost var lsp := sidqLsp[..];
      SmoothGain();
      output := ComfortFrame(kit, previousqLsp, sidqLsp, smoothedSidGain, random);
      previousFrameIsActive := false;
      boundedAdaptativeCodebookGain := MIN_SHARPENING;
      assert sidqLsp[..] == lsp && gainErrors[..] == d.gainErrors && lastqLsf[..] == d.lastLsf;
      SidDecoded(kit, d, sid, State(), output);
    }
  }

  // The value that the last good coefficient takes from its column, newest first.
  method ConcealValue(inverse: int, last: int, w: seq<int>, history: array2<int>, i: nat) returns (value: int)
    requires |w| == MA_MAX_K && IsHistoryBuffer(history) && i < NB_LSP_COEFF
    ensures value == ConcealedValue(inverse, last, w, Column(history, i))
  {
    ghost var c := Column(history, i);
    var acc := Wrap32(last * 0x8000);
    var j := 0;
    while j < MA_MAX_K
      invariant 0 <= j <= MA_MAX_K
      invariant acc == Wrap32(last * 0x8000 - Dot(w, c, 0, j))
    {
      assert history[j, i] == c[j];
      ConcealStep(last * 0x8000, w, c, j);
      acc := Wrap32(acc - w[j] * history[j, i]);
      j := j + 1;
    }
    value := Wrap16(Pshr(Mult16x32(inverse, acc, 12), 15));
  }

  lemma ConcealStep(x: int, w: seq<int>, c: seq<int>, j: nat)
    requires |w| == |c| && j < |w|
    ensures Wrap32(Wrap32(x - Dot(w, c, 0, j)) - w[j] * c[j]) == Wrap32(x - Dot(w, c, 0, j + 1))
  {
    Wrap32Add(x - Dot(w, c, 0, j), -(w[j] * c[j]));
  }

  // One coefficient of a lost frame.
  method ConcealColumn(inverse: int, last: int, w: seq<int>, history: array2<int>, i: nat)
    requires |w| == MA_MAX_K && IsHistoryBuffer(history) && i < NB_LSP_COEFF
    modifies history
    ensures Column(history, i) == Pushed(old(Column(history, i)), ConcealedValue(inverse, last, w, old(Column(history, i))))
    ensures forall k :: 0 <= k < NB_LSP_COEFF && k != i ==> Column(history, k) == old(Column(history, k))
  {
    var value := ConcealValue(inverse, last, w, history, i);
    ShiftColumn(history, i, value);
  }

  method MeanError(errors: array<int>) returns (mean: int)
    requires errors.Length == GAIN_HISTORY
    ensures mean == Pshr(Wrap32(errors[0] + errors[1] + errors[2] + errors[3]), 2)
  {
    var sum := 0;
    var i := 0;
    while i < 4
      invariant 0 <= i <= 4
      invariant i == 0 ==> sum == 0
      invariant i == 1 ==> sum == Wrap32(errors[0])
      invariant i == 2 ==> sum == Wrap32(errors[0] + errors[1])
      invariant i == 3 ==> sum == Wrap32(errors[0] + errors[1] + errors[2])
      invariant i == 4 ==> sum == Wrap32(errors[0] + errors[1] + errors[2] + errors[3])
    {
      Wrap32Add(errors[0], errors[1]);
      Wrap32Add(errors[0] + errors[1], errors[2]);
      Wrap32Add(errors[0] + errors[1] + errors[2], errors[3]);
      sum := Wrap32(sum + errors[i]);
      i := i + 1;
    }
    mean := Pshr(sum, 2);
  }

  // Field by field, a lost speech frame is concealed.
  lemma FrameErased(kit: Kit, d: Decoder, d1: Decoder, output: Output)
    requires Shaped(kit.tables) && IsDecoder(d) && IsDecoder(d1)
    requires d1.history == Shifted(d.history, ConcealedCode(kit, d.history, d.lastLsf, d.lastL0))
    requires d1.previousqLsp == Lsp(kit, d.lastLsf) && d1.talking && d1.seed == RANDOM_SEED_INIT
    requires d1.gainErrors == GainConcealed(GainConcealed(d.gainErrors)) && d1.pulseSeed == SeedAfter(d.pulseSeed, 4)
    requires d1.pitchGain == FadedPitchGain(FadedPitchGain(d.pitchGain))
    requires d1.sharpening == Bounded(d1.pitchGain, MAX_SHARPENING_DECODER)
    requires var o := FrameStep(d.delay, Received(0, 0, false, true));
      && d1.delay == o.previous
      && output == Concealed(FiltersOf(kit, d.previousqLsp, d1.previousqLsp), o.first, o.second, RandomPulses(d.pulseSeed),
                             RandomPulses(SeedAfter(d.pulseSeed, 2)), FadedPitchGain(d.pitchGain), d1.pitchGain)
    requires d1 == d.(history := d1.history, previousqLsp := d1.previousqLsp, gainErrors := d1.gainErrors, talking := d1.talking,
                      seed := d1.seed, delay := d1.delay, pitchGain := d1.pitchGain, pulseSeed := d1.pulseSeed,
                      sharpening := d1.sharpening)
    ensures (d1, output) == DecodeErased(kit, d)
  {}

  // Field by field, a received speech frame is decoded.
  lemma SpeechDecoded(kit: Kit, d: Decoder, n: Fields, parityError: bool, d1: Decoder, output: Output)
    requires Shaped(kit.tables) && IsDecoder(d) && IsDecoder(d1) && FieldsInRange(n)
    requires d1.history == Shifted(d.history, SpeechCode(kit, n)) && d1.lastLsf == SpeechLsf(kit, d.history, n) && d1.lastL0 == n.L0
    requires d1.previousqLsp == Lsp(kit, d1.lastLsf) && d1.talking && d1.seed == RANDOM_SEED_INIT
    requires var p, q := PairOf(n.GA1, n.GB1), PairOf(n.GA2, n.GB2);
      && d1.gainErrors == GainsPushed(kit, d.gainErrors, p, q) && d1.pitchGain == GainsOf(q).pitch
    requires d1.sharpening == Bounded(d1.pitchGain, MAX_SHARPENING_DECODER)
    requires var o := FrameStep(d.delay, Received(n.P1, n.P2, parityError, false));
      && d1.delay == o.previous
      && output == Voice(FiltersOf(kit, d.previousqLsp, d1.previousqLsp), o.first, o.second, DecodedPulses(n.S1, n.C1),
                         DecodedPulses(n.S2, n.C2), GainsOf(PairOf(n.GA1, n.GB1)), GainsOf(PairOf(n.GA2, n.GB2)))
    requires d1 == d.(history := d1.history, previousqLsp := d1.previousqLsp, gainErrors := d1.gainErrors, talking := d1.talking,
                      seed := d1.seed, delay := d1.delay, lastLsf := d1.lastLsf, lastL0 := d1.lastL0, pitchGain := d1.pitchGain,
                      sharpening := d1.sharpening)
    ensures (d1, output) == DecodeSpeech(kit, d, n, parityError)
  {}

  // Field by field, a frame of silence is decoded.
  lemma SidDecoded(kit: Kit, d: Decoder, sid: Option<SidFields>, d1: Decoder, output: Output)
    requires Shaped(kit.tables) && IsDecoder(d) && IsDecoder(d1) && (sid.Some? ==> SidFieldsInRange(sid.value))
    requires d1.history == if sid.Some? then Shifted(d.history, NoiseCode(kit, sid.value)) else d.history
    requires d1.sidqLsp == if sid.Some? then Lsp(kit, NoiseLsf(kit, d.history, sid.value)) else d.sidqLsp
    requires d1.receivedGain == if sid.Some? then SidGain(sid.value.gain) else d.receivedGain
    requires d1.smoothedGain == if d.talking then d1.receivedGain else Smoothed(d.smoothedGain, d1.receivedGain)
    requires d1.previousqLsp == d1.sidqLsp && !d1.talking && d1.seed == SeedAfter(d.seed, DRAWS_PER_FRAME)
    requires d1.sharpening == MIN_SHARPENING
    requires output == Comfort(FiltersOf(kit, d.previousqLsp, d1.sidqLsp), d1.smoothedGain, d.seed)
    requires d1 == d.(history := d1.history, previousqLsp := d1.previousqLsp, talking := d1.talking, seed := d1.seed,
                      sidqLsp := d1.sidqLsp, receivedGain := d1.receivedGain, smoothedGain := d1.smoothedGain, sharpening := d1.sharpening)
    ensures (d1, output) == DecodeSid(kit, d, sid)
  {}
}
