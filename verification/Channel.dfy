/** One frame on each side of the channel, as state transformers: what the encoder does after
    its searches have chosen, the message it sends, and what the decoder makes of any message. */
module Channel {
  import opened Common
  import opened FixedPoint
  import opened LsfVector
  import opened MaPrediction
  import opened LsfCodebook
  import opened BitStream
  import opened PitchDelay
  import opened FixedCodeword
  import opened GainCodebook
  import opened ComfortNoise

  // The tables and the fixed-point functions that both ends call.
  datatype Kit = Kit(tables: Tables, cos: int -> int, toLp: seq<int> -> seq<int>, log2: int -> int)

  // ----- spectrum -----

  function Lsp(kit: Kit, lsf: seq<int>): (r: seq<int>)
    requires IsRow(lsf)
    ensures IsRow(r)
  {
    seq(NB_LSP_COEFF, i requires 0 <= i < NB_LSP_COEFF => kit.cos(lsf[i]))
  }

  function Interpolated(previous: seq<int>, current: seq<int>): (r: seq<int>)
    requires IsRow(previous) && IsRow(current)
    ensures IsRow(r)
  {
    seq(NB_LSP_COEFF, i requires 0 <= i < NB_LSP_COEFF => Wrap16(Pshr(Wrap32(previous[i] + current[i]), 1)))
  }

  /** The mean of the two vectors, rounded up, hence between them. */
  lemma InterpolatedIsMean(previous: seq<int>, current: seq<int>, i: nat)
    requires IsRow(previous) && IsRow(current) && Words(previous) && Words(current) && i < NB_LSP_COEFF
    ensures var r := Interpolated(previous, current)[i];
      && 0 <= 2 * r - (previous[i] + current[i]) <= 1
      && (previous[i] <= r <= current[i] || current[i] <= r <= previous[i])
  {
    Pow2Table();
    assert Pow2(0) == 1;
    Wrap32Id(previous[i] + current[i]);
    Wrap32Id(previous[i] + current[i] + 1);
  }

  // The LP filters of the two subframes.
  datatype Filters = Filters(first: seq<int>, second: seq<int>)

  function FiltersOf(kit: Kit, previous: seq<int>, current: seq<int>): Filters
    requires IsRow(previous) && IsRow(current)
  {
    Filters(kit.toLp(Interpolated(previous, current)), kit.toLp(current))
  }

  /** The second filter is that of the new vector alone; the first is that of the mean, whichever comes first. */
  lemma FiltersDependOn(kit: Kit, previous: seq<int>, other: seq<int>, current: seq<int>)
    requires IsRow(previous) && IsRow(other) && IsRow(current)
    ensures FiltersOf(kit, previous, current).second == FiltersOf(kit, other, current).second
    ensures FiltersOf(kit, previous, current).first == FiltersOf(kit, current, previous).first
    ensures FiltersOf(kit, current, current).second == kit.toLp(current)
  {
    assert Interpolated(previous, current) == Interpolated(current, previous);
  }

  function SpeechLsf(kit: Kit, h: History, n: Fields): (r: seq<int>)
    requires Shaped(kit.tables) && IsHistory(h) && FieldsInRange(n)
    ensures IsRow(r)
  {
    QuantisedLsf(kit.tables.speech[n.L0], h, SpeechRow(kit.tables, n.L1, n.L2, n.L3))
  }

  function SpeechCode(kit: Kit, n: Fields): (r: seq<int>)
    requires Shaped(kit.tables) && FieldsInRange(n)
    ensures IsRow(r)
  {
    Codeword(SpeechRow(kit.tables, n.L1, n.L2, n.L3))
  }

  function NoiseLsf(kit: Kit, h: History, n: SidFields): (r: seq<int>)
    requires Shaped(kit.tables) && IsHistory(h) && SidFieldsInRange(n)
    ensures IsRow(r)
  {
    QuantisedLsf(kit.tables.noise[n.L0], h, NoiseRow(kit.tables, n.L1, n.L2))
  }

  function NoiseCode(kit: Kit, n: SidFields): (r: seq<int>)
    requires Shaped(kit.tables) && SidFieldsInRange(n)
    ensures IsRow(r)
  {
    Codeword(NoiseRow(kit.tables, n.L1, n.L2))
  }

  // ----- what one frame is made of -----

  // The quantised gains of one subframe: pitch gain and fixed gain correction.
  datatype Gains = Gains(pitch: int, correction: int)

  function GainsOf(p: Pair): Gains
    requires InTables(p)
  {
    Gains(PitchGain(p.a, p.b), Correction(p.a, p.b))
  }

  datatype Output =
    | Voice(filters: Filters, delay1: Delay, delay2: Delay, pulses1: Pulses, pulses2: Pulses, gains1: Gains, gains2: Gains)
    | Comfort(filters: Filters, gain: int, seed: int)
    | Concealed(filters: Filters, delay1: Delay, delay2: Delay, pulses1: Pulses, pulses2: Pulses, pitch1: int, pitch2: int)

  // What one frame puts on the channel, or what the decoder finds there.
  datatype Message = SpeechMessage(fields: Fields, parityError: bool) | SidMessage(sid: SidFields) | Untransmitted

  predicate IsMessage(m: Message) {
    match m
    case SpeechMessage(n, _) => FieldsInRange(n)
    case SidMessage(n) => SidFieldsInRange(n)
    case Untransmitted => true
  }

  function GainsPushed(kit: Kit, h: seq<int>, first: Pair, second: Pair): (r: seq<int>)
    requires IsGainHistory(h) && InTables(first) && InTables(second)
    ensures IsGainHistory(r)
  {
    GainPushed(GainPushed(h, GainError(kit.log2, Correction(first.a, first.b))), GainError(kit.log2, Correction(second.a, second.b)))
  }

  // ----- encoder -----

  datatype Encoder = Encoder(history: History, previousqLsp: seq<int>, gainErrors: seq<int>, talking: bool,
                             seed: int, countFr: int, sidqLsp: seq<int>, currentGain: int, smoothedGain: int,
                             sharpening: int)

  predicate IsEncoder(e: Encoder) {
    IsHistory(e.history) && IsRow(e.previousqLsp) && IsGainHistory(e.gainErrors) && IsSeed(e.seed) && IsRow(e.sidqLsp)
  }

  // What the searches of a speech frame return.
  datatype Speech = Speech(L0: nat, L1: nat, L2: nat, L3: nat, delay1: Delay, delay2: Delay,
                           pulses1: Pulses, pulses2: Pulses, gains1: Pair, gains2: Pair)

  predicate IsSpeech(s: Speech) {
    && s.L0 < 2 && s.L1 < 128 && s.L2 < 32 && s.L3 < 32
    && FirstDelay(s.delay1) && SecondDelay(s.delay2, SecondWindow(s.delay1.whole))
    && OnTracks(s.pulses1) && OnTracks(s.pulses2) && InTables(s.gains1) && InTables(s.gains2)
  }

  function SpeechFields(s: Speech): (n: Fields)
    requires IsSpeech(s)
    ensures FieldsInRange(n)
  {
    DelaysRoundTrip(s.delay1, s.delay2);
    PulsesRoundTrip(s.pulses1);
    PulsesRoundTrip(s.pulses2);
    IndexMapsInverse(s.gains1.a, s.gains1.b);
    IndexMapsInverse(s.gains2.a, s.gains2.b);
    Fields(s.L0, s.L1, s.L2, s.L3,
           EncodedP1(s.delay1), EncodedPositions(s.pulses1), EncodedSigns(s.pulses1), MapGA(s.gains1.a), MapGB(s.gains1.b),
           EncodedP2(s.delay2, SecondWindow(s.delay1.whole)), EncodedPositions(s.pulses2), EncodedSigns(s.pulses2),
           MapGA(s.gains2.a), MapGB(s.gains2.b))
  }

  function EncodeSpeech(kit: Kit, e: Encoder, s: Speech): (r: (Encoder, Output))
    requires Shaped(kit.tables) && IsEncoder(e) && IsSpeech(s)
    ensures IsEncoder(r.0)
  {
    var n := SpeechFields(s);
    var lsp := Lsp(kit, SpeechLsf(kit, e.history, n));
    (e.(history := Shifted(e.history, SpeechCode(kit, n)),
        previousqLsp := lsp,
        gainErrors := GainsPushed(kit, e.gainErrors, s.gains1, s.gains2),
        talking := true,
        seed := RANDOM_SEED_INIT,
        sharpening := Bounded(PitchGain(s.gains2.a, s.gains2.b), MAX_SHARPENING_ENCODER)),
     Voice(FiltersOf(kit, e.previousqLsp, lsp), s.delay1, s.delay2, s.pulses1, s.pulses2, GainsOf(s.gains1), GainsOf(s.gains2)))
  }

  // A noise frame: whether the spectrum or the energy differs enough from the last descriptor
  // sent, and the indices to send if one is sent.
  datatype Noise = Noise(changed: bool, sid: SidFields)

  // The first frame of a silence always sends; then three frames at least separate two descriptors.
  predicate Sends(e: Encoder, n: Noise) {
    e.talking || (e.countFr + 1 >= 3 && n.changed)
  }

  function CountAfter(e: Encoder, n: Noise): int {
    if Sends(e, n) then 0 else if e.countFr + 1 < 3 then e.countFr + 1 else 3
  }

  function EncodeNoise(kit: Kit, e: Encoder, n: Noise): (r: (Encoder, Output))
    requires Shaped(kit.tables) && IsEncoder(e) && SidFieldsInRange(n.sid)
    ensures IsEncoder(r.0)
  {
    var sends := Sends(e, n);
    var lsp := if sends then Lsp(kit, NoiseLsf(kit, e.history, n.sid)) else e.sidqLsp;
    var current := if sends then SidGain(n.sid.gain) else e.currentGain;
    var smoothed := if e.talking then current else Smoothed(e.smoothedGain, current);
    (e.(history := if sends then Shifted(e.history, NoiseCode(kit, n.sid)) else e.history,
        previousqLsp := lsp,
        talking := false,
        seed := SeedAfter(e.seed, DRAWS_PER_FRAME),
        countFr := CountAfter(e, n),
        sidqLsp := lsp,
        currentGain := current,
        smoothedGain := smoothed),
     Comfort(FiltersOf(kit, e.previousqLsp, lsp), smoothed, e.seed))
  }

  datatype Choice = Talk(speech: Speech) | Hush(noise: Noise)

  predicate IsChoice(c: Choice) {
    match c
    case Talk(s) => IsSpeech(s)
    case Hush(n) => SidFieldsInRange(n.sid)
  }

  function Encode(kit: Kit, e: Encoder, c: Choice): (r: (Encoder, Output))
    requires Shaped(kit.tables) && IsEncoder(e) && IsChoice(c)
    ensures IsEncoder(r.0)
  {
    match c
    case Talk(s) => EncodeSpeech(kit, e, s)
    case Hush(n) => EncodeNoise(kit, e, n)
  }

  function MessageOf(e: Encoder, c: Choice): (m: Message)
    requires IsChoice(c)
    ensures IsMessage(m)
  {
    match c
    case Talk(s) => SpeechMessage(SpeechFields(s), false)
    case Hush(n) => if Sends(e, n) then SidMessage(n.sid) else Untransmitted
  }

  // How a message arrives: a descriptor's L2 of 12 or more is read 12 lower.
  function Arriving(m: Message): (r: Message)
    requires IsMessage(m)
    ensures IsMessage(r)
  {
    if m.SidMessage? && m.sid.L2 >= 12 then SidMessage(m.sid.(L2 := m.sid.L2 - 12)) else m
  }

  // ----- decoder -----

  datatype Decoder = Decoder(history: History, previousqLsp: seq<int>, gainErrors: seq<int>, talking: bool,
                             seed: int, sidqLsp: seq<int>, receivedGain: int, smoothedGain: int,
                             delay: int, lastLsf: seq<int>, lastL0: nat, pitchGain: int, pulseSeed: int, sharpening: int)

  predicate IsDecoder(d: Decoder) {
    && IsHistory(d.history) && IsRow(d.previousqLsp) && IsGainHistory(d.gainErrors) && IsSeed(d.seed) && IsRow(d.sidqLsp)
    && IsRow(d.lastLsf) && d.lastL0 < 2 && IsSeed(d.pulseSeed)
  }

  function PairOf(stage1: nat, stage2: nat): (p: Pair)
    requires stage1 < 8 && stage2 < 16
    ensures InTables(p)
  {
    IndexMapsInverse(stage1, stage2);
    Pair(UnmapGA(stage1), UnmapGB(stage2))
  }

  function DecodeSpeech(kit: Kit, d: Decoder, n: Fields, parityError: bool): (r: (Decoder, Output))
    requires Shaped(kit.tables) && IsDecoder(d) && FieldsInRange(n)
    ensures IsDecoder(r.0)
  {
    var lsf := SpeechLsf(kit, d.history, n);
    var lsp := Lsp(kit, lsf);
    var delays := FrameStep(d.delay, Received(n.P1, n.P2, parityError, false));
    var gains1, gains2 := PairOf(n.GA1, n.GB1), PairOf(n.GA2, n.GB2);
    (d.(history := Shifted(d.history, SpeechCode(kit, n)),
        previousqLsp := lsp,
        gainErrors := GainsPushed(kit, d.gainErrors, gains1, gains2),
        talking := true,
        seed := RANDOM_SEED_INIT,
        delay := delays.previous,
        lastLsf := lsf,
        lastL0 := n.L0,
        pitchGain := PitchGain(gains2.a, gains2.b),
        sharpening := Bounded(PitchGain(gains2.a, gains2.b), MAX_SHARPENING_DECODER)),
     Voice(FiltersOf(kit, d.previousqLsp, lsp), delays.first, delays.second,
           DecodedPulses(n.S1, n.C1), DecodedPulses(n.S2, n.C2), GainsOf(gains1), GainsOf(gains2)))
  }

  // ----- concealment of a lost speech frame -----

  // The codeword value that would have predicted the last good one, from its column of the history.
  function ConcealedValue(inverse: int, last: int, w: seq<int>, c: seq<int>): int
    requires |w| == |c| == MA_MAX_K
  {
    Wrap16(Pshr(Mult16x32(inverse, Wrap32(last * 0x8000 - Dot(w, c, 0, MA_MAX_K)), 12), 15))
  }

  function ConcealedCode(kit: Kit, h: History, lastLsf: seq<int>, lastL0: nat): (r: seq<int>)
    requires Shaped(kit.tables) && IsHistory(h) && IsRow(lastLsf) && lastL0 < 2
    ensures IsRow(r)
  {
    seq(NB_LSP_COEFF, i requires 0 <= i < NB_LSP_COEFF =>
      ConcealedValue(kit.tables.inverse[lastL0][i], lastLsf[i], kit.tables.speech[lastL0].past[i], h[i]))
  }

  function FadedPitchGain(gain: int): int {
    if gain < 16384 then (gain * 29491) / 0x8000 else 14746
  }

  // The mean of the four errors, 4 dB lower, not below -14 dB.
  function ConcealedGainError(h: seq<int>): int
    requires IsGainHistory(h)
  {
    var mean := Pshr(Wrap32(h[0] + h[1] + h[2] + h[3]), 2);
    if mean < -10240 then -14336 else Wrap16(mean - 4096)
  }

  function GainConcealed(h: seq<int>): (r: seq<int>)
    requires IsGainHistory(h)
    ensures IsGainHistory(r)
  {
    GainPushed(h, ConcealedGainError(h))
  }

  function RandomPulses(seed: int): Pulses
    requires IsSeed(seed)
  {
    DecodedPulses(SeedAfter(seed, 2) % 16, SeedAfter(seed, 1) % 8192)
  }

  function DecodeErased(kit: Kit, d: Decoder): (r: (Decoder, Output))
    requires Shaped(kit.tables) && IsDecoder(d)
    ensures IsDecoder(r.0)
  {
    var lsp := Lsp(kit, d.lastLsf);
    var delays := FrameStep(d.delay, Received(0, 0, false, true));
    var pitch1 := FadedPitchGain(d.pitchGain);
    (d.(history := Shifted(d.history, ConcealedCode(kit, d.history, d.lastLsf, d.lastL0)),
        previousqLsp := lsp,
        gainErrors := GainConcealed(GainConcealed(d.gainErrors)),
        talking := true,
        seed := RANDOM_SEED_INIT,
        delay := delays.previous,
        pitchGain := FadedPitchGain(pitch1),
        pulseSeed := SeedAfter(d.pulseSeed, 4),
        sharpening := Bounded(FadedPitchGain(pitch1), MAX_SHARPENING_DECODER)),
     Concealed(FiltersOf(kit, d.previousqLsp, lsp), delays.first, delays.second,
               RandomPulses(d.pulseSeed), RandomPulses(SeedAfter(d.pulseSeed, 2)), pitch1, FadedPitchGain(pitch1)))
  }

  // ----- comfort noise -----

  function DecodeSid(kit: Kit, d: Decoder, sid: Option<SidFields>): (r: (Decoder, Output))
    requires Shaped(kit.tables) && IsDecoder(d) && (sid.Some? ==> SidFieldsInRange(sid.value))
    ensures IsDecoder(r.0)
  {
    var lsp := if sid.Some? then Lsp(kit, NoiseLsf(kit, d.history, sid.value)) else d.sidqLsp;
    var received := if sid.Some? then SidGain(sid.value.gain) else d.receivedGain;
    var smoothed := if d.talking then received else Smoothed(d.smoothedGain, received);
    (d.(history := if sid.Some? then Shifted(d.history, NoiseCode(kit, sid.value)) else d.history,
        previousqLsp := lsp,
        talking := false,
        seed := SeedAfter(d.seed, DRAWS_PER_FRAME),
        sidqLsp := lsp,
        receivedGain := received,
        smoothedGain := smoothed,
        sharpening := MIN_SHARPENING),
     Comfort(FiltersOf(kit, d.previousqLsp, lsp), smoothed, d.seed))
  }

  // Nothing received: noise goes on inside a silence, speech is concealed.
  function Decode(kit: Kit, d: Decoder, m: Message): (r: (Decoder, Output))
    requires Shaped(kit.tables) && IsDecoder(d) && IsMessage(m)
    ensures IsDecoder(r.0)
  {
    match m
    case SpeechMessage(n, parityError) => DecodeSpeech(kit, d, n, parityError)
    case SidMessage(n) => DecodeSid(kit, d, Some(n))
    case Untransmitted => if d.talking then DecodeErased(kit, d) else DecodeSid(kit, d, None)
  }

  // ----- the two contexts as they are created -----

  const INITIAL_LSF := [2339, 4679, 7018, 9358, 11698, 14037, 16377, 18717, 21056, 23396]
  const INITIAL_QLSP := [30000, 26000, 21000, 15000, 8000, 0, -8000, -15000, -21000, -26000]
  const INITIAL_SID_QLSP := [31441, 27566, 21458, 13612, 4663, -4663, -13612, -21458, -27566, -31441]
  const INITIAL_GAIN_ERRORS := [-14336, -14336, -14336, -14336]

  function InitialHistory(): (h: History)
    ensures IsHistory(h)
  {
    seq(NB_LSP_COEFF, i requires 0 <= i < NB_LSP_COEFF => var v := INITIAL_LSF[i]; [v, v, v, v])
  }

  function InitialEncoder(): (e: Encoder)
    ensures IsEncoder(e)
  {
    Encoder(InitialHistory(), INITIAL_QLSP, INITIAL_GAIN_ERRORS, true, RANDOM_SEED_INIT, 0, [0, 0, 0, 0, 0, 0, 0, 0, 0, 0], 0, 0,
            MIN_SHARPENING)
  }

  function InitialDecoder(): (d: Decoder)
    ensures IsDecoder(d)
  {
    Decoder(InitialHistory(), INITIAL_QLSP, INITIAL_GAIN_ERRORS, true, RANDOM_SEED_INIT, INITIAL_SID_QLSP, 0, 0,
            60, INITIAL_LSF, 0, 0, 21845, MIN_SHARPENING)
  }
}
