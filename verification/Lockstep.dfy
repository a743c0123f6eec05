/** The two ends joined by the channel, over whole runs: what stays equal whatever is sent,
    exactly when the spectral histories agree, and how they come together again after losses. */
module Lockstep {
  import opened Common
  import opened FixedPoint
  import opened LsfVector
  import opened MaPrediction
  import opened LsfCodebook
  import opened AnyHistory
  import opened BitStream
  import opened PitchDelay
  import opened FixedCodeword
  import opened GainCodebook
  import opened ComfortNoise
  import opened Channel

  // ----- runs -----

  predicate IsRun(run: seq<Choice>) { forall i :: 0 <= i < |run| ==> IsChoice(run[i]) }

  function EncoderAfter(kit: Kit, e: Encoder, run: seq<Choice>): (r: Encoder)
    requires Shaped(kit.tables) && IsEncoder(e) && IsRun(run)
    ensures IsEncoder(r)
  {
    if run == [] then e else Encode(kit, EncoderAfter(kit, e, run[..|run| - 1]), run[|run| - 1]).0
  }

  // What the decoder finds on the channel during the run.
  function Stream(kit: Kit, e: Encoder, run: seq<Choice>): (m: seq<Message>)
    requires Shaped(kit.tables) && IsEncoder(e) && IsRun(run)
    ensures |m| == |run| && AllMessages(m)
  {
    if run == [] then []
    else Stream(kit, e, run[..|run| - 1]) + [Arriving(MessageOf(EncoderAfter(kit, e, run[..|run| - 1]), run[|run| - 1]))]
  }

  predicate AllMessages(m: seq<Message>) { forall i :: 0 <= i < |m| ==> IsMessage(m[i]) }

  function DecoderAfter(kit: Kit, d: Decoder, m: seq<Message>): (r: Decoder)
    requires Shaped(kit.tables) && IsDecoder(d) && AllMessages(m)
    ensures IsDecoder(r)
  {
    if m == [] then d else Decode(kit, DecoderAfter(kit, d, m[..|m| - 1]), m[|m| - 1]).0
  }

  // The decoder that has received everything the encoder sent.
  function Follower(kit: Kit, e: Encoder, d: Decoder, run: seq<Choice>): (r: Decoder)
    requires Shaped(kit.tables) && IsEncoder(e) && IsDecoder(d) && IsRun(run)
    ensures IsDecoder(r)
  {
    DecoderAfter(kit, d, Stream(kit, e, run))
  }

  // One frame of the decoder that follows the encoder.
  function Follow(kit: Kit, e: Encoder, d: Decoder, c: Choice): (r: (Decoder, Output))
    requires Shaped(kit.tables) && IsEncoder(e) && IsDecoder(d) && IsChoice(c)
    ensures IsDecoder(r.0)
  {
    Decode(kit, d, Arriving(MessageOf(e, c)))
  }

  lemma FollowerStep(kit: Kit, e: Encoder, d: Decoder, run: seq<Choice>)
    requires Shaped(kit.tables) && IsEncoder(e) && IsDecoder(d) && IsRun(run) && run != []
    ensures var before, last := run[..|run| - 1], run[|run| - 1];
      && EncoderAfter(kit, e, run) == Encode(kit, EncoderAfter(kit, e, before), last).0
      && Follower(kit, e, d, run) == Follow(kit, EncoderAfter(kit, e, before), Follower(kit, e, d, before), last).0
  {
    var m := Stream(kit, e, run);
    assert m[..|m| - 1] == Stream(kit, e, run[..|run| - 1]);
  }

  // ----- one frame -----

  // Everything but the spectrum: flags, seeds and gains.
  predicate ControlSync(e: Encoder, d: Decoder) {
    && e.talking == d.talking && e.seed == d.seed && e.gainErrors == d.gainErrors
    && (!e.talking ==> e.currentGain == d.receivedGain && e.smoothedGain == d.smoothedGain)
  }

  predicate SameButFilters(a: Output, b: Output) {
    a.(filters := b.filters) == b
  }

  lemma SpeechRecovered(kit: Kit, d: Decoder, s: Speech)
    requires Shaped(kit.tables) && IsDecoder(d) && IsSpeech(s)
    ensures var (after, output) := DecodeSpeech(kit, d, SpeechFields(s), false);
      && output.Voice? && output.delay1 == s.delay1 && output.delay2 == s.delay2
      && output.pulses1 == s.pulses1 && output.pulses2 == s.pulses2
      && output.gains1 == GainsOf(s.gains1) && output.gains2 == GainsOf(s.gains2)
      && after.gainErrors == GainsPushed(kit, d.gainErrors, s.gains1, s.gains2)
  {
    DelaysRoundTrip(s.delay1, s.delay2);
    PulsesRoundTrip(s.pulses1);
    PulsesRoundTrip(s.pulses2);
    IndexMapsInverse(s.gains1.a, s.gains1.b);
    IndexMapsInverse(s.gains2.a, s.gains2.b);
  }

  function AsRead(n: SidFields): SidFields { n.(L2 := if n.L2 < 12 then n.L2 else n.L2 - 12) }

  lemma SpeechKeepsControl(kit: Kit, e: Encoder, d: Decoder, s: Speech)
    requires Shaped(kit.tables) && IsEncoder(e) && IsDecoder(d) && IsSpeech(s) && ControlSync(e, d)
    ensures ControlSync(Encode(kit, e, Talk(s)).0, Follow(kit, e, d, Talk(s)).0)
    ensures SameButFilters(Encode(kit, e, Talk(s)).1, Follow(kit, e, d, Talk(s)).1)
  {
    SpeechRecovered(kit, d, s);
  }

  lemma NoiseKeepsControl(kit: Kit, e: Encoder, d: Decoder, n: Noise)
    requires Shaped(kit.tables) && IsEncoder(e) && IsDecoder(d) && SidFieldsInRange(n.sid) && ControlSync(e, d)
    ensures ControlSync(Encode(kit, e, Hush(n)).0, Follow(kit, e, d, Hush(n)).0)
    ensures SameButFilters(Encode(kit, e, Hush(n)).1, Follow(kit, e, d, Hush(n)).1)
  {}

  /** Whatever is sent, whatever the descriptors' L2: flags, seeds, gain predictors and noise gains
      stay equal, and the decoder recovers the frame's delays, pulses, gains and noise parameters. */
  lemma FrameKeepsControl(kit: Kit, e: Encoder, d: Decoder, c: Choice)
    requires Shaped(kit.tables) && IsEncoder(e) && IsDecoder(d) && IsChoice(c) && ControlSync(e, d)
    ensures ControlSync(Encode(kit, e, c).0, Follow(kit, e, d, c).0)
    ensures SameButFilters(Encode(kit, e, c).1, Follow(kit, e, d, c).1)
  {
    match c
    case Talk(s) => SpeechKeepsControl(kit, e, d, s);
    case Hush(n) => NoiseKeepsControl(kit, e, d, n);
  }

  // ----- spectral histories -----

  predicate RowsAgree(h: History, g: History, j: nat)
    requires IsHistory(h) && IsHistory(g) && j < MA_MAX_K
  {
    forall i :: 0 <= i < NB_LSP_COEFF ==> h[i][j] == g[i][j]
  }

  // The descriptor sent will be read as another one.
  predicate Spoils(e: Encoder, c: Choice) {
    c.Hush? && Sends(e, c.noise) && c.noise.sid.L2 >= 12
  }

  predicate Updates(e: Encoder, c: Choice) {
    c.Talk? || Sends(e, c.noise)
  }

  // The number of history updates since the last spoilt one, counted up to five.
  function CleanAfter(e: Encoder, c: Choice, clean: nat): nat {
    if Spoils(e, c) then 0 else if Updates(e, c) && clean < 5 then clean + 1 else clean
  }

  // The newest rows agree; once more than the whole history does, so do the spectra.
  predicate Agree(e: Encoder, d: Decoder, clean: nat)
    requires IsEncoder(e) && IsDecoder(d)
  {
    && (forall j :: 0 <= j < clean && j < MA_MAX_K ==> RowsAgree(e.history, d.history, j))
    && (clean >= 5 ==> e.previousqLsp == d.previousqLsp && (!e.talking ==> e.sidqLsp == d.sidqLsp))
  }

  // The row just older than the agreeing ones differs.
  predicate Apart(e: Encoder, d: Decoder, clean: nat)
    requires IsEncoder(e) && IsDecoder(d)
  {
    clean < MA_MAX_K ==> !RowsAgree(e.history, d.history, clean)
  }

  lemma RowsAfterPush(h: History, g: History, a: seq<int>, b: seq<int>, j: nat)
    requires IsHistory(h) && IsHistory(g) && IsRow(a) && IsRow(b) && j < MA_MAX_K
    ensures j > 0 ==> (RowsAgree(Shifted(h, a), Shifted(g, b), j) <==> RowsAgree(h, g, j - 1))
    ensures j == 0 ==> (RowsAgree(Shifted(h, a), Shifted(g, b), j) <==> a == b)
  {
    var h1, g1 := Shifted(h, a), Shifted(g, b);
    if j == 0 {
      assert forall i :: 0 <= i < NB_LSP_COEFF ==> h1[i][0] == a[i] && g1[i][0] == b[i];
    } else {
      assert forall i :: 0 <= i < NB_LSP_COEFF ==> h1[i][j] == h[i][j - 1] && g1[i][j] == g[i][j - 1];
    }
  }

  lemma AllRowsAgree(h: History, g: History)
    requires IsHistory(h) && IsHistory(g)
    ensures (forall j :: 0 <= j < MA_MAX_K ==> RowsAgree(h, g, j)) <==> h == g
  {
    if forall j :: 0 <= j < MA_MAX_K ==> RowsAgree(h, g, j) {
      forall i | 0 <= i < NB_LSP_COEFF ensures h[i] == g[i] {
        forall j | 0 <= j < MA_MAX_K ensures h[i][j] == g[i][j] {
          assert RowsAgree(h, g, j);
        }
      }
    }
  }

  lemma PushKeepsAgreement(h: History, g: History, code: seq<int>, clean: nat)
    requires IsHistory(h) && IsHistory(g) && IsRow(code)
    requires forall j :: 0 <= j < clean && j < MA_MAX_K ==> RowsAgree(h, g, j)
    ensures forall j :: 0 <= j < clean + 1 && j < MA_MAX_K ==> RowsAgree(Shifted(h, code), Shifted(g, code), j)
  {
    forall j | 0 <= j < clean + 1 && j < MA_MAX_K ensures RowsAgree(Shifted(h, code), Shifted(g, code), j) {
      RowsAfterPush(h, g, code, code, j);
    }
  }

  function CodeSent(kit: Kit, c: Choice): (r: seq<int>)
    requires Shaped(kit.tables) && IsChoice(c)
    ensures IsRow(r)
  {
    match c
    case Talk(s) => SpeechCode(kit, SpeechFields(s))
    case Hush(n) => NoiseCode(kit, n.sid)
  }

  function CodeRead(kit: Kit, c: Choice): (r: seq<int>)
    requires Shaped(kit.tables) && IsChoice(c)
    ensures IsRow(r)
  {
    match c
    case Talk(s) => SpeechCode(kit, SpeechFields(s))
    case Hush(n) => NoiseCode(kit, AsRead(n.sid))
  }

  function LspSent(kit: Kit, h: History, c: Choice): (r: seq<int>)
    requires Shaped(kit.tables) && IsHistory(h) && IsChoice(c)
    ensures IsRow(r)
  {
    match c
    case Talk(s) => Lsp(kit, SpeechLsf(kit, h, SpeechFields(s)))
    case Hush(n) => Lsp(kit, NoiseLsf(kit, h, n.sid))
  }

  function LspRead(kit: Kit, h: History, c: Choice): (r: seq<int>)
    requires Shaped(kit.tables) && IsHistory(h) && IsChoice(c)
    ensures IsRow(r)
  {
    match c
    case Talk(s) => Lsp(kit, SpeechLsf(kit, h, SpeechFields(s)))
    case Hush(n) => Lsp(kit, NoiseLsf(kit, h, AsRead(n.sid)))
  }

  lemma EncodedSpeechHistory(kit: Kit, e: Encoder, s: Speech)
    requires Shaped(kit.tables) && IsEncoder(e) && IsSpeech(s)
    ensures Encode(kit, e, Talk(s)).0.history == Shifted(e.history, SpeechCode(kit, SpeechFields(s)))
  {}

  lemma DecodedSpeechHistory(kit: Kit, e: Encoder, d: Decoder, s: Speech)
    requires Shaped(kit.tables) && IsEncoder(e) && IsDecoder(d) && IsSpeech(s)
    ensures Follow(kit, e, d, Talk(s)).0.history == Shifted(d.history, SpeechCode(kit, SpeechFields(s)))
  {}

  lemma EncodedNoiseHistory(kit: Kit, e: Encoder, n: Noise)
    requires Shaped(kit.tables) && IsEncoder(e) && SidFieldsInRange(n.sid)
    ensures Encode(kit, e, Hush(n)).0.history == if Sends(e, n) then Shifted(e.history, NoiseCode(kit, n.sid)) else e.history
  {}

  // What the decoder makes of a noise frame.
  function SidRead(e: Encoder, n: Noise): (sid: Option<SidFields>)
    requires SidFieldsInRange(n.sid)
    ensures sid.Some? ==> SidFieldsInRange(sid.value)
  {
    if Sends(e, n) then Some(AsRead(n.sid)) else None
  }

  lemma NoiseArrives(e: Encoder, n: Noise)
    requires SidFieldsInRange(n.sid)
    ensures Arriving(MessageOf(e, Hush(n))) == if Sends(e, n) then SidMessage(AsRead(n.sid)) else Untransmitted
  {}

  lemma MessageIsDecoded(kit: Kit, d: Decoder, m: Message)
    requires Shaped(kit.tables) && IsDecoder(d) && IsMessage(m) && !m.SpeechMessage? && (m.Untransmitted? ==> !d.talking)
    ensures Decode(kit, d, m) == DecodeSid(kit, d, if m.SidMessage? then Some(m.sid) else None)
  {}

  lemma NoiseIsFollowed(kit: Kit, e: Encoder, d: Decoder, n: Noise)
    requires Shaped(kit.tables) && IsEncoder(e) && IsDecoder(d) && SidFieldsInRange(n.sid) && e.talking == d.talking
    ensures Follow(kit, e, d, Hush(n)) == DecodeSid(kit, d, SidRead(e, n))
  {
    NoiseArrives(e, n);
    MessageIsDecoded(kit, d, Arriving(MessageOf(e, Hush(n))));
  }

  lemma SidHistory(kit: Kit, d: Decoder, sid: Option<SidFields>)
    requires Shaped(kit.tables) && IsDecoder(d) && (sid.Some? ==> SidFieldsInRange(sid.value))
    ensures DecodeSid(kit, d, sid).0.history == if sid.Some? then Shifted(d.history, NoiseCode(kit, sid.value)) else d.history
  {}

  lemma SidSpectrum(kit: Kit, d: Decoder, sid: Option<SidFields>)
    requires Shaped(kit.tables) && IsDecoder(d) && (sid.Some? ==> SidFieldsInRange(sid.value))
    ensures var d1 := DecodeSid(kit, d, sid).0;
      d1.previousqLsp == d1.sidqLsp == if sid.Some? then Lsp(kit, NoiseLsf(kit, d.history, sid.value)) else d.sidqLsp
  {}

  lemma FrameHistories(kit: Kit, e: Encoder, d: Decoder, c: Choice)
    requires Shaped(kit.tables) && IsEncoder(e) && IsDecoder(d) && IsChoice(c) && (c.Hush? ==> e.talking == d.talking)
    ensures Encode(kit, e, c).0.history == if Updates(e, c) then Shifted(e.history, CodeSent(kit, c)) else e.history
    ensures Follow(kit, e, d, c).0.history == if Updates(e, c) then Shifted(d.history, CodeRead(kit, c)) else d.history
  {
    match c
    case Talk(s) =>
      EncodedSpeechHistory(kit, e, s);
      DecodedSpeechHistory(kit, e, d, s);
    case Hush(n) =>
      EncodedNoiseHistory(kit, e, n);
      NoiseIsFollowed(kit, e, d, n);
      SidHistory(kit, d, SidRead(e, n));
  }

  lemma SpeechSpectra(kit: Kit, e: Encoder, d: Decoder, s: Speech)
    requires Shaped(kit.tables) && IsEncoder(e) && IsDecoder(d) && IsSpeech(s)
    ensures var e1, d1 := Encode(kit, e, Talk(s)).0, Follow(kit, e, d, Talk(s)).0;
      && e1.talking
      && e1.previousqLsp == Lsp(kit, SpeechLsf(kit, e.history, SpeechFields(s)))
      && d1.previousqLsp == Lsp(kit, SpeechLsf(kit, d.history, SpeechFields(s)))
  {}

  lemma EncodedNoiseSpectrum(kit: Kit, e: Encoder, n: Noise)
    requires Shaped(kit.tables) && IsEncoder(e) && SidFieldsInRange(n.sid)
    ensures var e1 := Encode(kit, e, Hush(n)).0;
      e1.previousqLsp == e1.sidqLsp == if Sends(e, n) then Lsp(kit, NoiseLsf(kit, e.history, n.sid)) else e.sidqLsp
  {}

  lemma FrameSpectra(kit: Kit, e: Encoder, d: Decoder, c: Choice)
    requires Shaped(kit.tables) && IsEncoder(e) && IsDecoder(d) && IsChoice(c) && (c.Hush? ==> e.talking == d.talking)
    ensures var e1, d1 := Encode(kit, e, c).0, Follow(kit, e, d, c).0;
      && e1.previousqLsp == (if Updates(e, c) then LspSent(kit, e.history, c) else e.sidqLsp)
      && d1.previousqLsp == (if Updates(e, c) then LspRead(kit, d.history, c) else d.sidqLsp)
      && (e1.talking || (e1.sidqLsp == e1.previousqLsp && d1.sidqLsp == d1.previousqLsp))
  {
    match c
    case Talk(s) => SpeechSpectra(kit, e, d, s);
    case Hush(n) =>
      EncodedNoiseSpectrum(kit, e, n);
      NoiseIsFollowed(kit, e, d, n);
      SidSpectrum(kit, d, SidRead(e, n));
  }

  lemma CleanIsReadAsSent(kit: Kit, e: Encoder, h: History, c: Choice)
    requires Shaped(kit.tables) && IsHistory(h) && IsChoice(c) && Updates(e, c) && !Spoils(e, c)
    ensures CodeSent(kit, c) == CodeRead(kit, c) && LspSent(kit, h, c) == LspRead(kit, h, c)
  {
    assert c.Hush? ==> AsRead(c.noise.sid) == c.noise.sid;
  }

  lemma SpoiltIsReadOtherwise(kit: Kit, e: Encoder, c: Choice)
    requires Ranged(kit.tables) && AliasesDiffer(kit.tables) && IsChoice(c) && Spoils(e, c)
    ensures CodeSent(kit, c) != CodeRead(kit, c)
  {
    AliasChangesCodeword(kit.tables, c.noise.sid.L1, c.noise.sid.L2);
  }

  // The histories and spectra of a frame, as the lemmas above describe them, keep the agreement.
  lemma AgreementStep(e: Encoder, d: Decoder, e1: Encoder, d1: Decoder, c: Choice, sent: seq<int>, read: seq<int>, clean: nat)
    requires IsEncoder(e) && IsDecoder(d) && IsEncoder(e1) && IsDecoder(d1) && IsRow(sent) && IsRow(read)
    requires Agree(e, d, clean) && (Updates(e, c) && !Spoils(e, c) ==> sent == read)
    requires e1.history == if Updates(e, c) then Shifted(e.history, sent) else e.history
    requires d1.history == if Updates(e, c) then Shifted(d.history, read) else d.history
    requires Updates(e, c) && !Spoils(e, c) && e.history == d.history ==> e1.previousqLsp == d1.previousqLsp
    requires !Updates(e, c) ==> e1.previousqLsp == e.sidqLsp && d1.previousqLsp == d.sidqLsp
    requires e1.talking || (e1.sidqLsp == e1.previousqLsp && d1.sidqLsp == d1.previousqLsp)
    ensures Agree(e1, d1, CleanAfter(e, c, clean))
  {
    if Updates(e, c) && !Spoils(e, c) {
      PushKeepsAgreement(e.history, d.history, sent, clean);
      if clean >= 4 { AllRowsAgree(e.history, d.history); }
    }
  }

  lemma FrameKeepsAgreement(kit: Kit, e: Encoder, d: Decoder, c: Choice, clean: nat)
    requires Shaped(kit.tables) && IsEncoder(e) && IsDecoder(d) && IsChoice(c)
    requires Agree(e, d, clean) && (c.Hush? ==> e.talking == d.talking)
    ensures Agree(Encode(kit, e, c).0, Follow(kit, e, d, c).0, CleanAfter(e, c, clean))
  {
    FrameHistories(kit, e, d, c);
    FrameSpectra(kit, e, d, c);
    if Updates(e, c) && !Spoils(e, c) { CleanIsReadAsSent(kit, e, e.history, c); }
    AgreementStep(e, d, Encode(kit, e, c).0, Follow(kit, e, d, c).0, c, CodeSent(kit, c), CodeRead(kit, c), clean);
  }

  // The same update on both sides keeps a difference one row further down; different codewords make a new one.
  lemma PushKeepsApart(h: History, g: History, a: seq<int>, b: seq<int>, clean: nat)
    requires IsHistory(h) && IsHistory(g) && IsRow(a) && IsRow(b)
    requires clean < MA_MAX_K ==> !RowsAgree(h, g, clean)
    ensures clean + 1 < MA_MAX_K ==> !RowsAgree(Shifted(h, a), Shifted(g, b), clean + 1)
    ensures a != b ==> !RowsAgree(Shifted(h, a), Shifted(g, b), 0)
  {
    RowsAfterPush(h, g, a, b, 0);
    if clean + 1 < MA_MAX_K { RowsAfterPush(h, g, a, b, clean + 1); }
  }

  lemma ApartStep(e: Encoder, d: Decoder, e1: Encoder, d1: Decoder, c: Choice, sent: seq<int>, read: seq<int>, clean: nat)
    requires IsEncoder(e) && IsDecoder(d) && IsEncoder(e1) && IsDecoder(d1) && IsRow(sent) && IsRow(read)
    requires Apart(e, d, clean) && (Spoils(e, c) ==> sent != read)
    requires e1.history == if Updates(e, c) then Shifted(e.history, sent) else e.history
    requires d1.history == if Updates(e, c) then Shifted(d.history, read) else d.history
    ensures Apart(e1, d1, CleanAfter(e, c, clean))
  {
    if Updates(e, c) { PushKeepsApart(e.history, d.history, sent, read, clean); }
  }

  lemma FrameKeepsApart(kit: Kit, e: Encoder, d: Decoder, c: Choice, clean: nat)
    requires Ranged(kit.tables) && AliasesDiffer(kit.tables)
    requires IsEncoder(e) && IsDecoder(d) && IsChoice(c) && e.talking == d.talking && Apart(e, d, clean)
    ensures Apart(Encode(kit, e, c).0, Follow(kit, e, d, c).0, CleanAfter(e, c, clean))
  {
    FrameHistories(kit, e, d, c);
    if Spoils(e, c) { SpoiltIsReadOtherwise(kit, e, c); }
    ApartStep(e, d, Encode(kit, e, c).0, Follow(kit, e, d, c).0, c, CodeSent(kit, c), CodeRead(kit, c), clean);
  }

  // ----- runs in step -----

  function CleanRun(kit: Kit, e: Encoder, run: seq<Choice>, clean: nat): nat
    requires Shaped(kit.tables) && IsEncoder(e) && IsRun(run)
  {
    if run == [] then clean
    else
      var before := run[..|run| - 1];
      CleanAfter(EncoderAfter(kit, e, before), run[|run| - 1], CleanRun(kit, e, before, clean))
  }

  lemma {:induction false} RunKeepsAgreement(kit: Kit, e: Encoder, d: Decoder, run: seq<Choice>, clean: nat)
    requires Shaped(kit.tables) && IsEncoder(e) && IsDecoder(d) && IsRun(run) && ControlSync(e, d) && Agree(e, d, clean)
    ensures ControlSync(EncoderAfter(kit, e, run), Follower(kit, e, d, run))
    ensures Agree(EncoderAfter(kit, e, run), Follower(kit, e, d, run), CleanRun(kit, e, run, clean))
  {
    if run != [] {
      var before, last := run[..|run| - 1], run[|run| - 1];
      RunKeepsAgreement(kit, e, d, before, clean);
      FollowerStep(kit, e, d, run);
      var e0, d0 := EncoderAfter(kit, e, before), Follower(kit, e, d, before);
      FrameKeepsControl(kit, e0, d0, last);
      FrameKeepsAgreement(kit, e0, d0, last, CleanRun(kit, e, before, clean));
    }
  }

  lemma {:induction false} RunKeepsApart(kit: Kit, e: Encoder, d: Decoder, run: seq<Choice>, clean: nat)
    requires Ranged(kit.tables) && AliasesDiffer(kit.tables)
    requires IsEncoder(e) && IsDecoder(d) && IsRun(run) && ControlSync(e, d) && Agree(e, d, clean) && Apart(e, d, clean)
    ensures Apart(EncoderAfter(kit, e, run), Follower(kit, e, d, run), CleanRun(kit, e, run, clean))
  {
    if run != [] {
      var before, last := run[..|run| - 1], run[|run| - 1];
      RunKeepsApart(kit, e, d, before, clean);
      RunKeepsAgreement(kit, e, d, before, clean);
      FollowerStep(kit, e, d, run);
      FrameKeepsApart(kit, EncoderAfter(kit, e, before), Follower(kit, e, d, before), last, CleanRun(kit, e, before, clean));
    }
  }

  lemma StartInSync()
    ensures ControlSync(InitialEncoder(), InitialDecoder()) && Agree(InitialEncoder(), InitialDecoder(), 5)
  {}

  // What the frame after `run` sounds like on each side.
  function Sent(kit: Kit, e: Encoder, run: seq<Choice>, next: Choice): Output
    requires Shaped(kit.tables) && IsEncoder(e) && IsRun(run) && IsChoice(next)
  {
    Encode(kit, EncoderAfter(kit, e, run), next).1
  }

  function Heard(kit: Kit, e: Encoder, d: Decoder, run: seq<Choice>, next: Choice): Output
    requires Shaped(kit.tables) && IsEncoder(e) && IsDecoder(d) && IsRun(run) && IsChoice(next)
  {
    Follow(kit, EncoderAfter(kit, e, run), Follower(kit, e, d, run), next).1
  }

  /** Over every run of speech, descriptors and untransmitted frames: the decoder's flags, seeds,
      gain predictors and noise gains equal the encoder's, every frame's delays, pulses, quantised
      gains and noise parameters arrive, and a silence is never taken for a loss. */
  lemma ControlLockstep(kit: Kit, run: seq<Choice>, next: Choice)
    requires Shaped(kit.tables) && IsRun(run) && IsChoice(next)
    ensures var e, d := InitialEncoder(), InitialDecoder();
      && ControlSync(EncoderAfter(kit, e, run), Follower(kit, e, d, run))
      && SameButFilters(Sent(kit, e, run, next), Heard(kit, e, d, run, next))
      && !Heard(kit, e, d, run, next).Concealed?
  {
    StartInSync();
    RunKeepsAgreement(kit, InitialEncoder(), InitialDecoder(), run, 5);
    FrameKeepsControl(kit, EncoderAfter(kit, InitialEncoder(), run), Follower(kit, InitialEncoder(), InitialDecoder(), run), next);
  }

  // Of one frame: whether it updated a history, and whether it spoilt it.
  datatype Mark = Mark(spoils: bool, updates: bool)

  function Marks(kit: Kit, e: Encoder, run: seq<Choice>): (m: seq<Mark>)
    requires Shaped(kit.tables) && IsEncoder(e) && IsRun(run)
    ensures |m| == |run|
  {
    if run == [] then []
    else
      var before, last := run[..|run| - 1], run[|run| - 1];
      var e0 := EncoderAfter(kit, e, before);
      Marks(kit, e, before) + [Mark(Spoils(e0, last), Updates(e0, last))]
  }

  function UpdatesFrom(m: seq<Mark>, from: nat): nat {
    if |m| <= from then 0 else UpdatesFrom(m[..|m| - 1], from) + if m[|m| - 1].updates then 1 else 0
  }

  // Frame k is spoilt and fewer than n updates follow it.
  predicate FollowedBy(m: seq<Mark>, k: nat, n: nat)
    requires k < |m|
  {
    m[k].spoils && UpdatesFrom(m, k + 1) < n
  }

  predicate SpoiltWithin(m: seq<Mark>, n: nat) {
    exists k :: 0 <= k < |m| && FollowedBy(m, k, n)
  }

  function CleanCount(m: seq<Mark>, clean: nat): nat {
    if m == [] then clean
    else
      var before := CleanCount(m[..|m| - 1], clean);
      if m[|m| - 1].spoils then 0 else if m[|m| - 1].updates && before < 5 then before + 1 else before
  }

  lemma {:induction false} CleanRunIsCount(kit: Kit, e: Encoder, run: seq<Choice>, clean: nat)
    requires Shaped(kit.tables) && IsEncoder(e) && IsRun(run)
    ensures CleanRun(kit, e, run, clean) == CleanCount(Marks(kit, e, run), clean)
  {
    if run != [] {
      CleanRunIsCount(kit, e, run[..|run| - 1], clean);
      var m := Marks(kit, e, run);
      assert m[..|m| - 1] == Marks(kit, e, run[..|run| - 1]);
    }
  }

  lemma SpoiltStep(m: seq<Mark>, n: nat, left: nat)
    requires m != [] && n > 0 && left == if m[|m| - 1].updates then n - 1 else n
    ensures SpoiltWithin(m, n) <==> m[|m| - 1].spoils || SpoiltWithin(m[..|m| - 1], left)
  {
    var before := m[..|m| - 1];
    forall k: nat | k < |before| ensures FollowedBy(m, k, n) == FollowedBy(before, k, left) {}
    if m[|m| - 1].spoils {
      assert FollowedBy(m, |m| - 1, n);
    }
    if SpoiltWithin(before, left) {
      var k :| 0 <= k < |before| && FollowedBy(before, k, left);
      assert FollowedBy(m, k, n);
    }
  }

  // The counter, capped at five, says how long ago the last spoilt frame was.
  lemma {:induction false} CleanCountMeans(m: seq<Mark>, n: nat)
    requires 0 < n <= 5
    ensures CleanCount(m, 5) <= 5 && (CleanCount(m, 5) < n <==> SpoiltWithin(m, n))
  {
    if m != [] {
      var left := if m[|m| - 1].updates then n - 1 else n;
      SpoiltStep(m, n, left);
      CleanCountMeans(m[..|m| - 1], if left > 0 then left else 1);
    }
  }

  /** Over every run the spectral histories of the two sides are equal if and only if no descriptor
      with an L2 of 12 or more has been followed by fewer than four updates of the history. */
  lemma HistoriesAgreeIff(kit: Kit, run: seq<Choice>)
    requires Ranged(kit.tables) && AliasesDiffer(kit.tables) && IsRun(run)
    ensures var e, d := InitialEncoder(), InitialDecoder();
      EncoderAfter(kit, e, run).history == Follower(kit, e, d, run).history <==> !SpoiltWithin(Marks(kit, e, run), 4)
  {
    StartInSync();
    var e, d := InitialEncoder(), InitialDecoder();
    CleanRunIsCount(kit, e, run, 5);
    CleanCountMeans(Marks(kit, e, run), 4);
    RunKeepsAgreement(kit, e, d, run, 5);
    RunKeepsApart(kit, e, d, run, 5);
    AllRowsAgree(EncoderAfter(kit, e, run).history, Follower(kit, e, d, run).history);
  }

  predicate InSync(e: Encoder, d: Decoder)
    requires IsEncoder(e) && IsDecoder(d)
  {
    ControlSync(e, d) && Agree(e, d, 5)
  }

  // No descriptor of the run has an index the bit stream cannot carry.
  predicate Faithful(c: Choice) { c.Hush? ==> c.noise.sid.L2 < 12 }

  lemma {:induction false} FaithfulRunIsClean(kit: Kit, e: Encoder, run: seq<Choice>)
    requires Shaped(kit.tables) && IsEncoder(e) && IsRun(run) && forall i :: 0 <= i < |run| ==> Faithful(run[i])
    ensures CleanRun(kit, e, run, 5) == 5
  {
    if run != [] { FaithfulRunIsClean(kit, e, run[..|run| - 1]); }
  }

  /** From any synchronised pair, over every run whose descriptors all have an L2 below 12, the
      sides stay synchronised and every frame is the same on both: filters of both subframes,
      delays, pulses, gains, noise gain and seed. */
  lemma RunInLockstep(kit: Kit, e: Encoder, d: Decoder, run: seq<Choice>, next: Choice)
    requires Shaped(kit.tables) && IsEncoder(e) && IsDecoder(d) && IsRun(run) && IsChoice(next) && InSync(e, d)
    requires Faithful(next) && forall i :: 0 <= i < |run| ==> Faithful(run[i])
    ensures InSync(EncoderAfter(kit, e, run), Follower(kit, e, d, run))
    ensures EncoderAfter(kit, e, run).history == Follower(kit, e, d, run).history
    ensures Sent(kit, e, run, next) == Heard(kit, e, d, run, next)
  {
    FaithfulRunIsClean(kit, e, run);
    RunKeepsAgreement(kit, e, d, run, 5);
    var e1, d1 := EncoderAfter(kit, e, run), Follower(kit, e, d, run);
    AllRowsAgree(e1.history, d1.history);
    FrameKeepsControl(kit, e1, d1, next);
    match next
    case Talk(_) =>
    case Hush(_) =>
  }

  // ----- recovery -----

  // Gain memory and flags after k speech frames from anywhere.
  predicate Settling(e: Encoder, d: Decoder, k: nat)
    requires IsEncoder(e) && IsDecoder(d)
  {
    && (k >= 1 ==> e.talking && d.talking && e.seed == d.seed && e.gainErrors[..2] == d.gainErrors[..2])
    && (k >= 2 ==> e.gainErrors == d.gainErrors)
  }

  lemma SpeechControl(kit: Kit, e: Encoder, d: Decoder, s: Speech)
    requires Shaped(kit.tables) && IsEncoder(e) && IsDecoder(d) && IsSpeech(s)
    ensures var e1, d1 := Encode(kit, e, Talk(s)).0, Follow(kit, e, d, Talk(s)).0;
      && e1.talking && d1.talking && e1.seed == d1.seed
      && e1.gainErrors == GainsPushed(kit, e.gainErrors, s.gains1, s.gains2)
      && d1.gainErrors == GainsPushed(kit, d.gainErrors, s.gains1, s.gains2)
  {
    SpeechRecovered(kit, d, s);
  }

  lemma GainsSettle(kit: Kit, h: seq<int>, g: seq<int>, first: Pair, second: Pair)
    requires IsGainHistory(h) && IsGainHistory(g) && InTables(first) && InTables(second)
    ensures GainsPushed(kit, h, first, second)[..2] == GainsPushed(kit, g, first, second)[..2]
    ensures h[..2] == g[..2] ==> GainsPushed(kit, h, first, second) == GainsPushed(kit, g, first, second)
  {
    if h[..2] == g[..2] {
      assert h[0] == h[..2][0] == g[..2][0] == g[0] && h[1] == h[..2][1] == g[..2][1] == g[1];
    }
  }

  lemma SpeechSettles(kit: Kit, e: Encoder, d: Decoder, s: Speech, k: nat)
    requires Shaped(kit.tables) && IsEncoder(e) && IsDecoder(d) && IsSpeech(s) && Settling(e, d, k)
    ensures Settling(Encode(kit, e, Talk(s)).0, Follow(kit, e, d, Talk(s)).0, k + 1)
  {
    SpeechControl(kit, e, d, s);
    GainsSettle(kit, e.gainErrors, d.gainErrors, s.gains1, s.gains2);
  }

  lemma {:induction false} SpeechRunIsClean(kit: Kit, e: Encoder, run: seq<Choice>)
    requires Shaped(kit.tables) && IsEncoder(e) && IsRun(run) && forall i :: 0 <= i < |run| ==> run[i].Talk?
    ensures CleanRun(kit, e, run, 0) == if |run| < 5 then |run| else 5
  {
    if run != [] { SpeechRunIsClean(kit, e, run[..|run| - 1]); }
  }

  lemma {:induction false} SpeechRunSettles(kit: Kit, e: Encoder, d: Decoder, run: seq<Choice>)
    requires Shaped(kit.tables) && IsEncoder(e) && IsDecoder(d) && IsRun(run) && forall i :: 0 <= i < |run| ==> run[i].Talk?
    ensures Settling(EncoderAfter(kit, e, run), Follower(kit, e, d, run), |run|)
  {
    if run != [] {
      var before, last := run[..|run| - 1], run[|run| - 1];
      SpeechRunSettles(kit, e, d, before);
      FollowerStep(kit, e, d, run);
      SpeechSettles(kit, EncoderAfter(kit, e, before), Follower(kit, e, d, before), last.speech, |before|);
      assert last == Talk(last.speech);
    }
  }

  lemma {:induction false} SpeechRunAgrees(kit: Kit, e: Encoder, d: Decoder, run: seq<Choice>)
    requires Shaped(kit.tables) && IsEncoder(e) && IsDecoder(d) && IsRun(run) && forall i :: 0 <= i < |run| ==> run[i].Talk?
    ensures Agree(EncoderAfter(kit, e, run), Follower(kit, e, d, run), CleanRun(kit, e, run, 0))
  {
    if run != [] {
      var before, last := run[..|run| - 1], run[|run| - 1];
      SpeechRunAgrees(kit, e, d, before);
      FollowerStep(kit, e, d, run);
      FrameKeepsAgreement(kit, EncoderAfter(kit, e, before), Follower(kit, e, d, before), last, CleanRun(kit, e, before, 0));
    }
  }

  /** From any two states whatsoever - after any losses, concealed frames or bit errors - five
      speech frames that arrive bring the two sides back in step. */
  lemma FiveSpeechFramesResynchronise(kit: Kit, e: Encoder, d: Decoder, run: seq<Choice>)
    requires Shaped(kit.tables) && IsEncoder(e) && IsDecoder(d) && IsRun(run) && forall i :: 0 <= i < |run| ==> run[i].Talk?
    requires |run| >= 5
    ensures InSync(EncoderAfter(kit, e, run), Follower(kit, e, d, run))
  {
    SpeechRunIsClean(kit, e, run);
    SpeechRunAgrees(kit, e, d, run);
    SpeechRunSettles(kit, e, d, run);
  }

  // ----- spacing of descriptors -----

  lemma EncoderAfterStep(kit: Kit, e: Encoder, run: seq<Choice>, k: nat)
    requires Shaped(kit.tables) && IsEncoder(e) && IsRun(run) && k < |run|
    ensures EncoderAfter(kit, e, run[..k + 1]) == Encode(kit, EncoderAfter(kit, e, run[..k]), run[k]).0
  {
    assert run[..k + 1][..k] == run[..k];
  }

  lemma EncodeFlags(kit: Kit, e: Encoder, c: Choice)
    requires Shaped(kit.tables) && IsEncoder(e) && IsChoice(c)
    ensures Encode(kit, e, c).0.talking == c.Talk?
    ensures c.Hush? ==> Encode(kit, e, c).0.countFr == CountAfter(e, c.noise)
  {}

  // A descriptor is sent for frame k of the run.
  predicate SendsAt(kit: Kit, e: Encoder, run: seq<Choice>, k: nat)
    requires Shaped(kit.tables) && IsEncoder(e) && IsRun(run) && k < |run|
  {
    run[k].Hush? && Sends(EncoderAfter(kit, e, run[..k]), run[k].noise)
  }

  lemma FlagsAfter(kit: Kit, e: Encoder, run: seq<Choice>, k: nat)
    requires Shaped(kit.tables) && IsEncoder(e) && IsRun(run) && k < |run|
    ensures EncoderAfter(kit, e, run[..k + 1]).talking == run[k].Talk?
    ensures run[k].Hush? ==> EncoderAfter(kit, e, run[..k + 1]).countFr == CountAfter(EncoderAfter(kit, e, run[..k]), run[k].noise)
  {
    EncoderAfterStep(kit, e, run, k);
    EncodeFlags(kit, EncoderAfter(kit, e, run[..k]), run[k]);
  }

  /** The first noise frame after speech always sends a descriptor. */
  lemma SilenceStartsWithDescriptor(kit: Kit, e: Encoder, run: seq<Choice>, i: nat)
    requires Shaped(kit.tables) && IsEncoder(e) && IsRun(run) && i + 1 < |run| && run[i].Talk? && run[i + 1].Hush?
    ensures SendsAt(kit, e, run, i + 1)
  {
    FlagsAfter(kit, e, run, i);
  }

  // Inside a silence, c frames after the last descriptor.
  predicate QuietFor(e: Encoder, c: int) { !e.talking && e.countFr == c }

  lemma SentResets(kit: Kit, e: Encoder, run: seq<Choice>, k: nat)
    requires Shaped(kit.tables) && IsEncoder(e) && IsRun(run) && k < |run| && SendsAt(kit, e, run, k)
    ensures QuietFor(EncoderAfter(kit, e, run[..k + 1]), 0)
  {
    FlagsAfter(kit, e, run, k);
  }

  lemma QuietStaysQuiet(kit: Kit, e: Encoder, run: seq<Choice>, k: nat, c: int)
    requires Shaped(kit.tables) && IsEncoder(e) && IsRun(run) && k < |run| && run[k].Hush?
    requires QuietFor(EncoderAfter(kit, e, run[..k]), c) && c < 2
    ensures !SendsAt(kit, e, run, k) && QuietFor(EncoderAfter(kit, e, run[..k + 1]), c + 1)
  {
    FlagsAfter(kit, e, run, k);
  }

  lemma QuietAfterSent(kit: Kit, e: Encoder, run: seq<Choice>, i: nat, j: nat)
    requires Shaped(kit.tables) && IsEncoder(e) && IsRun(run) && i < j < |run| && j <= i + 2
    requires (forall k :: i <= k <= j ==> run[k].Hush?) && SendsAt(kit, e, run, i)
    ensures QuietFor(EncoderAfter(kit, e, run[..j]), j - i - 1)
  {
    if j == i + 1 {
      SentResets(kit, e, run, i);
    } else {
      QuietAfterSent(kit, e, run, i, i + 1);
      QuietStaysQuiet(kit, e, run, i + 1, 0);
    }
  }

  /** Inside one silence two descriptors are at least three frames apart. */
  lemma DescriptorsAreSpaced(kit: Kit, e: Encoder, run: seq<Choice>, i: nat, j: nat)
    requires Shaped(kit.tables) && IsEncoder(e) && IsRun(run) && i < j < |run|
    requires forall k :: i <= k <= j ==> run[k].Hush?
    requires SendsAt(kit, e, run, i) && SendsAt(kit, e, run, j)
    ensures j - i >= 3
  {
    if j < i + 3 {
      QuietAfterSent(kit, e, run, i, j);
      QuietStaysQuiet(kit, e, run, j, j - i - 1);
    }
  }

  // Of one frame: whether it is noise, differs enough, sends a descriptor, and the counter before it.
  datatype Beat = Beat(noise: bool, changed: bool, sends: bool, count: int)

  function BeatOf(e: Encoder, c: Choice): Beat {
    Beat(c.Hush?, c.Hush? && c.noise.changed, c.Hush? && Sends(e, c.noise), e.countFr)
  }

  function Beats(kit: Kit, e: Encoder, run: seq<Choice>): (b: seq<Beat>)
    requires Shaped(kit.tables) && IsEncoder(e) && IsRun(run)
    ensures |b| == |run|
  {
    if run == [] then []
    else Beats(kit, e, run[..|run| - 1]) + [BeatOf(EncoderAfter(kit, e, run[..|run| - 1]), run[|run| - 1])]
  }

  // How the counter goes on inside a silence, and when the next frame sends.
  predicate GoesOn(b: Beat, next: Beat) {
    b.noise && next.noise ==>
      && next.count == (if b.sends then 0 else if b.count + 1 < 3 then b.count + 1 else 3)
      && (next.sends <==> next.count + 1 >= 3 && next.changed)
  }

  lemma FrameGoesOn(kit: Kit, e: Encoder, c: Choice, next: Choice)
    requires Shaped(kit.tables) && IsEncoder(e) && IsChoice(c) && IsChoice(next)
    ensures GoesOn(BeatOf(e, c), BeatOf(Encode(kit, e, c).0, next))
  {
    EncodeFlags(kit, e, c);
  }

  lemma {:induction false} BeatsGoOn(kit: Kit, e: Encoder, run: seq<Choice>)
    requires Shaped(kit.tables) && IsEncoder(e) && IsRun(run)
    ensures var b := Beats(kit, e, run); forall k :: 0 < k < |b| ==> GoesOn(b[k - 1], b[k])
  {
    if run != [] {
      var before := run[..|run| - 1];
      BeatsGoOn(kit, e, before);
      if before != [] {
        var e0 := EncoderAfter(kit, e, before[..|before| - 1]);
        FrameGoesOn(kit, e0, before[|before| - 1], run[|run| - 1]);
        LastBeat(kit, e, before);
      }
    }
  }

  lemma LastBeat(kit: Kit, e: Encoder, run: seq<Choice>)
    requires Shaped(kit.tables) && IsEncoder(e) && IsRun(run) && run != []
    ensures Beats(kit, e, run)[|run| - 1] == BeatOf(EncoderAfter(kit, e, run[..|run| - 1]), run[|run| - 1])
  {}

  // Frame i sends, and the frames up to j are noise that does not.
  predicate QuietSince(b: seq<Beat>, i: nat, j: nat) {
    i <= j < |b| && b[i].noise && b[i].sends && forall k :: i < k <= j ==> b[k].noise && !b[k].sends
  }

  lemma {:induction false} CountSince(b: seq<Beat>, i: nat, j: nat)
    requires i < j < |b| && QuietSince(b, i, j - 1) && b[j].noise && forall k :: 0 < k < |b| ==> GoesOn(b[k - 1], b[k])
    ensures b[j].count == if j - i - 1 < 3 then j - i - 1 else 3
    decreases j
  {
    assert GoesOn(b[j - 1], b[j]);
    if j > i + 1 { CountSince(b, i, j - 1); }
  }

  /** The next descriptor of a silence is sent at the first frame that differs enough from the last one and
      is three frames behind it or later. */
  lemma SendsAgainIff(kit: Kit, e: Encoder, run: seq<Choice>, i: nat, j: nat)
    requires Shaped(kit.tables) && IsEncoder(e) && IsRun(run) && i < j < |run|
    requires QuietSince(Beats(kit, e, run), i, j - 1) && Beats(kit, e, run)[j].noise
    ensures Beats(kit, e, run)[j].sends <==> Beats(kit, e, run)[j].changed && j - i >= 3
  {
    var b := Beats(kit, e, run);
    BeatsGoOn(kit, e, run);
    CountSince(b, i, j);
    assert GoesOn(b[j - 1], b[j]);
  }

  /** Inside a silence the gain of the noise moves an eighth of the way to the gain last sent, on the
      encoder and on the decoder. */
  lemma NoiseGainMoves(kit: Kit, e: Encoder, n: Noise, d: Decoder, sid: Option<SidFields>)
    requires Shaped(kit.tables) && IsEncoder(e) && IsDecoder(d) && SidFieldsInRange(n.sid) && (sid.Some? ==> SidFieldsInRange(sid.value))
    requires !e.talking && !d.talking && 0 <= e.smoothedGain <= 15962 && 0 <= d.smoothedGain <= 15962
    requires 0 <= e.currentGain <= 15962 && 0 <= d.receivedGain <= 15962
    ensures var e1 := EncodeNoise(kit, e, n).0;
      e1.currentGain == (if Sends(e, n) then SidGain(n.sid.gain) else e.currentGain)
      && -7 <= 8 * (e1.smoothedGain - e.smoothedGain) - (e1.currentGain - e.smoothedGain) <= 7
    ensures var d1 := DecodeSid(kit, d, sid).0;
      d1.receivedGain == (if sid.Some? then SidGain(sid.value.gain) else d.receivedGain)
      && -7 <= 8 * (d1.smoothedGain - d.smoothedGain) - (d1.receivedGain - d.smoothedGain) <= 7
  {
    SidGainRange(n.sid.gain);
    if sid.Some? { SidGainRange(sid.value.gain); }
    SmoothingMovesAnEighth(e.smoothedGain, EncodeNoise(kit, e, n).0.currentGain);
    SmoothingMovesAnEighth(d.smoothedGain, DecodeSid(kit, d, sid).0.receivedGain);
  }

  /** The first noise frame after speech starts at the gain it sends, on the encoder and on the decoder. */
  lemma NoiseGainStarts(kit: Kit, e: Encoder, n: Noise, d: Decoder, sid: SidFields)
    requires Shaped(kit.tables) && IsEncoder(e) && IsDecoder(d) && SidFieldsInRange(n.sid) && SidFieldsInRange(sid) && e.talking && d.talking
    ensures EncodeNoise(kit, e, n).0.smoothedGain == SidGain(n.sid.gain)
    ensures DecodeSid(kit, d, Some(sid)).0.smoothedGain == SidGain(sid.gain)
  {}

  lemma SidGainRange(i: nat)
    requires i < 32
    ensures 0 <= SidGain(i) <= 15962
  {}

  // ----- range over runs -----

  /** From creation every vector quantised by the encoder is stable and
      nothing overflows on the way. */
  lemma {:induction false} EncoderRunIsStable(kit: Kit, run: seq<Choice>, next: Fields, sid: SidFields)
    requires Ranged(kit.tables) && IsRun(run) && FieldsInRange(next) && SidFieldsInRange(sid)
    ensures HistoryWithin(EncoderAfter(kit, InitialEncoder(), run).history, CODE_MIN, CODE_MAX)
    ensures IsStable(SpeechLsf(kit, EncoderAfter(kit, InitialEncoder(), run).history, next))
    ensures IsStable(NoiseLsf(kit, EncoderAfter(kit, InitialEncoder(), run).history, sid))
    decreases |run|
  {
    var e := EncoderAfter(kit, InitialEncoder(), run);
    if run != [] {
      EncoderRunIsStable(kit, run[..|run| - 1], next, sid);
      EncodeStaysInRange(kit, EncoderAfter(kit, InitialEncoder(), run[..|run| - 1]), run[|run| - 1]);
    }
    SpeechFrameIsStable(kit, e.history, next);
    NoiseFrameIsStable(kit, e.history, sid);
  }

  lemma EncodeStaysInRange(kit: Kit, e: Encoder, c: Choice)
    requires Ranged(kit.tables) && IsEncoder(e) && IsChoice(c) && HistoryWithin(e.history, CODE_MIN, CODE_MAX)
    ensures HistoryWithin(Encode(kit, e, c).0.history, CODE_MIN, CODE_MAX)
  {
    match c
    case Talk(s) => SpeechFrameIsStable(kit, e.history, SpeechFields(s));
    case Hush(n) => NoiseFrameIsStable(kit, e.history, n.sid);
  }

  lemma SpeechFrameIsStable(kit: Kit, h: History, n: Fields)
    requires Ranged(kit.tables) && HistoryWithin(h, CODE_MIN, CODE_MAX) && FieldsInRange(n)
    ensures IsStable(SpeechLsf(kit, h, n)) && HistoryWithin(Shifted(h, SpeechCode(kit, n)), CODE_MIN, CODE_MAX)
  {
    SpeechRowRange(kit.tables, n.L1, n.L2, n.L3);
    FrameIsStable(kit.tables.speech[n.L0], h, SpeechRow(kit.tables, n.L1, n.L2, n.L3));
  }

  lemma NoiseFrameIsStable(kit: Kit, h: History, n: SidFields)
    requires Ranged(kit.tables) && HistoryWithin(h, CODE_MIN, CODE_MAX) && SidFieldsInRange(n)
    ensures IsStable(NoiseLsf(kit, h, n)) && HistoryWithin(Shifted(h, NoiseCode(kit, n)), CODE_MIN, CODE_MAX)
  {
    NoiseRowRange(kit.tables, n.L1, n.L2);
    FrameIsStable(kit.tables.noise[n.L0], h, NoiseRow(kit.tables, n.L1, n.L2));
  }

  // Which received frames conceal speech, and which bring a codeword.
  function Losses(kit: Kit, m: seq<Message>): (r: seq<Mark>)
    requires Shaped(kit.tables) && AllMessages(m)
    ensures |r| == |m|
  {
    if m == [] then []
    else
      var before, last := m[..|m| - 1], m[|m| - 1];
      Losses(kit, before) + [Mark(last.Untransmitted? && DecoderAfter(kit, InitialDecoder(), before).talking, !last.Untransmitted?)]
  }

  // The n newest rows are in range.
  predicate RowsWithin(h: History, n: nat) {
    IsHistory(h) && forall i, j :: 0 <= i < NB_LSP_COEFF && 0 <= j < MA_MAX_K && j < n ==> CODE_MIN <= h[i][j] <= CODE_MAX
  }

  lemma PushKeepsRows(h: History, code: seq<int>, n: nat)
    requires RowsWithin(h, n) && IsRow(code) && Within(code, CODE_MIN, CODE_MAX)
    ensures RowsWithin(Shifted(h, code), n + 1)
  {
    var h1 := Shifted(h, code);
    forall i, j | 0 <= i < NB_LSP_COEFF && 0 <= j < MA_MAX_K && j < n + 1 ensures CODE_MIN <= h1[i][j] <= CODE_MAX {
      assert h1[i][j] == if j == 0 then code[i] else h[i][j - 1];
    }
  }

  lemma CodesInRange(kit: Kit, n: Fields, sid: SidFields)
    requires Ranged(kit.tables) && FieldsInRange(n) && SidFieldsInRange(sid)
    ensures Within(SpeechCode(kit, n), CODE_MIN, CODE_MAX) && Within(NoiseCode(kit, sid), CODE_MIN, CODE_MAX)
  {
    SpeechRowRange(kit.tables, n.L1, n.L2, n.L3);
    CodewordFacts(SpeechRow(kit.tables, n.L1, n.L2, n.L3));
    NoiseRowRange(kit.tables, sid.L1, sid.L2);
    CodewordFacts(NoiseRow(kit.tables, sid.L1, sid.L2));
  }

  lemma DecodeKeepsRows(kit: Kit, d: Decoder, m: Message, n: nat)
    requires Ranged(kit.tables) && IsDecoder(d) && IsMessage(m) && RowsWithin(d.history, n)
    requires !(m.Untransmitted? && d.talking)
    ensures RowsWithin(Decode(kit, d, m).0.history, if m.Untransmitted? then n else n + 1)
  {
    var some, none := Fields(0, 0, 0, 0, 0, 0, 0, 0, 0, 0, 0, 0, 0, 0), SidFields(0, 0, 0, 0);
    match m
    case SpeechMessage(f, _) =>
      CodesInRange(kit, f, none);
      PushKeepsRows(d.history, SpeechCode(kit, f), n);
    case SidMessage(f) =>
      CodesInRange(kit, some, f);
      PushKeepsRows(d.history, NoiseCode(kit, f), n);
    case Untransmitted =>
  }

  lemma {:induction false} RunKeepsRows(kit: Kit, m: seq<Message>)
    requires Ranged(kit.tables) && AllMessages(m)
    ensures RowsWithin(DecoderAfter(kit, InitialDecoder(), m).history, CleanCount(Losses(kit, m), 5))
    decreases |m|
  {
    if m != [] {
      var before, last := m[..|m| - 1], m[|m| - 1];
      var d := DecoderAfter(kit, InitialDecoder(), before);
      RunKeepsRows(kit, before);
      assert Losses(kit, m)[..|m| - 1] == Losses(kit, before);
      if !(last.Untransmitted? && d.talking) {
        DecodeKeepsRows(kit, d, last, CleanCount(Losses(kit, before), 5));
      }
    }
  }

  /** The range of the codewords comes back: once no concealed frame has been followed by fewer than
      four updates, the whole history is within it. */
  lemma HistoryRangeRecovers(kit: Kit, m: seq<Message>)
    requires Ranged(kit.tables) && AllMessages(m) && !SpoiltWithin(Losses(kit, m), 4)
    ensures HistoryWithin(DecoderAfter(kit, InitialDecoder(), m).history, CODE_MIN, CODE_MAX)
  {
    RunKeepsRows(kit, m);
    CleanCountMeans(Losses(kit, m), 4);
  }

  // ----- stability whatever is lost -----

  lemma SpeechFromAnyHistory(kit: Kit, h: History, n: Fields)
    requires Damped(kit.tables) && WordHistory(h) && FieldsInRange(n)
    ensures IsStable(SpeechLsf(kit, h, n)) && Words(SpeechLsf(kit, h, n)) && WordHistory(Shifted(h, SpeechCode(kit, n)))
  {
    SpeechRowRange(kit.tables, n.L1, n.L2, n.L3);
    SpeechRowLow(kit.tables, n.L1, n.L2, n.L3);
    AnyHistoryIsStable(kit.tables.speech[n.L0], h, SpeechRow(kit.tables, n.L1, n.L2, n.L3));
  }

  lemma NoiseFromAnyHistory(kit: Kit, h: History, n: SidFields)
    requires Damped(kit.tables) && WordHistory(h) && SidFieldsInRange(n)
    ensures IsStable(NoiseLsf(kit, h, n)) && WordHistory(Shifted(h, NoiseCode(kit, n)))
  {
    NoiseRowRange(kit.tables, n.L1, n.L2);
    NoiseRowLow(kit.tables, n.L1, n.L2);
    AnyHistoryIsStable(kit.tables.noise[n.L0], h, NoiseRow(kit.tables, n.L1, n.L2));
  }

  // What every decoder keeps: words in the history, and a stable vector to fall back to.
  predicate HoldsUp(d: Decoder) { WordHistory(d.history) && IsStable(d.lastLsf) && Words(d.lastLsf) }

  lemma ErasureHoldsUp(kit: Kit, d: Decoder)
    requires Damped(kit.tables) && IsDecoder(d) && HoldsUp(d)
    ensures HoldsUp(DecodeErased(kit, d).0)
  {
    PushKeepsWords(d.history, ConcealedCode(kit, d.history, d.lastLsf, d.lastL0));
  }

  lemma DecodeHoldsUp(kit: Kit, d: Decoder, m: Message)
    requires Damped(kit.tables) && IsDecoder(d) && IsMessage(m) && HoldsUp(d)
    ensures HoldsUp(Decode(kit, d, m).0)
  {
    match m
    case SpeechMessage(n, _) => SpeechFromAnyHistory(kit, d.history, n);
    case SidMessage(n) => NoiseFromAnyHistory(kit, d.history, n);
    case Untransmitted => ErasureHoldsUp(kit, d);
  }

  lemma {:induction false} RunHoldsUp(kit: Kit, m: seq<Message>)
    requires Damped(kit.tables) && AllMessages(m)
    ensures HoldsUp(DecoderAfter(kit, InitialDecoder(), m))
    decreases |m|
  {
    if m != [] {
      RunHoldsUp(kit, m[..|m| - 1]);
      DecodeHoldsUp(kit, DecoderAfter(kit, InitialDecoder(), m[..|m| - 1]), m[|m| - 1]);
    }
  }

  /** The decoder over everything that can be received, lost and concealed: the vector that a lost
      frame falls back to is stable, so is every vector decoded next, and nothing overflows in
      decoding it. */
  lemma DecoderRunIsStable(kit: Kit, m: seq<Message>, next: Fields, sid: SidFields)
    requires Damped(kit.tables) && AllMessages(m) && FieldsInRange(next) && SidFieldsInRange(sid)
    ensures HoldsUp(DecoderAfter(kit, InitialDecoder(), m))
    ensures IsStable(SpeechLsf(kit, DecoderAfter(kit, InitialDecoder(), m).history, next))
    ensures IsStable(NoiseLsf(kit, DecoderAfter(kit, InitialDecoder(), m).history, sid))
  {
    var h := DecoderAfter(kit, InitialDecoder(), m).history;
    RunHoldsUp(kit, m);
    SpeechFromAnyHistory(kit, h, next);
    NoiseFromAnyHistory(kit, h, sid);
  }
}
