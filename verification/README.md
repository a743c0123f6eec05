# G.729 codec and recorder: a verified model

This project models two parts of the repository and proves properties of them with Dafny 4.11
(`dafny verify dfyconfig.toml`).

**The codec (`bcg729`).** An ITU-T G.729 Annex A/B encoder and decoder keep the same quantised state -
spectral history, gain predictors, noise gain, random seed - each on its own side, in wrapping and
saturating fixed-point arithmetic, joined only by 80 bit speech frames and 15 bit silence descriptors.

- `Common`, `FixedPoint` - shared definitions, words, macros, the split multiply, leading zeros.
- `LsfVector`, `MinimumGap`, `MaPrediction`, `LsfCodebook`, `AnyHistory`, `ShippedTables` - the LSF quantiser:
  rearrangement and when it reaches its distance, sort, stability, the moving-average predictor in its two forms,
  codewords, frames behind any history, the shipped tables.
- `BitStream`, `PitchDelay`, `FixedCodeword`, `GainCodebook`, `GainSearch`, `ComfortNoise`, `RandomPeriod` - the coded parameters.
- `Channel` (one frame on each side), `ChannelContexts` (the same on the mutable contexts), `Lockstep` (whole
  runs), `Transmission` (whole runs over bytes, with the shipped tables), `PulseSharpening` (the two sides'
  sharpening gains over whole runs), `Concealment` (what lost frames leave behind), `LsfWitnesses` (inputs of the shipped tables on which a claim fails).
- `Vad`, `Autocorrelation`, `StepUp`, `NormalEquations`, `BlockFloat`, `LpWindow`, `LpAnalysis`, `DtxContext`, `Phi`, `PulseSearch`, `PulseEnergy`, `AdaptiveCodebook`,
  `HighPass`, `PitchGain` - the numerical kernels and the decision smoothing.

**The recorder (`pjproject-ext`).** `AudioRing` is the frame ring, `Recorder` the protocol of any number of
recorders and workers over one task queue as a state machine, `RecorderContext` the same on objects.

Conventions. A C integer is the mathematical integer it denotes; what a word of 16, 32 or 64 bits does to it
is written out (`Wrap16`, `Wrap32`, `Wrap64`); a right shift of a signed word rounds down; a signed division
truncates. Where the source works in place on a buffer the model does too, and its method is proved against
a function of the old contents. The functions log2, cosine and LSP-to-LP conversion are parameters: the
lockstep results need only that both sides call the same one.

## Where the obvious claim is false

- A descriptor is packed with `% 0x03` where the helper for the same layout masks with `& 0x03`
  (bcg729/src/dtx.c:431, bcg729/src/utils.c:336): an L2 of 12 to 15 is read 12 lower. `BitStream.SidRoundTripIff` gives
  the exact condition, `Lockstep.HistoriesAgreeIff` what it does to whole runs.
- The comment at bcg729/src/decodeLSP.c:97 says the low limit is on coefficient 0; the code tests coefficient 1.
  `LsfVector.LowLimitHoldsIff` gives the condition, `LsfWitnesses.LowLimitIsMissed` three received frames that leave
  coefficient 0 below -296.
- The rearrangement (bcg729/src/utils.c:96-118) is to leave a minimum distance and need not: `MinimumGap.RearrangedGapsIff`
  gives the exact condition on the input of one pass, `MinimumGap.CodewordGapsIff` that of the codec's two;
  `LsfWitnesses.RearrangedCanCross` names a codeword of the shipped tables with two coefficients out of order.
- The block sum of a noise frame (bcg729/src/dtx.c:61-67) can shift a 32 bit word by 32 or more, which C leaves open. A
  channel starts with scales of 30 (bcg729/src/dtx.c:210-214) and a loud frame has one of -2 or less.
  `DtxContext.ShiftsFitIff` gives the exact condition over every run of frames, `DtxContext.LoudStartShiftsTooFar` the runs that
  start loud, `DtxContext.BesideSilenceIff` the condition beside silence.
- Pitch sharpening is not in lockstep, for three reasons: the encoder bounds its gain by 1.2 and the decoder by 0.8
  (bcg729/src/encoder.c:348-350, bcg729/src/decoder.c:265-271); every silent frame sets the decoder's gain back to 0.2
  (bcg729/src/decoder.c:198) and leaves the encoder's; one side truncates and the other rounds.
  `PulseSharpening.SharpeningGainsEqualIff`, `PulseSharpening.FirstVectorsAgreeIff` and `PulseSharpening.SecondVectorsAgreeIff`
  say over every run when gains and vectors agree all the same; `PulseSharpening.LargeGainSplits`,
  `PulseSharpening.SilenceSplits` and `PulseSharpening.RoundingSplits` are one run for each reason.
- The gain search negates a doubled product (bcg729/src/gainQuantization.c:195-196), which leaves 32 bits if the product is
  -2^30: `GainSearch.ShiftedAre` gives the exact condition, `GainSearch.ProductCannotBeNegated` vectors that meet it.
- The encoder's input filter has no saturation after the last rounding (bcg729/src/preProcessing.c:91): `HighPass.PreSampleIff`
  gives the condition, `HighPass.PreProcessingCanWrap` an input from reset that wraps.
- A payload reflection of `(N + 127) * 258` leaves 16 bits: `StepUp.PayloadReflectionIff`, `StepUp.PayloadRoundTrip`.
- A frame of the wrong size blocks its recorder for ever, and so does any frame once the worker pool is stopped; a
  frame size above 640 bytes makes a worker read a missing tail: `Recorder.FailedPutBlocksForEver`, `Recorder.RunFaultsIff`.
- The smoothing comment at bcg729/src/vad.c:300 describes the first stage's test as Ef above the mean; the code tests the
  mean above Ef. `Vad.NoiseIsKeptIff` says when a frame behind the hangover stays voice, `Vad.OnlyBelowTheMeanIsKept` is a run
  on which the comment's case is dropped and the opposite one kept.
- Eleven noise outputs in a row do not suffice for the third stage to cut raw voice: a frame that it has cut is such an output
  and starts the count again. `Vad.VoiceIsCutIff` gives the exact condition, `Vad.VoiceIsCutOnce` the consequence.
- The comment on the matrix bound counts ten full terms (bcg729/src/fixedCodebookSearch.c:325); four of them are halved, and the
  bound that holds is eight: `Phi.FourPulsesFit`.

## Model

| member | source | states |
|---|---|---|
| FixedPoint.SplitMultiplyIsFloor | bcg729/src/fixedPointMacros.h:83-109 | for every 16 bit a, every 32 bit b of either sign and k <= 15 the split product is floor(a*b/2^k) on 32 bits; exact if and only if that floor fits |
| FixedPoint.SplitMultiplyRounds | bcg729/src/fixedPointMacros.h:97-108 | the same for the rounding variants: the nearest multiple, exact if and only if it fits |
| FixedPoint.LeadingZerosNormalises | bcg729/src/utils.h:98-116 | the count is at most 30 and brings a positive word into [2^30, 2^31) |
| FixedPoint.CountLeadingZeros | bcg729/src/utils.h:107-116 | the counting loop returns that count, 31 for zero |
| LsfVector.RearrangeCoefficients | bcg729/src/utils.c:104-118 | the in-place pass equals the function whose conservation laws follow |
| LsfVector.RearrangeConserves | bcg729/src/utils.c:104-118 | without 16 bit overflow the pass keeps the sum of the coefficients, never raises the first, never lowers the last, and widens the range by at most the gap on each side |
| LsfVector.InsertionSort | bcg729/src/utils.c:35-53 | the in-place sort equals insertion into a sorted prefix |
| LsfVector.SortIsSortedPermutation | bcg729/src/utils.c:35-53 | the result is sorted and has the same multiset of values |
| LsfVector.Stabilise | bcg729/src/decodeLSP.c:92-112 | the in-place stability check equals sort, low limit, spacing, top clamp |
| LsfVector.SpacingIsLeast | bcg729/src/decodeLSP.c:102-107 | the spacing pass yields the pointwise least vector above its input with gaps of at least 321 |
| LsfVector.StableIsSpaced | bcg729/src/decodeLSP.c:92-112 | afterwards the first nine keep the gaps, the last is at most 25681, and the last gap survives the clamp if and only if the ninth is at most 25681 - 321 |
| LsfVector.LowLimitHoldsIff | bcg729/src/decodeLSP.c:97-100 | the first coefficient is at least 40 if and only if no input coefficient was below 40; the second always is |
| MaPrediction.PredictThenShift | bcg729/src/LSPQuantization.c:426-440 | the encoder's separate passes: every coefficient predicted from the whole history, then the rows shifted by one frame |
| MaPrediction.PredictAndShiftFused | bcg729/src/decodeLSP.c:79-88 | the decoder's one pass, reading each history cell before overwriting it from the row above, gives the same vector and the same history |
| MaPrediction.Reconstruct | bcg729/src/LSPQuantization.c:414-459 | encoder reconstruction (speech and noise): quantised vector and new history as functions of predictor, old history and raw codeword |
| MaPrediction.ComputeqLsf | bcg729/src/decodeLSP.c:64-113 | the decoder's in-place reconstruction equals the same two functions |
| LsfCodebook.FrameIsStable | bcg729/src/decodeLSP.c:64-113 | from any history in range and any codeword of the tables nothing overflows, the prediction is the rounded exact weighted sum, the vector is stable and the history stays in range |
| LsfCodebook.CodewordFacts | bcg729/src/utils.c:104-118 | both rearrangements together keep the sum of a raw codeword and stay 15 outside its range |
| LsfCodebook.AliasChangesCodeword | bcg729/src/dtx.c:429-433 | descriptors that differ only in an aliased L2 have different codewords, because the sums of their second stages differ |
| MinimumGap.RearrangedIsMoved | bcg729/src/utils.c:104-118 | the pass in closed form: every coefficient gains the move of the pair it closes and loses that of the pair it opens |
| MinimumGap.RearrangedGapsIff | bcg729/src/utils.c:96-118 | one pass leaves the minimum distance everywhere if and only if every pair that lacks some lacks an even amount between neighbours that need no move, and every other pair has room for what the pairs beside it need |
| MinimumGap.CodewordGapsIff | bcg729/src/decodeLSP.c:69-70 | a codeword keeps the second distance if and only if that condition holds of the row after the first pass |
| MinimumGap.SettledRowIsDone | bcg729/src/decodeLSP.c:69-70 | a row on which the first pass settles keeps the larger distance and the second pass leaves it alone |
| AnyHistory.AnyHistoryIsStable | bcg729/src/decodeLSP.c:64-113 | from any history of 16 bit words, however a concealed frame filled it, a codeword of the tables decodes without overflow to a stable vector |
| ShippedTables.ShippedQualify | bcg729/src/codebooks.c:26-245 | the shipped tables have the ranges, convex predictor weights and different aliased sums that the results on any tables ask for |
| ShippedTables.ShippedDamped | bcg729/src/codebooks.c:26-245 | no weight of a new codeword is below 7798/32768, and the first half of every first-stage row is low |
| LsfWitnesses.RearrangedCanCross | bcg729/src/utils.c:104-118 | some codeword of the shipped tables still has a coefficient 71 below the one before it after both rearrangements |
| LsfWitnesses.LowLimitIsMissed | bcg729/src/decodeLSP.c:97-100 | with the shipped tables three received frames leave the first coefficient of a new decoder at or below -297 |
| BitStream.PackingIsConcatenation | bcg729/src/utils.c:282-302 | the ten bytes read as one 80 bit word are the fifteen fields in order, each in its width, no gap and no overlap |
| BitStream.UnpackAfterPack | bcg729/src/utils.c:282-369 | unpacking what was packed gives back every in-range parameter |
| BitStream.PackAfterUnpack | bcg729/src/utils.c:350-369 | any ten bytes unpack to in-range parameters that pack to the same bytes |
| BitStream.FieldsRoundTrip | bcg729/src/utils.c:282-369 | fifteen numbers in range survive the trip through bytes with no parity error |
| BitStream.ReceivedInRange | bcg729/src/utils.c:350-369 | whatever bytes arrive, every field is in its range |
| BitStream.SidRoundTripIff | bcg729/src/dtx.c:429-433 | a descriptor is read back unchanged if and only if its L2 is below 12, else only L2 changes, by 12; the helper's packing loses nothing |
| BitStream.SidFieldsRoundTrip | bcg729/src/cng.c:318-323 | the same on numbers: all fields arrive but an L2 of 12 or more, which arrives 12 lower |
| BitStream.ComputeParity | bcg729/src/utils.c:81-93 | the loop returns one plus the exclusive or of the six high bits |
| BitStream.SingleFlipDetected | bcg729/src/decoder.c:229-230 | the sent parity passes the decoder's test; one flipped bit of P1 is detected if and only if it is one of the six high bits, a flipped P0 always |
| PitchDelay.DelaysRoundTrip | bcg729/src/adaptativeCodebookSearch.c:126-148 | both integer and fractional delays come back from P1 and P2, the decoder rebuilding the encoder's second window from what it decoded |
| PitchDelay.P1IsBijective | bcg729/src/decodeAdaptativeCodeVector.c:117-126 | every P1 is the codeword of the delay it decodes to; all but 0 and 196 decode to a delay the encoder can choose |
| PitchDelay.P2Range | bcg729/src/decodeAdaptativeCodeVector.c:137-152 | any P2 after any first delay decodes to 19..144, 19 only with fraction +1 and 144 only with -1 |
| PitchDelay.OpenLoopWindowFits | bcg729/src/encoder.c:278-287 | the first search window is seven delays wide, holds the open-loop delay and lies in 20..143 |
| PitchDelay.DelayDecoder.DecodeSubframe | bcg729/src/decodeAdaptativeCodeVector.c:101-157 | one subframe in place: decoded or concealed delay and the remembered delay |
| PitchDelay.DelayDecoder.DecodeFrame | bcg729/src/decodeAdaptativeCodeVector.c:101-157 | both subframes equal the frame step |
| PitchDelay.ReachableDelays | bcg729/src/decodeAdaptativeCodeVector.c:101-157 | over every run of bits, parity errors and losses the remembered delay stays in 19..144 and the interpolator is asked to step back 19..144, 19 only in a concealed subframe |
| PitchDelay.DelayOverLosses | bcg729/src/decodeAdaptativeCodeVector.c:101-112 | k lost frames in a row lengthen the remembered delay by 2 k, up to 143 |
| PitchDelay.ExtremesAreReached | bcg729/src/decodeAdaptativeCodeVector.c:101-157 | 19 and 144 are both met |
| FixedCodeword.PulsesRoundTrip | bcg729/src/fixedCodebookSearch.c:222-231 | any four pulses on their tracks come back with their signs from codeword and sign bits |
| FixedCodeword.DecodedPulsesOnTracks | bcg729/src/decodeFixedCodeVector.c:43-52 | every 13 bit codeword decodes to pulses on their tracks |
| FixedCodeword.CodewordReturns | bcg729/src/decodeFixedCodeVector.c:43-68 | every codeword and every four sign bits are those of the pulses they decode to |
| FixedCodeword.DecodePositions | bcg729/src/decodeFixedCodeVector.c:43-52 | the shifting loop yields those positions |
| FixedCodeword.DecodeFixedCodeVector | bcg729/src/decodeFixedCodeVector.c:36-74 | the vector is the four pulses, sharpened in place by the recursive definition |
| FixedCodeword.Sharpen | bcg729/src/decodeFixedCodeVector.c:70-73 | the in-place pass equals the recursion on the old vector |
| FixedCodeword.VectorsAgreeIff | bcg729/src/fixedCodebookSearch.c:217-220 | for any two gains the truncating and the rounding vector agree if and only if the echo of every pulse that has one does |
| FixedCodeword.SharpeningAgreesIff | bcg729/src/decodeFixedCodeVector.c:70-73 | at one gain, or at an encoder gain more than two units above, the vectors agree if and only if no echo falls inside the subframe or the gain is one and even |
| PulseSharpening.EncoderGainAfter | bcg729/src/encoder.c:348-350 | over every run the encoder sharpens with the last quantised gain within 0.2 and 1.2, silence or not |
| PulseSharpening.DecoderGainAfter | bcg729/src/decoder.c:265-271 | over every run the decoder that follows sharpens with 0.2 after a silent frame, else with the last gain within 0.2 and 0.8 |
| PulseSharpening.SharpeningGainsEqualIff | bcg729/src/decoder.c:198 | over every run the two gains are equal if and only if the last quantised gain is at most 0.2, or at most 0.8 with no silence since |
| PulseSharpening.FirstVectorsAgreeIff | bcg729/src/decodeFixedCodeVector.c:57-73 | for every run and next speech frame the first subframe's pulse vectors agree if and only if no pulse echoes inside it or the gains are equal and even |
| PulseSharpening.SecondVectorsAgreeIff | bcg729/src/decodeFixedCodeVector.c:57-73 | the second subframe's agree if and only if no pulse echoes or the first subframe's gain is at most 0.8 and even as bounded |
| PulseSharpening.LargeGainSplits | bcg729/src/decoder.c:265-271 | a run after which the sides sharpen with 16112 and 13107 |
| PulseSharpening.SilenceSplits | bcg729/src/decoder.c:198 | a run whose gains meet until one noise frame leaves them at 9120 and 3277 |
| PulseSharpening.RoundingSplits | bcg729/src/fixedCodebookSearch.c:217-220 | a run with equal odd gains and different vectors |
| GainCodebook.IndexMapsInverse | bcg729/src/codebooks.c:261-264 | the index maps of the two sides are inverse in both directions |
| GainCodebook.PreselectGA | bcg729/src/gainQuantization.c:178-185 | the window starts two entries before the first that reaches the target and always lies inside the stage |
| GainCodebook.PreselectGB | bcg729/src/gainQuantization.c:186-192 | the same with four entries of sixteen |
| GainCodebook.NearestInFirstWindow | bcg729/src/gainQuantization.c:178-185 | the first window holds an entry at least as near to the best fixed gain as any of the stage |
| GainCodebook.NearestInSecondWindow | bcg729/src/gainQuantization.c:186-192 | the second window holds an entry at least as near to the best pitch gain as any of the stage |
| GainCodebook.SearchWindow | bcg729/src/gainQuantization.c:199-221 | the pair found has the least cost of the window; none is found if and only if every cost is the largest 64 bit value |
| GainCodebook.ComputeGainPredictionError | bcg729/src/utils.c:238-252 | the predictor memory takes the new error in front |
| GainCodebook.GainErrorIsDecibels | bcg729/src/utils.c:238-252 | where the logarithm is exact the error is the gain in dB: none for one, 6.02 for a doubling |
| GainCodebook.GainErrorGrows | bcg729/src/utils.c:238-252 | the error never falls when the logarithm grows |
| GainCodebook.GainQuantization | bcg729/src/gainQuantization.c:178-231 | from products to sent indices and quantised gains: a pair of least distance in a window inside both stages, its two gains, its indices, its error in the memory |
| GainSearch.ErrorIsForm | bcg729/src/gainQuantization.c:205-216 | the squared error of target and filtered vectors under two gains is a quadratic form of their scalar products |
| GainSearch.DistanceIsExact | bcg729/src/gainQuantization.c:205-216 | for every pair, every 16 bit prediction and any 32 bit products nothing in the distance wraps |
| GainSearch.ShiftedAre | bcg729/src/gainQuantization.c:112-126 | the shifted products are words, and the two negated ones are exact if and only if neither is -2^30 before doubling |
| GainSearch.ProductCannotBeNegated | bcg729/src/gainQuantization.c:195-196 | vectors whose product is -2^30, so that its negated double is -2^31 |
| GainSearch.DistanceIsError | bcg729/src/gainQuantization.c:205-216 | the distance is the squared error without the energy of the target, up to a stated slack that is zero when the products need no shift |
| GainSearch.FormProducts | bcg729/src/gainQuantization.c:76-126 | the products from the vectors, shifted by the least common shift that makes words of them |
| GainSearch.QuantiseGains | bcg729/src/gainQuantization.c:56-231 | from the vectors: always a pair of the window, and unless a product is -2^30 the one with the least squared error, exactly without a shift and within the slack with one |
| GainCodebook.DecodeFixedGain | bcg729/src/decodeGains.c:106-111 | from any predicted gain, the fixed gain is the received correction times it, rounded, reduced to 32 and then to 16 bits |
| GainCodebook.DecodeGains | bcg729/src/decodeGains.c:96-114 | the received entries, their pitch gain and the error they push into the memory |
| GainCodebook.SubframeGainLockstep | bcg729/src/decodeGains.c:96-114 | from equal memories, for any pair, the decoder recovers the quantised pitch gain and the memories are equal again |
| ComfortNoise.SeedAfterAdds | bcg729/src/utils.c:379-385 | draws compose: m draws and then n are m + n |
| RandomPeriod.PeriodIff | bcg729/src/utils.c:379-385 | a seed comes back after n draws if and only if n is a multiple of 65536 |
| RandomPeriod.DrawsPermute | bcg729/src/utils.c:379-385 | the generator permutes the 16 bit words |
| ComfortNoise.RandomGenerator.Draw | bcg729/src/utils.c:379-385 | one draw of the generator in place |
| ComfortNoise.RandomGenerator.DrawGaussian | bcg729/src/cng.c:116-121 | twelve draws; the sample is their sum as signed words, shifted down, inside -3072..3071 |
| ComfortNoise.DrawsUsable | bcg729/src/cng.c:83-110 | whatever three draws are, their bits give a delay in 40..103, one pulse on each track and a gain below one half |
| ComfortNoise.DrawParameters | bcg729/src/cng.c:83-110 | three draws; each field is the bits of its draw, read from the low end |
| ComfortNoise.DrawNoise | bcg729/src/cng.c:114-123 | 480 draws; sample i is made of draws 12 i + 1 to 12 i + 12, and the energy, exact, fits 32 bits |
| ComfortNoise.DrawFrame | bcg729/src/cng.c:61-123 | one frame of noise draws 966 times, and the fields of both subframes are functions of the seed it starts with |
| ComfortNoise.SmoothingStaysInRange | bcg729/src/cng.c:354-361 | the gain smoothing never overflows and stays in the range of the transmitted gains |
| ComfortNoise.SmoothingMovesAnEighth | bcg729/src/cng.c:354-361 | one smoothing moves the gain an eighth of the way to the received one and never past it |
| ComfortNoise.SidGainsFollowDecibels | bcg729/src/codebooks.c:347-354 | the transmitted gains grow, each by its step in dB; twenty dB are a factor of ten |
| ComfortNoise.LevelTracksEnergy | bcg729/src/dtx.c:109-145 | the transmitted level is one of 32, grows with the energy, and is within 1 dB of it in the fine range, at most 4 dB above and never below it in the coarse one |
| ComfortNoise.SidDecibelsAreLevels | bcg729/src/dtx.c:109-145 | a transmitted gain stands for the decoded level of its index, or 2 dB less in the coarse range |
| ChannelContexts.UpdateFilters | bcg729/src/interpolateqLSP.c:35-41 | interpolation, conversion and the remembered vector |
| Channel.InterpolatedIsMean | bcg729/src/interpolateqLSP.c:35-41 | the interpolated vector is the mean of the two, rounded up, hence between them |
| Channel.FiltersDependOn | bcg729/src/interpolateqLSP.c:35-41 | the second filter is that of the new vector alone, the first that of the mean |
| ChannelContexts.EncoderContext.EncodeSpeechFrame | bcg729/src/encoder.c:234-247 | a speech frame on the encoder context equals the state transformer |
| ChannelContexts.EncoderContext.QuantiseNoise | bcg729/src/LSPQuantization.c:192-243 | a new noise spectrum and gain, in place |
| ChannelContexts.EncoderContext.EncodeSidFrame | bcg729/src/dtx.c:266-440 | a noise frame on the encoder context equals the state transformer, sending exactly when the counter and the comparison say so |
| ChannelContexts.ComfortFrame | bcg729/src/cng.c:341-364 | the noise frame both sides synthesise: filters, gain, seed |
| ChannelContexts.DecoderContext.DecodeSpeechFrame | bcg729/src/decoder.c:208-272 | a received speech frame on the decoder context equals the state transformer |
| ChannelContexts.DecoderContext.ReadDescriptor | bcg729/src/cng.c:317-338 | a received descriptor, in place |
| ChannelContexts.DecoderContext.DecodeSidFrame | bcg729/src/cng.c:245-365 | a frame of silence on the decoder context equals the state transformer |
| ChannelContexts.DecoderContext.ConcealHistory | bcg729/src/decodeLSP.c:164-177 | a lost frame's codewords, recomputed in place column by column from the last good vector |
| Concealment.ConcealedPredictsLast | bcg729/src/decodeLSP.c:164-177 | predicting with the recomputed codeword gives the last good coefficient again, within three units, if and only if the exact codeword fits 16 bits |
| Concealment.ShippedUndone | bcg729/src/codebooks.c:216-226 | the shipped inverse weights undo the weights closely enough for that |
| Concealment.LostFrameKeepsSpectrum | bcg729/src/decodeLSP.c:153-177 | so over everything received, lost and concealed before |
| ChannelContexts.DecoderContext.ConcealGains | bcg729/src/decodeGains.c:61-94 | a lost subframe's pitch gain and gain error |
| Concealment.PitchOverLosses | bcg729/src/decodeGains.c:61-79 | over losses the pitch gain only falls, by a tenth each time after the first |
| Concealment.ErrorsOverLosses | bcg729/src/decodeGains.c:81-94 | over losses the gain errors stay in their range; four in a row lower all of them by 4 dB, or to -14 dB |
| ChannelContexts.DecoderContext.DecodeErasedFrame | bcg729/src/decoder.c:159-272 | a lost speech frame on the decoder context equals the state transformer |
| Concealment.LostPulsesAreDrawn | bcg729/src/decoder.c:249-254 | the pulses of a lost subframe are those of the low 13 bits of one draw and the low 4 bits of the next |
| ChannelContexts.EncoderContext.constructor | bcg729/src/encoder.c:57-88 | the encoder context as created |
| ChannelContexts.DecoderContext.constructor | bcg729/src/decoder.c:52-80 | the decoder context as created |
| Lockstep.SpeechRecovered | bcg729/src/decoder.c:208-272 | the decoder recovers a speech frame's delays, pulses and quantised gains and pushes the same gain errors |
| Lockstep.FrameKeepsControl | bcg729/src/decoder.c:159-210 | any frame keeps flags, seeds, gain predictors and noise gains equal on the two sides and arrives whole but for the spectrum |
| Lockstep.FrameKeepsAgreement | bcg729/src/decodeLSP.c:64-113 | a frame read as sent makes one more row of the histories agree; five make the spectra agree |
| Lockstep.FrameKeepsApart | bcg729/src/dtx.c:429-433 | a spoilt descriptor makes the newest rows differ, and later frames only push that difference down |
| Lockstep.ControlLockstep | bcg729/src/decoder.c:159-210 | over every run of speech, descriptors and untransmitted frames, whatever their indices: control state equal, everything but filters recovered, no silence taken for a loss |
| Lockstep.CleanCountMeans | bcg729/src/dtx.c:429-433 | the counter of clean updates says exactly how long ago the last spoilt descriptor was |
| Lockstep.HistoriesAgreeIff | bcg729/src/decodeLSP.c:84-85 | over every run the spectral histories are equal if and only if no descriptor with L2 >= 12 has been followed by fewer than four updates |
| Lockstep.RunInLockstep | bcg729/src/LSPQuantization.c:414-465 | over every run whose descriptors have L2 < 12, from any synchronised pair: histories, filters of both subframes, delays, pulses, gains, noise gain and seed are the same on both sides in every frame |
| Lockstep.FiveSpeechFramesResynchronise | bcg729/src/decodeLSP.c:125-186 | from any two states, after any losses and concealment, five received speech frames restore synchronisation |
| Lockstep.SilenceStartsWithDescriptor | bcg729/src/dtx.c:298-304 | the first noise frame after speech sends a descriptor |
| Lockstep.DescriptorsAreSpaced | bcg729/src/dtx.c:329-353 | inside one silence two descriptors are at least three frames apart |
| Lockstep.SendsAgainIff | bcg729/src/dtx.c:329-343 | the next descriptor of a silence is sent exactly at the first frame that differs enough and is three frames behind the last or later |
| Lockstep.NoiseGainMoves | bcg729/src/cng.c:354-361 | inside a silence both sides move the noise gain an eighth of the way to the gain last sent |
| Lockstep.NoiseGainStarts | bcg729/src/cng.c:354-361 | the first noise frame starts at the gain it sends |
| Lockstep.EncoderRunIsStable | bcg729/src/LSPQuantization.c:414-459 | over every run no vector quantised by the encoder overflows and each is stable |
| Lockstep.DecoderRunIsStable | bcg729/src/decodeLSP.c:64-177 | the same for the decoder under anything received, lost and concealed: the vector it falls back to and every vector it decodes next are stable |
| Lockstep.HistoryRangeRecovers | bcg729/src/decodeLSP.c:164-177 | four updates after the last concealed frame the whole history is back in the range of codewords |
| Transmission.WireDelivers | bcg729/src/utils.c:282-369 | bytes written are read as the channel model says |
| Transmission.HistoriesAgreeOverBytesIff | bcg729/src/dtx.c:429-433 | shipped tables, every run written to bytes and read back: control state equal, histories equal if and only if nothing was spoilt within four updates |
| Transmission.LockstepOverBytes | bcg729/src/decoder.c:110-315 | every run with L2 < 12 over bytes: whole synchronisation and identical frames |
| Transmission.AnyBytesDecodeStably | bcg729/src/decodeLSP.c:64-177 | shipped tables, whatever bytes arrive and whatever is lost: every decoded vector is stable and nothing overflows in decoding it |
| Vad.VadContext.Smooth | bcg729/src/vad.c:220-338 | one frame in place, in the order of the source, equals the step |
| Vad.CountersBounded | bcg729/src/vad.c:288-338 | the hysteresis counter never exceeds six and the second-stage counter never four between frames |
| Vad.SwitchNeedsHangover | bcg729/src/vad.c:294-297 | after the start-up the output turns from voice to noise only behind six consecutive raw-noise frames output as voice |
| Vad.ThirdNeedsNoise | bcg729/src/vad.c:325-332 | the third stage fires only behind eleven consecutive noise outputs |
| Vad.VoiceIsKept | bcg729/src/vad.c:288-338 | a raw-voice frame is output as noise only behind eleven consecutive noise outputs |
| Vad.DecisionIff | bcg729/src/vad.c:285-338 | every smoothed decision, over every run, as a condition on the decisions and energies before it, with no counter left |
| Vad.VoiceIsCutIff | bcg729/src/vad.c:323-338 | raw voice is output as noise if and only if the last eleven frames were raw noise output as noise and the energy rises by at most 614 |
| Vad.VoiceIsCutOnce | bcg729/src/vad.c:323-338 | raw voice is never cut in two frames in a row |
| Vad.RunningIff | bcg729/src/vad.c:220-260 | a frame is smoothed if and only if some whole block of 32 frames before it had a loud one; until then its loudness decides |
| Vad.NoiseIsKeptIff | bcg729/src/vad.c:299-320 | over every run a raw-noise frame behind the hangover is output as voice if and only if the frame before was and the mean lies more than 410 above its energy, still loud, or the second stage keeps it |
| Vad.OnlyBelowTheMeanIsKept | bcg729/src/vad.c:299-302 | after the same 38 frames a frame far above the mean is dropped and one below it kept |
| Vad.QuietNeverStarts | bcg729/src/vad.c:220-260 | while no frame is loud the start-up restarts for ever and every frame is noise |
| Autocorrelation.CorrelationBound | bcg729/src/computeLP.c:176-197 | every partial sum of every correlation is bounded by the energy of the signal |
| Autocorrelation.NormaliseEnergy | bcg729/src/computeLP.c:161-171 | the normalised energy lies in [2^30, 2^31), shifted right if and only if it exceeds 31 bits |
| Autocorrelation.NormalisedFits | bcg729/src/computeLP.c:176-197 | a bounded sum with the energy's shift fits 32 bits, at most one unit outside the normalised energy |
| Autocorrelation.ComputeAutocorrelation | bcg729/src/computeLP.c:152-197 | whichever branch computes them, all coefficients are the exact correlations with one common shift, bounded by the first, in 32 bits |
| StepUp.RaiseInPlace | bcg729/src/computeLP.c:80-105 | one order in place equals the step-up of the copied coefficients |
| StepUp.StageIsSteps | bcg729/src/computeLP.c:69-108 | after every order the coefficients depend on the reflections found so far and on nothing else of r |
| StepUp.Levinson | bcg729/src/computeLP.c:42-112 | a result if and only if no residual energy divided by is zero; then reflections, last energy and LP coefficients are those of the recursion on r |
| StepUp.FirstReflectionExact | bcg729/src/computeLP.c:69-76 | for r(1) above -r(0) and at most r(0) the first reflection loses nothing |
| StepUp.LevinsonIsFromReflections | bcg729/src/computeLP.c:69-112 | so for such r the LP coefficients are the same function of the ten reflections that the payload rebuild computes |
| NormalEquations.EquationStep | bcg729/src/computeLP.c:97-101 | one order on the normal equations: each takes in the reflection times its mirror image, up to what the floors lose |
| NormalEquations.RecursionSolves | bcg729/src/computeLP.c:73-107 | without wraps, after every order every normal equation of the coefficients is zero and the residual is equation zero, up to stated rounding bounds |
| NormalEquations.LastSolves | bcg729/src/computeLP.c:73-107 | after ten orders: each equation within 8535 times 2^31 of zero where one is 2^58, the residual within 1904 units of its equation |
| NormalEquations.LpSolves | bcg729/src/computeLP.c:109-112 | the coefficients in Q12 solve the same equations, within six times 2^31 where one is 2^43 |
| NormalEquations.FrameIsCorrelations | bcg729/src/computeLP.c:205-211 | the lag-windowed coefficients of every signal are in the domain of these results |
| NormalEquations.WhiteNeverWraps | bcg729/src/computeLP.c:73-107 | without correlation no order wraps |
| StepUp.RebuildFromPayload | bcg729/src/cng.c:281-310 | the rebuild from a payload of any length is the same function of the reflections with the same rounding |
| StepUp.PayloadRoundTrip | bcg729/src/encoder.c:397-408 | a reflection sent in a payload comes back within 264 units of 2^-15 unless its byte is zero, which is exactly when, negated, it is below -126/127, and then its sign flips |
| StepUp.PayloadReflectionIff | bcg729/src/cng.c:285 | the 16 bit product is 258*(N-127)-4 if and only if 1 <= N <= 254 |
| BlockFloat.SumAutocorrelationCoefficients | bcg729/src/dtx.c:43-98 | for one to seven frames: a result if and only if no word is shifted by 32 bits or more; then right shift at most three, results fit 32 bits, each not above the exact scaled sum and less than n+1 units below |
| BlockFloat.SpreadIff | bcg729/src/dtx.c:61-67 | every shift stays below 32 if and only if no two scales are 32 or more apart |
| BlockFloat.NormalisingShift | bcg729/src/dtx.c:77-82 | the loop ends with the smallest shift that fits, at most three |
| LpWindow.WindowSignal | bcg729/src/computeLP.c:142-147 | the windowing loop equals the rounded products with the shipped window, which stay words |
| LpWindow.WindowedNear | bcg729/src/computeLP.c:142-147 | a windowed sample is within half a unit of the sample times its weight |
| LpAnalysis.NeighbourIdentity | bcg729/src/computeLP.c:152-197 | twice r(0) + r(1) is the sum of the first and last square and the squares of all sums of neighbours |
| LpAnalysis.NeighbourMargin | bcg729/src/computeLP.c:152-197 | r(0) is at most 57840 times r(0) + r(1), and 57840 times r(0) - r(1), for every signal |
| LpAnalysis.SignalIsClear | bcg729/src/computeLP.c:152-197 | normalised, r(1) stays 18000 away from r(0) and from -r(0) for every signal |
| LpAnalysis.WindowKeepsClear | bcg729/src/codebooks.c:344-345 | the lag window keeps that distance |
| LpAnalysis.FirstResidualPositive | bcg729/src/computeLP.c:74-94 | the energy left after the first order is positive, so the first division of the recursion never meets zero |
| LpAnalysis.ComputeLp | bcg729/src/computeLP.c:134-217 | whatever the signal buffer, reflections of the recursion on the lag-windowed exact correlations, a safe first division, and LP coefficients that are the step-up of the reflections |
| LpAnalysis.RescaledClear | bcg729/src/dtx.c:43-98 | the sums of up to seven frames stay away from r(1) = r(0) and r(1) = -r(0) |
| LpAnalysis.NoiseLp | bcg729/src/dtx.c:290-296 | a sum to analyse if and only if the scales spread over at most 31; then the first division is safe and the LP coefficients of a noise frame are the step-up of its reflections too |
| DtxContext.ScaleIs | bcg729/src/computeLP.c:158-171 | the normalising shift s of an energy e is the one with 2^(30-s) <= e < 2^(31-s) |
| DtxContext.ScaleRange | bcg729/src/computeLP.c:158-174 | the scale of a frame is between -7 and 30 |
| DtxContext.HeldAreClear | bcg729/src/dtx.c:210-247 | over every run all seven frames held stay away from r(1) = r(0) and r(1) = -r(0) |
| DtxContext.ShiftsFitIff | bcg729/src/dtx.c:61-67 | over every run and for any block of the frames held, all shifts stay below 32 if and only if no energy of the block is 32 doublings above another, a frame before the first counting as energy 1 |
| DtxContext.EnergeticIsComparable | bcg729/src/dtx.c:61-67 | energies of at least 64 are never too far apart |
| DtxContext.BesideSilenceIff | bcg729/src/dtx.c:210-214 | beside a silent frame or one before the start, exactly energies below 2^32 are not too far apart |
| DtxContext.LoudStartShiftsTooFar | bcg729/src/dtx.c:355-357 | after a start with three frames of samples of magnitude 0x3000 or more, the sum over the six past frames shifts by 32 bits or more at the fourth to the sixth frame |
| DtxContext.AnalysisContext.UpdateDTXContext | bcg729/src/dtx.c:230-247 | in place: the frame enters in front, the oldest leaves |
| DtxContext.AnalysisContext.AnalyseFrame | bcg729/src/encoder.c:144-159 | one frame through the signal buffer into the frames held, on the mutable context |
| DtxContext.AnalysisContext.BlockLp | bcg729/src/dtx.c:292-296 | on the mutable context after any run: a result if and only if the energies of the block are comparable, then that of the recursion on the block sum |
| Phi.FillDiagonal | bcg729/src/fixedCodebookSearch.c:380-400 | one diagonal from its low end by the recursion, nothing else touched |
| Phi.ComputeImpulseResponseCorrelationMatrix | bcg729/src/fixedCodebookSearch.c:311-400 | a matrix if and only if no signed sum overflows, which is half the energy at most 0x3e666666; then, whatever it held, every entry on the main diagonal or between two tracks is the signed, scaled correlation (halved on the diagonal) on both sides of the diagonal |
| Phi.ScalingRule | bcg729/src/fixedCodebookSearch.c:326-331 | the leading-zero rule scales by zero to three bits and leaves the margin it adds |
| Phi.NormaliserInputIff | bcg729/src/fixedCodebookSearch.c:327 | the normaliser's own input fits if and only if Phi(0,0) <= 0x3e666666 |
| Phi.FourPulsesFit | bcg729/src/fixedCodebookSearch.c:148-180 | the magnitudes of the ten energy terms of any four positions add up to less than 2^31 |
| PulseSearch.SearchPair | bcg729/src/fixedCodebookSearch.c:121-160 | first stage: a true maximum of C^2/E among the two largest of one track and all of another |
| PulseSearch.SearchQuad | bcg729/src/fixedCodebookSearch.c:163-181 | second stage: a true maximum among the 64 pairs of the two remaining tracks |
| PulseSearch.Search | bcg729/src/fixedCodebookSearch.c:121-204 | four runs, each with two true maxima; the best of the four, one pulse on each of tracks 0, 1, 2 and 3+jx |
| PulseSearch.FixedCodebookSearch | bcg729/src/fixedCodebookSearch.c:121-204 | the same with the codec's correlations and energies |
| PulseSearch.QuadMeans | bcg729/src/fixedCodebookSearch.c:166-175 | the square compared is the exact square of the sum of four targets, even when that sum wraps |
| PulseSearch.QuadEnergyExact | bcg729/src/fixedCodebookSearch.c:148-175 | on the codec's matrix no addition of an energy overflows: it is the exact sum of its ten terms |
| PulseEnergy.FormIsPower | bcg729/src/fixedCodebookSearch.c:294-296 | the quadratic form of the correlations is the energy of the filtered pulses |
| PulseEnergy.LeaderPower | bcg729/src/fixedCodebookSearch.c:146-171 | pulses at different positions, filtered, have at least the energy of the first response sample |
| PulseEnergy.QuadEnergyPositive | bcg729/src/fixedCodebookSearch.c:166-175 | on the codec's matrix the energy of four pulses on different tracks is positive in spite of halving, scaling and rounding |
| PulseEnergy.CodecEnergiesPositive | bcg729/src/fixedCodebookSearch.c:146-175 | so is every energy the search meets |
| PulseEnergy.FoundPulsesArrive | bcg729/src/fixedCodebookSearch.c:211-231 | what the search finds, with the target's signs, is four pulses on their tracks that the decoder gets back |
| PulseEnergy.SearchOnCodecMatrix | bcg729/src/fixedCodebookSearch.c:121-231 | the search on the codec's matrix finds its true maxima with nothing assumed about energies, and what it sends decodes to the pulses found with their signs |
| AdaptiveCodebook.GenerateAdaptativeCodebookVector | bcg729/src/adaptativeCodebookSearch.c:167-195 | for every step back of 19 to 144 the encoder's in-place loop, indexed from the start of the delayed vector, gives for each sample the rounded, saturated sum of all samples before it, weighted by their distance in thirds from the instant one delay before; what [0, 39] held does not matter |
| AdaptiveCodebook.ComputeAdaptativeCodebookVector | bcg729/src/decodeAdaptativeCodeVector.c:47-82 | the decoder's loop, written otherwise around n - k, gives the same sums |
| AdaptiveCodebook.ExtendedInterpolates | bcg729/src/decodeAdaptativeCodeVector.c:64-80 | the recursive definition both loops equal is that interpolation, stated from the delay and the filter alone |
| AdaptiveCodebook.ExtendedAt | bcg729/src/decodeAdaptativeCodeVector.c:64-80 | the past is untouched and each entry is the filter applied to entries before it |
| AdaptiveCodebook.AccumulatorFits | bcg729/src/decodeAdaptativeCodeVector.c:74-79 | no partial sum of the interpolation, nor the rounding, leaves 32 bits |
| AdaptiveCodebook.B30IsFilter | bcg729/src/codebooks.c:256-257 | the shipped filter's weights add up to less than two in every phase |
| HighPass.NoOverflow | bcg729/src/postProcessing.c:73-84 | from a bounded state no partial sum leaves 32 bits, and the next state is bounded |
| HighPass.RunNeverOverflows | bcg729/src/postProcessing.c:68-91 | so over every run of 16 bit input |
| HighPass.BothTame | bcg729/src/preProcessing.c:42-47 | both filters' coefficients meet the condition |
| HighPass.BlocksCompose | bcg729/src/postProcessing.c:68-91 | block after block equals one pass over the concatenated signal |
| HighPass.DifferenceEquation | bcg729/src/postProcessing.c:60-91 | over every run each accumulator is the difference equation of the inputs and accumulators around it, less than two units below, or saturated |
| HighPass.PostSampleNear | bcg729/src/postProcessing.c:86 | the decoder's sample is the accumulator at twice its Q13 value, rounded, or the nearest word |
| HighPass.Filter.PostProcess | bcg729/src/postProcessing.c:68-91 | the loop in place: saturated outputs and final state of the run |
| HighPass.Filter.PreProcess | bcg729/src/preProcessing.c:68-96 | the encoder's loop into its own buffer |
| HighPass.PreSampleIff | bcg729/src/preProcessing.c:91 | the stored sample is the rounded accumulator if and only if that is at most 134215679; above, it is -32768 |
| HighPass.PreProcessingCanWrap | bcg729/src/preProcessing.c:68-96 | an input of 22 samples from reset whose last output wraps |
| PitchGain.DotBound | bcg729/src/computeAdaptativeCodebookGain.c:46-52 | the scalar product is at most 32768 times the energy |
| PitchGain.ComputeAdaptativeCodebookGain | bcg729/src/computeAdaptativeCodebookGain.c:41-68 | for all 16 bit vectors: zero for a product that is not positive, else no zero denominator, no narrowing loss, and the largest gain up to 1.2 that does not overshoot the quotient |
| AudioRing.PiAudioFrameBuffer.Push | pjproject-ext/pj-ext.cpp:62-99 | the contents become the latest N-1 of old contents and frame; a frame over 640 bytes is refused unchanged |
| AudioRing.PushedKeepsLatest | pjproject-ext/pj-ext.cpp:62-99 | pushes since the last clear keep exactly the latest N-1 frames |
| AudioRing.PiAudioFrameBuffer.Tail | pjproject-ext/pj-ext.cpp:106-109 | the newest frame, if any |
| AudioRing.PiAudioFrameBuffer.Head | pjproject-ext/pj-ext.cpp:101-104 | the oldest frame, if any |
| AudioRing.PiAudioFrameBuffer.Get | pjproject-ext/pj-ext.cpp:111-116 | indexed from the oldest, nothing out of range |
| AudioRing.PiAudioFrameBuffer.Back | pjproject-ext/pj-ext.cpp:118-120 | indexed from the newest; the wrapped subtraction is out of range too |
| AudioRing.PiAudioFrameBuffer.Clear | pjproject-ext/pj-ext.h:62 | empties the ring |
| Recorder.ReachableInvariant | pjproject-ext/pj-ext.cpp:548-732 | every step of any number of recorders and workers keeps the invariant |
| Recorder.AtMostOneTask | pjproject-ext/pj-ext.cpp:548-589 | a recorder has at most one task outstanding, exactly one while encoding without a size error |
| Recorder.DeliveredInOrder | pjproject-ext/pj-ext.cpp:655-732 | every accepted frame is delivered exactly once in push order, all but the one outstanding |
| Recorder.FrameNumbersCount | pjproject-ext/pj-ext.cpp:582 | frame numbers count 0, 1, 2, ... within a cycle and cycles only grow |
| Recorder.NothingOldAfterReset | pjproject-ext/pj-ext.cpp:500-531 | after reset, over every continuation, only frames of later cycles are delivered |
| Recorder.FailedPutBlocksForEver | pjproject-ext/pj-ext.cpp:560-588 | a frame of the wrong size, or any frame once the pool is stopped, leaves its recorder unchanged for ever, every later put and reset blocked |
| Recorder.RunUnblocks | pjproject-ext/pj-ext.cpp:655-732 | otherwise a worker's run delivers the frame and clears the flag |
| Recorder.RunFaultsIff | pjproject-ext/pj-ext.cpp:662-665 | a run finds no tail if and only if the recorder's frames are larger than a slot |
| Recorder.FittingFramesNeverFault | pjproject-ext/pj-ext.cpp:548-732 | with frames that fit, no run of any length faults |
| Recorder.LargeFramesFault | pjproject-ext/pj-ext.cpp:62-65 | with larger frames, put, pop and run fault |
| RecorderContext.PiRecorder.DoPutFrame | pjproject-ext/pj-ext.cpp:548-589 | a put on the object equals the protocol's put, wrong sizes and a stopped pool included, and queues one task if and only if it succeeds |
| RecorderContext.PiRecorder.WorkerRun | pjproject-ext/pj-ext.cpp:655-732 | a run on the object equals the protocol's run, or faults without a tail |
| RecorderContext.PiRecorder.Reset | pjproject-ext/pj-ext.cpp:500-531 | a reset on the object equals the protocol's reset |
| RecorderContext.PiWorkerPool.Stop | pjproject-ext/pj-ext.cpp:342-346 | the pool is stopped, its tasks stay |
| RecorderContext.PiWorkerPool.Enqueue | pjproject-ext/pj-ext.cpp:348-369 | a task is appended, or refused by a stopped pool |
| RecorderContext.PiWorkerPool.Take | pjproject-ext/pj-ext.cpp:321-336 | a worker takes the oldest task, and ends if and only if the pool is stopped with no task left |

## Left out

- The vector-quantiser searches, open-loop and closed-loop pitch searches: any in-range result is allowed, so the results hold for every choice.
- GainCodebook.GainQuantization: on products of any size every distance could be the largest 64 bit value, which leaves the gains unset; on products formed from vectors that cannot happen (GainSearch.QuantiseGains).
- GainSearch.QuantiseGains: the best unquantised gains and the predicted gain are inputs of the search; with a product of -2^30 nothing is said of the pair but its window.
- NormalEquations.RecursionSolves: runs of the recursion that wrap; what then comes out solves no equation.
- Vad.DecisionIff: runs of fewer than 2^31 - 1 frames, after which a counter of noise frames could overflow.
- Excitation, predicted fixed gain and synthesis: the two sides round and clamp differently, so they are not in lockstep.
- The post filter and weighting filters: no stated correctness relation.
- Accuracy of log2, exp2, square root, cosine and arc cosine: parameters of the model.
- Packing works on records of machine words, not on the parameter and byte arrays of the source, and the words of a frame are specified as the ones that hold its numbers.
- GainCodebook.DecodeGains: the fixed gain of the same lines is in GainCodebook.DecodeFixedGain, with the predicted gain as a parameter.
- GainCodebook.DecodeFixedGain: the prediction and the power of two behind the predicted gain are a parameter.
- ComfortNoise.DrawFrame: draws only; the gain and excitation that the source computes around them are not modelled.
- ChannelContexts.EncoderContext.EncodeSidFrame: the comparison of noise filters and of energies is an input.
- ChannelContexts.ComfortFrame: filters, gain and seed; not the excitation.
- ChannelContexts.DecoderContext.DecodeSpeechFrame: the quantised state; not the fixed gain, excitation and synthesis.
- ChannelContexts.DecoderContext.DecodeSidFrame: neither the excitation nor RFC 3389 payloads on the channel; the rebuild of their filter is modelled apart.
- ChannelContexts.DecoderContext.ConcealGains: pitch gain and gain error; not the fading of the fixed gain.
- ChannelContexts.DecoderContext.DecodeErasedFrame: the quantised state; not the fixed gain and excitation.
- PulseSharpening.SharpeningGainsEqualIff: runs without losses; a decoder that has concealed frames bounds a faded gain, which is in Channel.DecodeErased.
- A descriptor received together with the erasure flag.
- Vad.SwitchNeedsHangover: runs of fewer than 2^32 frames, after which the frame counter wraps and the start-up begins again.
- Vad.ThirdNeedsNoise: the same bound on the run.
- The multi-boundary decision, running averages and minimum energy of the detector: inputs of its step.
- PulseEnergy.SearchOnCodecMatrix: the square of the response's first sample is required to exceed 164; in the source that sample is 4096 (bcg729/src/encoder.c:292), which the model takes from its caller.
- Phi.ComputeImpulseResponseCorrelationMatrix: a response on which a signed sum of the source overflows ends the model without a result.
- StepUp.Levinson: a zero residual energy, by which the source divides, ends the model without a result; LpAnalysis.FirstResidualPositive excludes it for the first order only.
- BlockFloat.SumAutocorrelationCoefficients: a shift by 32 bits or more ends the model without a result.
- LpAnalysis.NoiseLp: the same, for the noise frame behind the sum.
- The range of a codeword recomputed for a concealed frame: any 16 bit word is allowed for.
- Wrap-around of 32 bit cycle numbers and 64 bit frame counters in the recorder.
- A recorder whose encoding flag happens to start set, which the source does not initialise: runs start with the flag clear.
- Liveness of the recorder, spurious wake-ups and which waiter a notification reaches: a waiting step is one that is not enabled.
- Voice detection, Opus, clocks and statistics of the recorder; a put that throws, caught by onError or not, sets the flag `failed`.
- The openssl, fvad and opencore-amr parts of the repository: plumbing over code that is not shown.
