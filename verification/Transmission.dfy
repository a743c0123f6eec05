/** The channel results on bytes: what the encoder writes is what the lockstep theorems assume to
    arrive, and with the tables the codec ships their conditions hold. */
module Transmission {
  import opened LsfVector
  import opened MaPrediction
  import opened LsfCodebook
  import opened AnyHistory
  import opened BitStream
  import opened Channel
  import opened Lockstep
  import ShippedTables

  // Ten bytes, two bytes, or nothing.
  datatype Packet = SpeechPacket(frame: Frame) | SidPacket(sid: SidFrame) | NoPacket

  ghost function Written(m: Message): Packet
    requires IsMessage(m)
  {
    match m
    case SpeechMessage(n, _) => SpeechPacket(Packed(ParametersOf(n)))
    case SidMessage(n) => SidPacket(SidPacked(SidOf(n)))
    case Untransmitted => NoPacket
  }

  function Read(p: Packet): (m: Message)
    ensures IsMessage(m)
  {
    match p
    case SpeechPacket(f) =>
      ReceivedInRange(f);
      SpeechMessage(FieldsOf(Unpacked(f)), ParityError(Unpacked(f)))
    case SidPacket(b) =>
      ReceivedSidInRange(b);
      SidMessage(SidFieldsOf(SidUnpacked(b)))
    case NoPacket => Untransmitted
  }

  /** What is written is read as `Arriving` says. */
  lemma WireDelivers(m: Message)
    requires IsMessage(m) && (m.SpeechMessage? ==> !m.parityError)
    ensures Read(Written(m)) == Arriving(m)
  {
    match m
    case SpeechMessage(n, _) => FieldsRoundTrip(n);
    case SidMessage(n) => SidFieldsRoundTrip(n);
    case Untransmitted =>
  }

  ghost function PacketsSent(kit: Kit, e: Encoder, run: seq<Choice>): (p: seq<Packet>)
    requires Shaped(kit.tables) && IsEncoder(e) && IsRun(run)
    ensures |p| == |run|
  {
    if run == [] then []
    else PacketsSent(kit, e, run[..|run| - 1]) + [Written(MessageOf(EncoderAfter(kit, e, run[..|run| - 1]), run[|run| - 1]))]
  }

  function AllRead(p: seq<Packet>): (m: seq<Message>)
    ensures |m| == |p| && AllMessages(m)
  {
    seq(|p|, i requires 0 <= i < |p| => Read(p[i]))
  }

  lemma {:induction false} StreamIsRead(kit: Kit, e: Encoder, run: seq<Choice>)
    requires Shaped(kit.tables) && IsEncoder(e) && IsRun(run)
    ensures AllRead(PacketsSent(kit, e, run)) == Stream(kit, e, run)
  {
    if run != [] {
      var before, last := run[..|run| - 1], run[|run| - 1];
      StreamIsRead(kit, e, before);
      var m := MessageOf(EncoderAfter(kit, e, before), last);
      WireDelivers(m);
      assert AllRead(PacketsSent(kit, e, before) + [Written(m)]) == AllRead(PacketsSent(kit, e, before)) + [Read(Written(m))];
    }
  }

  // The decoder after a sequence of packets.
  function DecoderOn(kit: Kit, packets: seq<Packet>): (d: Decoder)
    requires Shaped(kit.tables)
    ensures IsDecoder(d)
  {
    DecoderAfter(kit, InitialDecoder(), AllRead(packets))
  }

  /** Encoder and decoder created together, shipped tables, every run of frames written to bytes
      and read back: the spectral histories agree exactly when no descriptor with an L2 of 12 or
      more was sent within the last four updates; flags, seeds and gain predictors always agree. */
  lemma HistoriesAgreeOverBytesIff(kit: Kit, run: seq<Choice>)
    requires kit.tables == ShippedTables.Shipped() && Shaped(kit.tables) && IsRun(run)
    ensures var e, d := EncoderAfter(kit, InitialEncoder(), run), DecoderOn(kit, PacketsSent(kit, InitialEncoder(), run));
      ControlSync(e, d) && (e.history == d.history <==> !SpoiltWithin(Marks(kit, InitialEncoder(), run), 4))
  {
    ShippedTables.ShippedQualify();
    StreamIsRead(kit, InitialEncoder(), run);
    HistoriesAgreeIff(kit, run);
    StartInSync();
    RunKeepsAgreement(kit, InitialEncoder(), InitialDecoder(), run, 5);
  }

  /** Every run whose descriptors have an L2 below 12, written to bytes and read back: whole
      synchronisation, and the next frame is the same on both sides. */
  lemma LockstepOverBytes(kit: Kit, run: seq<Choice>, next: Choice)
    requires Shaped(kit.tables) && IsRun(run) && IsChoice(next)
    requires Faithful(next) && forall i :: 0 <= i < |run| ==> Faithful(run[i])
    ensures var e, d := EncoderAfter(kit, InitialEncoder(), run), DecoderOn(kit, PacketsSent(kit, InitialEncoder(), run));
      && InSync(e, d) && e.history == d.history
      && Encode(kit, e, next).1 == Decode(kit, d, Read(Written(MessageOf(e, next)))).1
  {
    StreamIsRead(kit, InitialEncoder(), run);
    StartInSync();
    RunInLockstep(kit, InitialEncoder(), InitialDecoder(), run, next);
    WireDelivers(MessageOf(EncoderAfter(kit, InitialEncoder(), run), next));
  }

  /** Whatever bytes the decoder receives and whatever is lost: the vector it would fall back to is
      stable, so is every vector it will decode next, and nothing overflows in decoding it. */
  lemma AnyBytesDecodeStably(kit: Kit, packets: seq<Packet>, next: Fields, sid: SidFields)
    requires kit.tables == ShippedTables.Shipped() && Shaped(kit.tables) && FieldsInRange(next) && SidFieldsInRange(sid)
    ensures HoldsUp(DecoderOn(kit, packets))
    ensures IsStable(SpeechLsf(kit, DecoderOn(kit, packets).history, next))
    ensures IsStable(NoiseLsf(kit, DecoderOn(kit, packets).history, sid))
  {
    ShippedTables.ShippedDamped();
    DecoderRunIsStable(kit, AllRead(packets), next, sid);
  }
}
