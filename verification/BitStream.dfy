/** The 80 bit speech frame, the 15 bit silence descriptor and the parity bit of P1, on the
    machine words of the source. */
module BitStream {

  // The entries of the parameters array, in its order.
  datatype Parameters = Parameters(L0: bv16, L1: bv16, L2: bv16, L3: bv16, P1: bv16, P0: bv16, C1: bv16, S1: bv16,
                                   GA1: bv16, GB1: bv16, P2: bv16, C2: bv16, S2: bv16, GA2: bv16, GB2: bv16)

  datatype Frame = Frame(b0: bv8, b1: bv8, b2: bv8, b3: bv8, b4: bv8, b5: bv8, b6: bv8, b7: bv8, b8: bv8, b9: bv8)

  // Every parameter fits the width the frame table gives it.
  predicate InRange(p: Parameters) {
    && p.L0 < 2 && p.L1 < 128 && p.L2 < 32 && p.L3 < 32 && p.P1 < 256 && p.P0 < 2 && p.C1 < 8192
    && p.S1 < 16 && p.GA1 < 8 && p.GB1 < 16 && p.P2 < 32 && p.C2 < 8192 && p.S2 < 16 && p.GA2 < 8 && p.GB2 < 16
  }

  // Storing into a byte keeps the low eight bits.
  function Byte(x: bv16): bv8 { (x & 0xff) as bv8 }

  function Word(x: bv8): bv16 { x as bv16 }

  function Packed(p: Parameters): Frame {
    Frame(Byte(((p.L0 & 0x1) << 7) | (p.L1 & 0x7f)),
          Byte(((p.L2 & 0x1f) << 3) | ((p.L3 >> 2) & 0x7)),
          Byte(((p.L3 & 0x3) << 6) | ((p.P1 >> 2) & 0x3f)),
          Byte(((p.P1 & 0x3) << 6) | ((p.P0 & 0x1) << 5) | ((p.C1 >> 8) & 0x1f)),
          Byte(p.C1 & 0xff),
          Byte(((p.S1 & 0xf) << 4) | ((p.GA1 & 0x7) << 1) | ((p.GB1 >> 3) & 0x1)),
          Byte(((p.GB1 & 0x7) << 5) | (p.P2 & 0x1f)),
          Byte((p.C2 >> 5) & 0xff),
          Byte(((p.C2 & 0x1f) << 3) | ((p.S2 >> 1) & 0x7)),
          Byte(((p.S2 & 0x1) << 7) | ((p.GA2 & 0x7) << 4) | (p.GB2 & 0xf)))
  }

  function Unpacked(f: Frame): Parameters {
    Parameters((Word(f.b0) >> 7) & 0x1,
               Word(f.b0) & 0x7f,
               (Word(f.b1) >> 3) & 0x1f,
               ((Word(f.b1) & 0x7) << 2) | ((Word(f.b2) >> 6) & 0x3),
               ((Word(f.b2) & 0x3f) << 2) | ((Word(f.b3) >> 6) & 0x3),
               (Word(f.b3) >> 5) & 0x1,
               ((Word(f.b3) & 0x1f) << 8) | Word(f.b4),
               (Word(f.b5) >> 4) & 0xf,
               (Word(f.b5) >> 1) & 0x7,
               ((Word(f.b5) & 0x1) << 3) | ((Word(f.b6) >> 5) & 0x7),
               Word(f.b6) & 0x1f,
               (Word(f.b7) << 5) | ((Word(f.b8) >> 3) & 0x1f),
               ((Word(f.b8) & 0x7) << 1) | ((Word(f.b9) >> 7) & 0x1),
               (Word(f.b9) >> 4) & 0x7,
               Word(f.b9) & 0xf)
  }

  function Wide(x: bv16): bv80 { x as bv80 }

  // The frame table: the fifteen fields one after the other, each in its own width.
  function FieldsWord(p: Parameters): bv80 {
    (Wide(p.L0) << 79) | (Wide(p.L1) << 72) | (Wide(p.L2) << 67) | (Wide(p.L3) << 62) | (Wide(p.P1) << 54)
    | (Wide(p.P0) << 53) | (Wide(p.C1) << 40) | (Wide(p.S1) << 36) | (Wide(p.GA1) << 33) | (Wide(p.GB1) << 29)
    | (Wide(p.P2) << 24) | (Wide(p.C2) << 11) | (Wide(p.S2) << 7) | (Wide(p.GA2) << 4) | (Wide(p.GB2) << 0)
  }

  function BytesWord(f: Frame): bv80 {
    (Wide(Word(f.b0)) << 72) | (Wide(Word(f.b1)) << 64) | (Wide(Word(f.b2)) << 56) | (Wide(Word(f.b3)) << 48) | (Wide(Word(f.b4)) << 40)
    | (Wide(Word(f.b5)) << 32) | (Wide(Word(f.b6)) << 24) | (Wide(Word(f.b7)) << 16) | (Wide(Word(f.b8)) << 8) | (Wide(Word(f.b9)) << 0)
  }

  /** The ten bytes, read as one 80 bit word, are the fifteen fields one after the other in
      the order and with the widths of the frame table: no gap and no overlap. */
  lemma PackingIsConcatenation(p: Parameters)
    requires InRange(p)
    ensures BytesWord(Packed(p)) == FieldsWord(p)
  {
  }

  /** Packing is a bijection between in-range parameters and ten-byte frames. */
  lemma UnpackAfterPack(p: Parameters)
    requires InRange(p)
    ensures Unpacked(Packed(p)) == p
  {
  }

  lemma PackAfterUnpack(f: Frame)
    ensures InRange(Unpacked(f)) && Packed(Unpacked(f)) == f
  {
  }

  // ----- silence descriptor -----

  datatype Sid = Sid(L0: bv8, L1: bv8, L2: bv8, gain: bv8)

  datatype SidFrame = SidFrame(b0: bv8, b1: bv8)

  predicate SidInRange(s: Sid) { s.L0 < 2 && s.L1 < 32 && s.L2 < 16 && s.gain < 32 }

  // As the encoder writes it: the two high bits of L2 are reduced modulo 3.
  function SidPacked(s: Sid): SidFrame {
    SidFrame(((s.L0 & 0x1) << 7) | ((s.L1 & 0x1f) << 2) | ((s.L2 >> 2) % 3),
             ((s.L2 & 0x3) << 6) | ((s.gain & 0x1f) << 1))
  }

  // As the conversion helper writes it: the two high bits of L2 are masked.
  function SidPackedByHelper(s: Sid): SidFrame {
    SidFrame(((s.L0 & 0x1) << 7) | ((s.L1 & 0x1f) << 2) | ((s.L2 >> 2) & 0x3),
             ((s.L2 & 0x3) << 6) | ((s.gain & 0x1f) << 1))
  }

  function SidUnpacked(f: SidFrame): Sid {
    Sid((f.b0 >> 7) & 0x1,
        (f.b0 >> 2) & 0x1f,
        ((f.b0 & 0x3) << 2) | ((f.b1 >> 6) & 0x3),
        (f.b1 >> 1) & 0x1f)
  }

  // What the decoder reads as L2 when the encoder chose l2.
  function ReceivedL2(l2: bv8): bv8 {
    if l2 < 12 then l2 else l2 - 12
  }

  lemma SidFieldsSurvive(l0: bv8, l1: bv8, l2: bv8, gain: bv8)
    requires l0 < 2 && l1 < 32 && l2 < 16 && gain < 32
    ensures SidUnpacked(SidPacked(Sid(l0, l1, l2, gain))) == Sid(l0, l1, ReceivedL2(l2), gain)
    ensures SidUnpacked(SidPackedByHelper(Sid(l0, l1, l2, gain))) == Sid(l0, l1, l2, gain)
  {}

  /** A descriptor written by the encoder is read back unchanged exactly when L2 < 12; the
      four other values lose 12.  All other fields survive, and the helper loses nothing. */
  lemma SidRoundTripIff(s: Sid)
    requires SidInRange(s)
    ensures SidUnpacked(SidPacked(s)) == s.(L2 := ReceivedL2(s.L2))
    ensures SidUnpacked(SidPacked(s)) == s <==> s.L2 < 12
    ensures SidUnpacked(SidPackedByHelper(s)) == s
  {
    SidFieldsSurvive(s.L0, s.L1, s.L2, s.gain);
  }

  // ----- parity of P1 -----

  // Exclusive or of the k low bits.
  function XorOfBits(x: bv16, k: nat): bv16 {
    if k == 0 then 0 else (x & 1) ^ XorOfBits(x >> 1, k - 1)
  }

  // Odd parity over the six high bits.
  function Parity(p1: bv16): bv16 { 1 ^ XorOfBits(p1 >> 2, 6) }

  method ComputeParity(adaptativeCodebookIndex: bv16) returns (parity: bv16)
    ensures parity == Parity(adaptativeCodebookIndex)
  {
    parity := 1;
    var index := adaptativeCodebookIndex >> 2;
    var i := 0;
    while i < 6
      invariant 0 <= i <= 6
      invariant parity ^ XorOfBits(index, 6 - i) == Parity(adaptativeCodebookIndex)
    {
      parity := parity ^ (index & 1);
      index := index >> 1;
      i := i + 1;
    }
  }

  // The same exclusive or without the recursion.
  function HighBitsXor(x: bv16): bv16 {
    ((x >> 2) ^ (x >> 3) ^ (x >> 4) ^ (x >> 5) ^ (x >> 6) ^ (x >> 7)) & 1
  }

  lemma ParityIsHighBitsXor(p1: bv16)
    ensures Parity(p1) == 1 ^ HighBitsXor(p1)
  {
    var b2 := p1 >> 2;
    var b3, b4, b5, b6, b7 := b2 >> 1, (b2 >> 1) >> 1, ((b2 >> 1) >> 1) >> 1, (((b2 >> 1) >> 1) >> 1) >> 1, ((((b2 >> 1) >> 1) >> 1) >> 1) >> 1;
    assert XorOfBits(b7 >> 1, 0) == 0;
    assert XorOfBits(b7, 1) == b7 & 1;
    assert XorOfBits(b6, 2) == (b6 & 1) ^ (b7 & 1);
    assert XorOfBits(b5, 3) == (b5 & 1) ^ (b6 & 1) ^ (b7 & 1);
    assert XorOfBits(b4, 4) == (b4 & 1) ^ (b5 & 1) ^ (b6 & 1) ^ (b7 & 1);
    assert XorOfBits(b3, 5) == (b3 & 1) ^ (b4 & 1) ^ (b5 & 1) ^ (b6 & 1) ^ (b7 & 1);
  }

  lemma FlipHighBitsXor(x: bv16, m: bv16)
    requires IsOneBit(m)
    ensures (1 ^ HighBitsXor(x ^ m)) ^ (1 ^ HighBitsXor(x)) != 0 <==> m >= 4
    ensures (1 ^ HighBitsXor(x)) ^ (1 ^ HighBitsXor(x)) == 0
    ensures (1 ^ HighBitsXor(x)) ^ ((1 ^ HighBitsXor(x)) ^ 1) != 0
  {}

  predicate IsOneBit(m: bv16) {
    m == 1 || m == 2 || m == 4 || m == 8 || m == 16 || m == 32 || m == 64 || m == 128
  }

  /** The parity sent with P1 passes the decoder's test; flipping one bit of P1 makes the test
      fail exactly when the bit is one of the six high ones, flipping P0 always does. */
  lemma SingleFlipDetected(p1: bv16, p0: bv16, m: bv16)
    requires p0 == Parity(p1) && IsOneBit(m)
    ensures Parity(p1) ^ p0 == 0
    ensures Parity(p1 ^ m) ^ p0 != 0 <==> m >= 4
    ensures Parity(p1) ^ (p0 ^ 1) != 0
  {
    ParityIsHighBitsXor(p1);
    ParityIsHighBitsXor(p1 ^ m);
    FlipHighBitsXor(p1, m);
  }

  // ----- numbers and words -----

  function Join(high: bv8, low: bv8): bv16 { ((high as bv16) << 8) | (low as bv16) }

  function High(w: bv16): bv8 { ((w >> 8) & 0xff) as bv8 }

  function Low(w: bv16): bv8 { (w & 0xff) as bv8 }

  function FromWord(w: bv16): nat {
    256 * (High(w) as nat) + Low(w) as nat
  }

  lemma HalvesOfJoin(high: bv8, low: bv8)
    ensures High(Join(high, low)) == high && Low(Join(high, low)) == low
  {}

  lemma SmallWord(w: bv16)
    ensures w < 8192 <==> High(w) < 32
    ensures w < 256 <==> High(w) == 0
    ensures w < 128 <==> High(w) == 0 && Low(w) < 128
    ensures w < 32 <==> High(w) == 0 && Low(w) < 32
    ensures w < 16 <==> High(w) == 0 && Low(w) < 16
    ensures w < 8 <==> High(w) == 0 && Low(w) < 8
    ensures w < 2 <==> High(w) == 0 && Low(w) < 2
  {}

  lemma ByteIsNumber(b: bv8)
    ensures b as nat < 256
    ensures (b as nat < 128 <==> b < 128) && (b as nat < 32 <==> b < 32) && (b as nat < 16 <==> b < 16)
    ensures (b as nat < 8 <==> b < 8) && (b as nat < 2 <==> b < 2) && (b as nat == 0 <==> b == 0)
  {}

  lemma WordIsNumber(w: bv16)
    ensures (w < 8192 <==> FromWord(w) < 8192) && (w < 256 <==> FromWord(w) < 256) && (w < 128 <==> FromWord(w) < 128)
    ensures (w < 32 <==> FromWord(w) < 32) && (w < 16 <==> FromWord(w) < 16) && (w < 8 <==> FromWord(w) < 8) && (w < 2 <==> FromWord(w) < 2)
  {
    SmallWord(w);
    ByteIsNumber(High(w));
    ByteIsNumber(Low(w));
  }

  lemma NextByte(b: bv8)
    requires b < 255
    ensures (b + 1) as nat == b as nat + 1
  {}

  lemma {:induction false} ByteFor(x: nat) returns (b: bv8)
    requires x < 256
    ensures b as nat == x
  {
    b := 0;
    if x > 0 {
      var below := ByteFor(x - 1);
      assert below < 255 by { SmallByte(below); }
      NextByte(below);
      b := below + 1;
    }
  }

  lemma SmallByte(b: bv8)
    ensures b as nat < 255 <==> b < 255
  {}

  // Some word holds the number, and its size is the number's size.
  lemma WordFor(x: nat) returns (w: bv16)
    requires x < 0x10000
    ensures FromWord(w) == x
    ensures (w < 8192 <==> x < 8192) && (w < 256 <==> x < 256) && (w < 128 <==> x < 128)
    ensures (w < 32 <==> x < 32) && (w < 16 <==> x < 16) && (w < 8 <==> x < 8) && (w < 2 <==> x < 2)
  {
    var high := ByteFor(x / 256);
    var low := ByteFor(x % 256);
    HalvesOfJoin(high, low);
    w := Join(high, low);
    WordIsNumber(w);
  }

  // The parameters as numbers, the parity bit apart.
  datatype Fields = Fields(L0: nat, L1: nat, L2: nat, L3: nat, P1: nat, C1: nat, S1: nat, GA1: nat, GB1: nat,
                           P2: nat, C2: nat, S2: nat, GA2: nat, GB2: nat)

  predicate FieldsInRange(n: Fields) {
    && n.L0 < 2 && n.L1 < 128 && n.L2 < 32 && n.L3 < 32 && n.P1 < 256 && n.C1 < 8192 && n.S1 < 16 && n.GA1 < 8
    && n.GB1 < 16 && n.P2 < 32 && n.C2 < 8192 && n.S2 < 16 && n.GA2 < 8 && n.GB2 < 16
  }

  function FieldsOf(p: Parameters): Fields {
    Fields(FromWord(p.L0), FromWord(p.L1), FromWord(p.L2), FromWord(p.L3), FromWord(p.P1), FromWord(p.C1), FromWord(p.S1),
           FromWord(p.GA1), FromWord(p.GB1), FromWord(p.P2), FromWord(p.C2), FromWord(p.S2), FromWord(p.GA2), FromWord(p.GB2))
  }

  predicate ParityError(p: Parameters) { Parity(p.P1) ^ p.P0 != 0 }

  lemma ParityIsBit(p1: bv16)
    ensures Parity(p1) < 2 && Parity(p1) ^ Parity(p1) == 0
  {
    ParityIsHighBitsXor(p1);
    HighBitsXorIsBit(p1);
  }

  lemma HighBitsXorIsBit(x: bv16)
    ensures 1 ^ HighBitsXor(x) < 2
  {}

  lemma ParametersExist(n: Fields) returns (p: Parameters)
    requires FieldsInRange(n)
    ensures InRange(p) && FieldsOf(p) == n && p.P0 == Parity(p.P1)
  {
    var L0 := WordFor(n.L0);
    var L1 := WordFor(n.L1);
    var L2 := WordFor(n.L2);
    var L3 := WordFor(n.L3);
    var P1 := WordFor(n.P1);
    var C1 := WordFor(n.C1);
    var S1 := WordFor(n.S1);
    var GA1 := WordFor(n.GA1);
    var GB1 := WordFor(n.GB1);
    var P2 := WordFor(n.P2);
    var C2 := WordFor(n.C2);
    var S2 := WordFor(n.S2);
    var GA2 := WordFor(n.GA2);
    var GB2 := WordFor(n.GB2);
    ParityIsBit(P1);
    p := Parameters(L0, L1, L2, L3, P1, Parity(P1), C1, S1, GA1, GB1, P2, C2, S2, GA2, GB2);
  }

  // The words that hold the fields, with the parity of P1.
  ghost function ParametersOf(n: Fields): (p: Parameters)
    requires FieldsInRange(n)
    ensures InRange(p) && FieldsOf(p) == n && p.P0 == Parity(p.P1)
  {
    assert exists p :: InRange(p) && FieldsOf(p) == n && p.P0 == Parity(p.P1) by { var p := ParametersExist(n); }
    var p :| InRange(p) && FieldsOf(p) == n && p.P0 == Parity(p.P1);
    p
  }

  /** Fifteen numbers in range, written as an 80 bit frame and read back, arrive unchanged and
      with no parity error. */
  lemma FieldsRoundTrip(n: Fields)
    requires FieldsInRange(n)
    ensures var p := Unpacked(Packed(ParametersOf(n))); FieldsOf(p) == n && !ParityError(p)
  {
    UnpackAfterPack(ParametersOf(n));
    ParityIsBit(ParametersOf(n).P1);
  }

  // Whatever bytes arrive, every field is in its range.
  lemma ReceivedInRange(f: Frame)
    ensures FieldsInRange(FieldsOf(Unpacked(f)))
  {
    PackAfterUnpack(f);
    var p := Unpacked(f);
    WordIsNumber(p.L0);
    WordIsNumber(p.L1);
    WordIsNumber(p.L2);
    WordIsNumber(p.L3);
    WordIsNumber(p.P1);
    WordIsNumber(p.C1);
    WordIsNumber(p.S1);
    WordIsNumber(p.GA1);
    WordIsNumber(p.GB1);
    WordIsNumber(p.P2);
    WordIsNumber(p.C2);
    WordIsNumber(p.S2);
    WordIsNumber(p.GA2);
    WordIsNumber(p.GB2);
  }

  // The descriptor's fields as numbers.
  datatype SidFields = SidFields(L0: nat, L1: nat, L2: nat, gain: nat)

  predicate SidFieldsInRange(n: SidFields) { n.L0 < 2 && n.L1 < 32 && n.L2 < 16 && n.gain < 32 }

  function SidFieldsOf(s: Sid): SidFields { SidFields(s.L0 as nat, s.L1 as nat, s.L2 as nat, s.gain as nat) }

  lemma ReceivedSidInRange(f: SidFrame)
    ensures SidFieldsInRange(SidFieldsOf(SidUnpacked(f)))
  {
    var s := SidUnpacked(f);
    assert SidInRange(s);
    ByteIsNumber(s.L0);
    ByteIsNumber(s.L1);
    ByteIsNumber(s.L2);
    ByteIsNumber(s.gain);
  }

  lemma SidExists(n: SidFields) returns (s: Sid)
    requires SidFieldsInRange(n)
    ensures SidInRange(s) && SidFieldsOf(s) == n
  {
    var L0 := ByteFor(n.L0);
    var L1 := ByteFor(n.L1);
    var L2 := ByteFor(n.L2);
    var gain := ByteFor(n.gain);
    ByteIsNumber(L0);
    ByteIsNumber(L1);
    ByteIsNumber(L2);
    ByteIsNumber(gain);
    s := Sid(L0, L1, L2, gain);
  }

  // The bytes that hold the fields.
  ghost function SidOf(n: SidFields): (s: Sid)
    requires SidFieldsInRange(n)
    ensures SidInRange(s) && SidFieldsOf(s) == n
  {
    assert exists s :: SidInRange(s) && SidFieldsOf(s) == n by { var s := SidExists(n); }
    var s :| SidInRange(s) && SidFieldsOf(s) == n;
    s
  }

  lemma ReceivedL2IsNumber(l2: bv8)
    requires l2 < 16
    ensures ReceivedL2(l2) as nat == if l2 as nat < 12 then l2 as nat else l2 as nat - 12
  {}

  /** The same for a silence descriptor: everything arrives but an L2 of 12 or more, which
      arrives 12 lower. */
  lemma SidFieldsRoundTrip(n: SidFields)
    requires SidFieldsInRange(n)
    ensures SidFieldsOf(SidUnpacked(SidPacked(SidOf(n)))) == n.(L2 := if n.L2 < 12 then n.L2 else n.L2 - 12)
  {
    SidRoundTripIff(SidOf(n));
    ReceivedL2IsNumber(SidOf(n).L2);
  }
}
