/** The algebraic codebook: coding of the four pulse positions and signs, their decoding, and
    the pitch sharpening that each side adds to the pulse vector. */
module FixedCodeword {
  import opened Common
  import opened FixedPoint


  // Pulse k sits on track k; the last pulse chooses between tracks 3 and 4 with jx.
  datatype Pulses = Pulses(m0: nat, m1: nat, m2: nat, m3: nat, jx: nat, s0: bool, s1: bool, s2: bool, s3: bool)

  predicate OnTracks(p: Pulses) {
    && p.m0 < L_SUBFRAME && p.m0 % 5 == 0
    && p.m1 < L_SUBFRAME && p.m1 % 5 == 1
    && p.m2 < L_SUBFRAME && p.m2 % 5 == 2
    && p.m3 < L_SUBFRAME && p.jx <= 1 && p.m3 % 5 == 3 + p.jx
  }

  // 6554 is one fifth in Q15.
  function FifthOf(x: nat): nat { (x * 6554) / 32768 }

  function EncodedPositions(p: Pulses): nat {
    FifthOf(p.m0) + FifthOf(p.m1) * 8 + FifthOf(p.m2) * 64 + (FifthOf(p.m3) * 2 + p.jx) * 512
  }

  function SignBit(positive: bool): nat { if positive then 1 else 0 }

  function EncodedSigns(p: Pulses): nat {
    SignBit(p.s0) + SignBit(p.s1) * 2 + SignBit(p.s2) * 4 + SignBit(p.s3) * 8
  }

  function DecodedPulses(signs: nat, positions: nat): Pulses {
    var jx := (positions / 512) % 2;
    Pulses((positions % 8) * 5, ((positions / 8) % 8) * 5 + 1, ((positions / 64) % 8) * 5 + 2,
           ((positions / 1024) % 8) * 5 + 3 + jx, jx,
           signs % 2 != 0, (signs / 2) % 2 != 0, (signs / 4) % 2 != 0, (signs / 8) % 2 != 0)
  }

  lemma FifthIsExact(x: nat)
    requires x < L_SUBFRAME
    ensures FifthOf(x) == x / 5
  {
    var q := x / 5;
    assert 5 * q <= x <= 5 * q + 4;
  }

  lemma UnpackOctals(a: nat, b: nat, c: nat, j: nat, d: nat)
    requires a < 8 && b < 8 && c < 8 && j < 2 && d < 8
    ensures var x := a + b * 8 + c * 64 + (d * 2 + j) * 512;
      && x < 8192 && x % 8 == a && (x / 8) % 8 == b && (x / 64) % 8 == c && (x / 512) % 2 == j && (x / 1024) % 8 == d
  {
    var x := a + b * 8 + c * 64 + (d * 2 + j) * 512;
    assert x / 8 == b + c * 8 + (d * 2 + j) * 64;
    assert x / 64 == c + (d * 2 + j) * 8;
    assert x / 512 == d * 2 + j;
    assert x / 1024 == d;
  }

  lemma UnpackBinary(a: nat, b: nat, c: nat, d: nat)
    requires a < 2 && b < 2 && c < 2 && d < 2
    ensures var x := a + b * 2 + c * 4 + d * 8;
      x < 16 && x % 2 == a && (x / 2) % 2 == b && (x / 4) % 2 == c && (x / 8) % 2 == d
  {}

  lemma PositionsRoundTrip(p: Pulses)
    requires OnTracks(p)
    ensures var x := EncodedPositions(p);
      && x < 8192 && (x % 8) * 5 == p.m0 && ((x / 8) % 8) * 5 + 1 == p.m1 && ((x / 64) % 8) * 5 + 2 == p.m2
      && (x / 512) % 2 == p.jx && ((x / 1024) % 8) * 5 + 3 + p.jx == p.m3
  {
    FifthIsExact(p.m0);
    FifthIsExact(p.m1);
    FifthIsExact(p.m2);
    FifthIsExact(p.m3);
    UnpackOctals(p.m0 / 5, p.m1 / 5, p.m2 / 5, p.jx, p.m3 / 5);
  }

  /** Any four pulses on their tracks come back with their signs from a 13 bit codeword and
      four sign bits; and every 13 bit codeword decodes to pulses on their tracks. */
  lemma PulsesRoundTrip(p: Pulses)
    requires OnTracks(p)
    ensures EncodedPositions(p) < 8192 && EncodedSigns(p) < 16
    ensures DecodedPulses(EncodedSigns(p), EncodedPositions(p)) == p
  {
    PositionsRoundTrip(p);
    UnpackBinary(SignBit(p.s0), SignBit(p.s1), SignBit(p.s2), SignBit(p.s3));
  }

  lemma DecodedPulsesOnTracks(signs: nat, positions: nat)
    requires positions < 8192
    ensures OnTracks(DecodedPulses(signs, positions))
  {}

  lemma OctalsOf(x: nat)
    requires x < 8192
    ensures x == x % 8 + ((x / 8) % 8) * 8 + ((x / 64) % 8) * 64 + (((x / 1024) % 8) * 2 + (x / 512) % 2) * 512
  {
    DivDiv(x, 8, 8);
    DivDiv(x, 64, 8);
    DivDiv(x, 512, 2);
    assert x / 1024 < 8;
  }

  lemma BitsOfFour(x: nat)
    requires x < 16
    ensures x == x % 2 + ((x / 2) % 2) * 2 + ((x / 4) % 2) * 4 + ((x / 8) % 2) * 8
  {
    DivDiv(x, 2, 2);
    DivDiv(x, 4, 2);
  }

  /** Every codeword and every four sign bits are those of the pulses they decode to. */
  lemma CodewordReturns(signs: nat, positions: nat)
    requires signs < 16 && positions < 8192
    ensures EncodedPositions(DecodedPulses(signs, positions)) == positions
    ensures EncodedSigns(DecodedPulses(signs, positions)) == signs
  {
    var p := DecodedPulses(signs, positions);
    DecodedPulsesOnTracks(signs, positions);
    FifthIsExact(p.m0);
    FifthIsExact(p.m1);
    FifthIsExact(p.m2);
    FifthIsExact(p.m3);
    OctalsOf(positions);
    BitsOfFour(signs);
  }

  // +1 and -1 in Q13.
  function Height(positive: bool): int { if positive then 8192 else -8192 }

  function PulseAt(p: Pulses, n: nat): int {
    if n == p.m0 then Height(p.s0) else if n == p.m1 then Height(p.s1)
    else if n == p.m2 then Height(p.s2) else if n == p.m3 then Height(p.s3) else 0
  }

  function PulseVector(p: Pulses): (v: seq<int>)
    ensures |v| == L_SUBFRAME
  {
    seq(L_SUBFRAME, n requires n >= 0 => PulseAt(p, n))
  }

  // ----- pitch sharpening -----

  // The echo of x at gain beta (Q14): the encoder truncates, the decoder rounds.
  function Echo(x: int, beta: int, rounding: bool): int {
    (x * beta + (if rounding then 8192 else 0)) / 16384
  }

  // Entry i after the in-place pass that adds to each entry the echo of the one `delay` before.
  function SharpenedAt(v: seq<int>, delay: nat, beta: int, rounding: bool, i: nat): int
    requires delay >= 1 && i < |v|
    decreases i
  {
    if i < delay then v[i]
    else Wrap16(v[i] + Echo(SharpenedAt(v, delay, beta, rounding, i - delay), beta, rounding))
  }

  method Sharpen(vector: array<int>, delay: nat, beta: int, rounding: bool)
    requires delay >= 1
    modifies vector
    ensures forall k :: 0 <= k < vector.Length ==> vector[k] == SharpenedAt(old(vector[..]), delay, beta, rounding, k)
  {
    var i := delay;
    while i < vector.Length
      invariant delay <= i
      invariant forall k :: 0 <= k < i && k < vector.Length ==> vector[k] == SharpenedAt(old(vector[..]), delay, beta, rounding, k)
      invariant forall k :: i <= k < vector.Length ==> vector[k] == old(vector[k])
    {
      vector[i] := Wrap16(vector[i] + Echo(vector[i - delay], beta, rounding));
      i := i + 1;
    }
  }

  function Places(p: Pulses): seq<nat> { [p.m0, p.m1, p.m2, p.m3] }

  // Bits leave the codeword from the low end, three at a time.
  method DecodePositions(positions: nat) returns (place: array<nat>)
    requires positions < 8192
    ensures fresh(place) && place.Length == 4 && place[..] == Places(DecodedPulses(0, positions))
  {
    DivDiv(positions, 8, 8);
    DivDiv(positions, 64, 8);
    DivDiv(positions, 512, 2);
    place := new nat[4];
    var rest := positions;
    place[0] := (rest % 8) * 5;
    rest := rest / 8;
    place[1] := (rest % 8) * 5 + 1;
    rest := rest / 8;
    place[2] := (rest % 8) * 5 + 2;
    rest := rest / 8;
    var jx := rest % 2;
    rest := rest / 2;
    place[3] := (rest % 8) * 5 + 3 + jx;
  }

  // One sign bit after the other, lowest first.
  method PlacePulses(signs: nat, place: seq<nat>, vector: array<int>)
    requires |place| == 4 && (forall i :: 0 <= i < 4 ==> place[i] < vector.Length)
    requires forall i, j :: 0 <= i < j < 4 ==> place[i] != place[j]
    requires forall n :: 0 <= n < vector.Length ==> vector[n] == 0
    modifies vector
    ensures forall k :: 0 <= k < 4 ==> vector[place[k]] == Height((signs / Pow2(k)) % 2 != 0)
    ensures forall n :: 0 <= n < vector.Length && n !in place ==> vector[n] == 0
  {
    var rest := signs;
    var i := 0;
    while i < 4
      invariant 0 <= i <= 4
      invariant rest == signs / Pow2(i)
      invariant forall k :: 0 <= k < i ==> vector[place[k]] == Height((signs / Pow2(k)) % 2 != 0)
      invariant forall n :: 0 <= n < vector.Length && n !in place ==> vector[n] == 0
    {
      vector[place[i]] := if rest % 2 != 0 then 8192 else -8192;
      DivDiv(signs, Pow2(i), 2);
      rest := rest / 2;
      i := i + 1;
    }
  }

  method DecodeFixedCodeVector(signs: nat, positions: nat, delay: nat, beta: int, vector: array<int>)
    requires positions < 8192 && delay >= 1 && vector.Length == L_SUBFRAME
    modifies vector
    ensures forall k :: 0 <= k < L_SUBFRAME ==>
      vector[k] == SharpenedAt(PulseVector(DecodedPulses(signs, positions)), delay, beta, true, k)
  {
    var place := DecodePositions(positions);
    ghost var p := DecodedPulses(signs, positions);
    assert Places(p) == Places(DecodedPulses(0, positions));
    DecodedPulsesOnTracks(signs, positions);
    forall n | 0 <= n < L_SUBFRAME { vector[n] := 0; }
    PlacePulses(signs, place[..], vector);
    Placed(signs, positions, vector[..]);
    Sharpen(vector, delay, beta, true);
  }

  lemma Placed(signs: nat, positions: nat, v: seq<int>)
    requires positions < 8192 && |v| == L_SUBFRAME
    requires var place := Places(DecodedPulses(signs, positions));
      && (forall k :: 0 <= k < 4 ==> place[k] < |v| && v[place[k]] == Height((signs / Pow2(k)) % 2 != 0))
      && (forall n :: 0 <= n < |v| && n !in place ==> v[n] == 0)
    ensures v == PulseVector(DecodedPulses(signs, positions))
  {
    Pow2Table();
    var p := DecodedPulses(signs, positions);
    DecodedPulsesOnTracks(signs, positions);
    var place := Places(p);
    assert v[place[0]] == Height(p.s0) && v[place[1]] == Height(p.s1) by { assert Pow2(0) == 1; }
    assert v[place[2]] == Height(p.s2) && v[place[3]] == Height(p.s3);
    forall n | 0 <= n < L_SUBFRAME ensures v[n] == PulseAt(p, n) {}
  }

  // ----- the two sides' sharpened vectors -----

  // A pulse at n whose echo falls inside the subframe.
  predicate EchoesAt(p: Pulses, delay: nat, n: nat) {
    n + delay < L_SUBFRAME && PulseAt(p, n) != 0
  }

  predicate HasEcho(p: Pulses, delay: nat) {
    exists n: nat :: n < L_SUBFRAME && EchoesAt(p, delay, n)
  }

  lemma EchoIsSmall(x: int, beta: nat, rounding: bool)
    requires beta <= 19661 && (x == 0 || x == 8192 || x == -8192)
    ensures -9831 <= Echo(x, beta, rounding) <= 9831
  {}

  lemma PulseHeights(p: Pulses, n: nat)
    ensures PulseAt(p, n) == 0 || PulseAt(p, n) == 8192 || PulseAt(p, n) == -8192
  {}

  // A delay of half a subframe or more leaves room for one echo only.
  lemma SharpenedOnce(p: Pulses, delay: nat, beta: nat, rounding: bool, i: nat)
    requires delay >= 20 && i < L_SUBFRAME && beta <= 19661
    ensures SharpenedAt(PulseVector(p), delay, beta, rounding, i)
         == PulseAt(p, i) + if i < delay then 0 else Echo(PulseAt(p, i - delay), beta, rounding)
  {
    if i >= delay {
      assert SharpenedAt(PulseVector(p), delay, beta, rounding, i - delay) == PulseAt(p, i - delay);
      PulseHeights(p, i);
      PulseHeights(p, i - delay);
      EchoIsSmall(PulseAt(p, i - delay), beta, rounding);
    }
  }

  // Entry i of the encoder's vector, at gain beta, equals that of the decoder's, at gain other.
  predicate SameAt(p: Pulses, delay: nat, beta: nat, other: nat, i: nat)
    requires delay >= 1 && i < L_SUBFRAME
  {
    SharpenedAt(PulseVector(p), delay, beta, false, i) == SharpenedAt(PulseVector(p), delay, other, true, i)
  }

  predicate VectorsAgree(p: Pulses, delay: nat, beta: nat, other: nat)
    requires delay >= 1
  {
    forall i :: 0 <= i < L_SUBFRAME ==> SameAt(p, delay, beta, other, i)
  }

  // The echoes of one pulse agree: half the gain, rounded one way on each side.
  predicate EchoesAgree(positive: bool, beta: nat, other: nat) {
    if positive then beta / 2 == (other + 1) / 2 else (beta + 1) / 2 == other / 2
  }

  lemma EchoesAgreeIff(positive: bool, beta: nat, other: nat)
    ensures Echo(Height(positive), beta, false) == Echo(Height(positive), other, true) <==> EchoesAgree(positive, beta, other)
  {
    var g, h := beta / 2, other / 2;
    if positive {
      assert 8192 * beta == 16384 * g + 8192 * (beta % 2);
      assert 8192 * other == 16384 * h + 8192 * (other % 2);
    } else {
      assert -8192 * beta == -16384 * g - 8192 * (beta % 2);
      assert -8192 * other == -16384 * h - 8192 * (other % 2);
    }
  }

  lemma SameAtIff(p: Pulses, delay: nat, beta: nat, other: nat, i: nat)
    requires delay >= 20 && beta <= 19661 && other <= 19661 && i < L_SUBFRAME
    ensures SameAt(p, delay, beta, other, i)
      <==> i < delay || PulseAt(p, i - delay) == 0 || EchoesAgree(PulseAt(p, i - delay) > 0, beta, other)
  {
    SharpenedOnce(p, delay, beta, false, i);
    SharpenedOnce(p, delay, other, true, i);
    if i >= delay { PulseHeights(p, i - delay); }
    EchoesAgreeIff(true, beta, other);
    EchoesAgreeIff(false, beta, other);
  }

  /** With the same pulses and delay, the encoder truncating at one gain and the decoder rounding at
      another give the same vector exactly when the echoes of every pulse that has one agree. */
  lemma VectorsAgreeIff(p: Pulses, delay: nat, beta: nat, other: nat)
    requires delay >= 20 && beta <= 19661 && other <= 19661
    ensures VectorsAgree(p, delay, beta, other)
      <==> forall n: nat :: EchoesAt(p, delay, n) ==> EchoesAgree(PulseAt(p, n) > 0, beta, other)
  {
    forall i: nat | i < L_SUBFRAME
      ensures SameAt(p, delay, beta, other, i)
        <==> i < delay || PulseAt(p, i - delay) == 0 || EchoesAgree(PulseAt(p, i - delay) > 0, beta, other)
    {
      SameAtIff(p, delay, beta, other, i);
    }
    if VectorsAgree(p, delay, beta, other) {
      forall n: nat | EchoesAt(p, delay, n) ensures EchoesAgree(PulseAt(p, n) > 0, beta, other) {
        assert SameAt(p, delay, beta, other, n + delay);
        assert (n + delay) - delay == n;
      }
    } else {
      var i :| 0 <= i < L_SUBFRAME && !SameAt(p, delay, beta, other, i);
      assert EchoesAt(p, delay, i - delay);
    }
  }

  /** At one gain, or at an encoder gain more than two units above the decoder's: the vectors agree
      exactly when no echo falls inside the subframe or the gain is one and even. */
  lemma SharpeningAgreesIff(p: Pulses, delay: nat, beta: nat, other: nat)
    requires delay >= 20 && beta <= 19661 && other <= 19661 && (beta == other || beta > other + 2)
    ensures VectorsAgree(p, delay, beta, other) <==> !HasEcho(p, delay) || (beta == other && beta % 2 == 0)
  {
    VectorsAgreeIff(p, delay, beta, other);
    if HasEcho(p, delay) {
      var n: nat :| n < L_SUBFRAME && EchoesAt(p, delay, n);
    }
  }

  const MIN_SHARPENING := 3277
  const MAX_SHARPENING_ENCODER := 19661
  const MAX_SHARPENING_DECODER := 13107

  // The quantised pitch gain of a subframe as a side bounds it for sharpening the next one.
  function Bounded(gain: int, max: int): int {
    if gain > max then max else if gain < MIN_SHARPENING then MIN_SHARPENING else gain
  }
}
