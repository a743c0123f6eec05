/** Reflection coefficients to LP coefficients.  The Levinson recursion and the rebuild from a
    comfort-noise payload run the same step-up in place, with the same final rounding. */
module StepUp {
  import opened FixedPoint

  const ORDER := 10
  const ONE_IN_Q27 := 0x8000000
  const ONE_IN_Q31 := 0x7fffffff
  const TWO_31 := 0x80000000

  // 32 x 32 bit product shifted down by 31 or 23 bits.
  function Q31(a: int, b: int): int { Wrap32((a * b) / TWO_31) }

  function Q23(a: int, b: int): int { Wrap32((a * b) / 0x800000) }

  // One order more: every coefficient but the first takes in its mirror image.
  function Raised(a: seq<int>, k: int): (r: seq<int>)
    requires |a| >= 1
    ensures |r| == |a| + 1
  {
    seq(|a| + 1, j requires 0 <= j <= |a| =>
      if j == 0 then a[0] else if j < |a| then Wrap32(a[j] + Q31(k, a[|a| - j])) else k / 16)
  }

  // The coefficients in Q27 after first order coefficient `first` (Q27) and further reflections (Q31).
  function Steps(first: int, reflections: seq<int>): (a: seq<int>)
    ensures |a| == |reflections| + 2
  {
    if reflections == [] then [ONE_IN_Q27, first]
    else Raised(Steps(first, reflections[..|reflections| - 1]), reflections[|reflections| - 1])
  }

  // Q27 to Q12, rounded and saturated.
  function Rounded12(x: int): int { Saturate(Pshr(x, 15), MAXINT16) }

  function LpOf(a: seq<int>): (lp: seq<int>)
    requires |a| == ORDER + 1
    ensures |lp| == ORDER
  {
    seq(ORDER, i requires 0 <= i < ORDER => Rounded12(a[i + 1]))
  }

  /** What both sides compute: LP coefficients (Q12) from ten reflection coefficients in Q31. */
  function FromReflections(k: seq<int>): (lp: seq<int>)
    requires |k| == ORDER
    ensures |lp| == ORDER
  {
    LpOf(Steps(k[0] / 16, k[1..]))
  }

  // The in-place step of order i: the old coefficients are copied first.
  method RaiseInPlace(LPCoefficients: array<int>, i: nat, k: int)
    requires 1 <= i < LPCoefficients.Length
    modifies LPCoefficients
    ensures LPCoefficients[..i + 1] == Raised(old(LPCoefficients[..i]), k)
  {
    ghost var a := LPCoefficients[..i];
    var previous := new int[i];
    forall j | 0 <= j < i { previous[j] := LPCoefficients[j]; }
    LPCoefficients[i] := k;
    assert previous[..] == a && LPCoefficients[..i] == a;
    MixIn(LPCoefficients, previous[..], k);
    LPCoefficients[i] := LPCoefficients[i] / 16;
    RaisedIs(a, k, LPCoefficients[..i + 1]);
  }

  lemma RaisedIs(a: seq<int>, k: int, r: seq<int>)
    requires |a| >= 1 && |r| == |a| + 1 && r[0] == a[0] && r[|a|] == k / 16
    requires forall l :: 1 <= l < |a| ==> r[l] == Wrap32(a[l] + Q31(k, a[|a| - l]))
    ensures r == Raised(a, k)
  {}

  method MixIn(LPCoefficients: array<int>, previous: seq<int>, k: int)
    requires 1 <= |previous| < LPCoefficients.Length
    requires LPCoefficients[|previous|] == k && LPCoefficients[..|previous|] == previous
    modifies LPCoefficients
    ensures LPCoefficients[0] == previous[0] && LPCoefficients[|previous|] == k
    ensures forall l :: 1 <= l < |previous| ==> LPCoefficients[l] == Wrap32(previous[l] + Q31(k, previous[|previous| - l]))
  {
    var i := |previous|;
    var j := 1;
    while j < i
      invariant 1 <= j <= i
      invariant LPCoefficients[i] == k && LPCoefficients[0] == previous[0]
      invariant forall l :: 1 <= l < j ==> LPCoefficients[l] == Wrap32(previous[l] + Q31(k, previous[i - l]))
      invariant forall l :: j <= l < i ==> LPCoefficients[l] == previous[l]
    {
      MixOne(LPCoefficients, j, k, previous[i - j]);
      j := j + 1;
    }
  }

  method MixOne(LPCoefficients: array<int>, j: nat, k: int, mirror: int)
    requires j < LPCoefficients.Length
    modifies LPCoefficients
    ensures LPCoefficients[j] == Wrap32(old(LPCoefficients[j]) + Q31(k, mirror))
    ensures forall l :: 0 <= l < LPCoefficients.Length && l != j ==> LPCoefficients[l] == old(LPCoefficients[l])
  {
    LPCoefficients[j] := Wrap32(LPCoefficients[j] + Q31(k, mirror));
  }

  method RoundAll(a: array<int>) returns (lp: array<int>)
    requires a.Length == ORDER + 1
    ensures fresh(lp) && lp.Length == ORDER && lp[..] == LpOf(a[..])
  {
    lp := new int[ORDER];
    var i := 0;
    while i < ORDER
      invariant 0 <= i <= ORDER
      invariant forall l :: 0 <= l < i ==> lp[l] == Rounded12(a[l + 1])
    {
      lp[i] := Rounded12(a[i + 1]);
      i := i + 1;
    }
  }

  // ----- Levinson recursion -----

  // r[i] plus the sum of a[j] * r[i-j], in Q31.
  function Partial(a: seq<int>, r: seq<int>, i: nat, j: nat): int
    requires i < |r| && 1 <= j <= i <= |a|
  {
    if j == 1 then 0 else Wrap32(Partial(a, r, i, j - 1) + Q31(a[j - 1], r[i - (j - 1)]))
  }

  method PredictionSum(a: array<int>, r: seq<int>, i: nat) returns (sum: int)
    requires 2 <= i < |r| && i <= a.Length
    ensures sum == Wrap32(Wrap32(Partial(a[..], r, i, i) * 16) + r[i])
  {
    sum := 0;
    var j := 1;
    while j < i
      invariant 1 <= j <= i
      invariant sum == Partial(a[..], r, i, j)
    {
      sum := Wrap32(sum + Q31(a[j], r[i - j]));
      j := j + 1;
    }
    sum := Wrap32(Wrap32(sum * 16) + r[i]);
  }

  // Truncating division of either sign, as C divides.
  function DivSigned(a: int, b: int): int
    requires b != 0
  {
    if b > 0 then Div(a, b) else -Div(a, -b)
  }

  // The recursion on r: after each order its coefficients, its reflections and the residual energy.
  datatype Stage = Stage(a: seq<int>, k: seq<int>, residual: int)

  function FirstCoefficient(r: seq<int>): int
    requires |r| == ORDER + 1 && r[0] > 0
  {
    Wrap32(-Div(r[1] * ONE_IN_Q27, r[0]))
  }

  function FirstStage(r: seq<int>): (s: Stage)
    requires |r| == ORDER + 1 && r[0] > 0
    ensures |s.a| == 2 && |s.k| == 1
  {
    var first := FirstCoefficient(r);
    Stage([ONE_IN_Q27, first], [Wrap32(first * 16)], Q31(r[0], Wrap32(ONE_IN_Q31 - Q23(first, first))))
  }

  // The reflection of the next order, by which the source divides the energy; zero where it cannot.
  function NextReflection(s: Stage, r: seq<int>): int
    requires 2 <= |s.a| < |r|
  {
    var sum := Wrap32(Wrap32(Partial(s.a, r, |s.a|, |s.a|) * 16) + r[|s.a|]);
    if s.residual == 0 then 0 else Wrap32(-DivSigned(sum * TWO_31, s.residual))
  }

  function NextStage(s: Stage, r: seq<int>): (t: Stage)
    requires 2 <= |s.a| < |r|
    ensures |t.a| == |s.a| + 1 && |t.k| == |s.k| + 1
  {
    var k := NextReflection(s, r);
    Stage(Raised(s.a, k), s.k + [k], Q31(s.residual, Wrap32(ONE_IN_Q31 - Q31(k, k))))
  }

  function StageOf(r: seq<int>, i: nat): (s: Stage)
    requires |r| == ORDER + 1 && r[0] > 0 && 1 <= i <= ORDER
    ensures |s.a| == i + 1 && |s.k| == i
  {
    if i == 1 then FirstStage(r) else NextStage(StageOf(r, i - 1), r)
  }

  // No energy that the recursion divides by is zero.
  predicate Divides(r: seq<int>, upTo: nat)
    requires |r| == ORDER + 1 && r[0] > 0 && upTo <= ORDER
  {
    forall i :: 1 <= i < upTo ==> StageOf(r, i).residual != 0
  }

  // After all orders.
  function LastStage(r: seq<int>): (s: Stage)
    requires |r| == ORDER + 1 && r[0] > 0
    ensures |s.a| == ORDER + 1 && |s.k| == ORDER
  {
    StageOf(r, |r| - 1)
  }

  lemma StepsExtend(first: int, ks: seq<int>, k: int)
    ensures Steps(first, ks + [k]) == Raised(Steps(first, ks), k)
  {
    assert (ks + [k])[..|ks|] == ks;
  }

  // A stage whose coefficients are the step-up of its reflections.
  predicate IsStepUp(s: Stage, first: int) {
    |s.k| >= 1 && s.a == Steps(first, s.k[1..]) && s.k[0] == Wrap32(first * 16)
  }

  lemma NextIsStepUp(s: Stage, r: seq<int>, first: int)
    requires 2 <= |s.a| < |r| && IsStepUp(s, first)
    ensures IsStepUp(NextStage(s, r), first)
  {
    var k := NextReflection(s, r);
    StepsExtend(first, s.k[1..], k);
    assert (s.k + [k])[1..] == s.k[1..] + [k];
  }

  lemma {:induction false} StageIsStepUp(r: seq<int>, i: nat)
    requires |r| == ORDER + 1 && r[0] > 0 && 1 <= i <= ORDER
    ensures IsStepUp(StageOf(r, i), FirstCoefficient(r))
  {
    if i > 1 {
      StageIsStepUp(r, i - 1);
      NextIsStepUp(StageOf(r, i - 1), r, FirstCoefficient(r));
      StageAfter(r, i);
    } else {
      assert FirstStage(r).k[1..] == [];
    }
  }

  /** The coefficients of the recursion depend on its reflections only. */
  lemma StageIsSteps(r: seq<int>, i: nat)
    requires |r| == ORDER + 1 && r[0] > 0 && 1 <= i <= ORDER
    ensures var s := StageOf(r, i);
      s.a == Steps(FirstCoefficient(r), s.k[1..]) && s.k[0] == Wrap32(FirstCoefficient(r) * 16)
  {
    StageIsStepUp(r, i);
  }

  /** The recursion in place: it ends with a result if and only if no energy it divides by is zero;
      then the LP coefficients, all ten reflections and the last residual energy are those of the
      recursion on r. */
  method Levinson(r: seq<int>) returns (found: bool, lp: array<int>, k: array<int>, residualEnergy: int)
    requires |r| == ORDER + 1 && r[0] > 0
    ensures k.Length == ORDER && fresh(k) && fresh(lp) && lp.Length == ORDER
    ensures found <==> Divides(r, |r| - 1)
    ensures found ==> k[..] == LastStage(r).k && residualEnergy == LastStage(r).residual && lp[..] == LpOf(LastStage(r).a)
  {
    k := new int[ORDER];
    lp := new int[ORDER];
    var a := new int[ORDER + 1];
    found, residualEnergy := AllOrders(a, k, r);
    if found { lp := RoundAll(a); }
  }

  // Order after order, up to the first energy of zero.
  method AllOrders(a: array<int>, k: array<int>, r: seq<int>) returns (found: bool, residual: int)
    requires |r| == ORDER + 1 && r[0] > 0 && a.Length == ORDER + 1 && k.Length == ORDER && a != k
    modifies a, k
    ensures found <==> Divides(r, |r| - 1)
    ensures found ==> Holds(a, k, residual, LastStage(r))
  {
    residual := FirstOrder(a, k, r);
    ghost var stage := FirstStage(r);
    var i := 2;
    while i < |r|
      invariant 2 <= i <= |r| && |stage.a| == i && |stage.k| == i - 1
      invariant stage == StageOf(r, i - 1) && Holds(a, k, residual, stage) && Divides(r, i - 1)
    {
      if residual == 0 {
        DividesNotPast(r, i - 1);
        return false, residual;
      }
      StageAfter(r, i);
      residual := NextOrder(a, k, r, i, stage, residual);
      stage := NextStage(stage, r);
      i := i + 1;
    }
    found := true;
  }

  lemma DividesNotPast(r: seq<int>, i: nat)
    requires |r| == ORDER + 1 && r[0] > 0 && 1 <= i < ORDER && StageOf(r, i).residual == 0
    ensures !Divides(r, |r| - 1)
  {}

  lemma StageAfter(r: seq<int>, i: nat)
    requires |r| == ORDER + 1 && r[0] > 0 && 2 <= i <= ORDER
    ensures StageOf(r, i) == NextStage(StageOf(r, i - 1), r)
    ensures StageOf(r, i - 1).residual != 0 && Divides(r, i - 1) ==> Divides(r, i)
  {}

  // The buffers hold a stage of the recursion.
  ghost predicate Holds(a: array<int>, k: array<int>, residual: int, s: Stage)
    reads a, k
  {
    |s.a| <= a.Length && |s.k| <= k.Length && a[..|s.a|] == s.a && k[..|s.k|] == s.k && residual == s.residual
  }

  method FirstOrder(a: array<int>, k: array<int>, r: seq<int>) returns (residual: int)
    requires |r| == ORDER + 1 && r[0] > 0 && a.Length == ORDER + 1 && k.Length == ORDER && a != k
    modifies a, k
    ensures Holds(a, k, residual, FirstStage(r))
  {
    var first := Wrap32(-Div(r[1] * ONE_IN_Q27, r[0]));
    a[0], a[1] := ONE_IN_Q27, first;
    k[0] := Wrap32(first * 16);
    residual := Q31(r[0], Wrap32(ONE_IN_Q31 - Q23(first, first)));
  }

  // The reflection of the next order.
  method Reflect(a: array<int>, r: seq<int>, i: nat, ghost s: Stage, residual: int) returns (reflection: int)
    requires 2 <= i == |s.a| < |r| == a.Length == ORDER + 1
    requires a[..i] == s.a && residual == s.residual != 0
    ensures reflection == NextReflection(s, r)
  {
    var sum := PredictionSum(a, r, i);
    PartialPrefix(a[..], i, r, i, i);
    assert a[..][..i] == s.a;
    reflection := Wrap32(-DivSigned(sum * TWO_31, residual));
  }

  // One order of the recursion.
  method NextOrder(a: array<int>, k: array<int>, r: seq<int>, i: nat, ghost s: Stage, residual: int) returns (next: int)
    requires 2 <= i == |s.a| < |r| == a.Length == ORDER + 1 && k.Length == ORDER && |s.k| == i - 1 && a != k
    requires Holds(a, k, residual, s) && residual != 0
    modifies a, k
    ensures Holds(a, k, next, NextStage(s, r))
  {
    var reflection := Reflect(a, r, i, s, residual);
    k[i - 1] := reflection;
    RaiseInPlace(a, i, reflection);
    next := Q31(residual, Wrap32(ONE_IN_Q31 - Q31(reflection, reflection)));
    AppendLast(k[..i], s.k, reflection);
    HeldNext(a[..i + 1], k[..i], next, s, r, reflection);
  }

  lemma AppendLast(k: seq<int>, before: seq<int>, last: int)
    requires |k| == |before| + 1 && k[..|before|] == before && k[|before|] == last
    ensures k == before + [last]
  {}

  // The parts of the next stage, put together.
  lemma HeldNext(a: seq<int>, k: seq<int>, next: int, s: Stage, r: seq<int>, reflection: int)
    requires 2 <= |s.a| < |r| && reflection == NextReflection(s, r) && a == Raised(s.a, reflection) && k == s.k + [reflection]
    requires next == Q31(s.residual, Wrap32(ONE_IN_Q31 - Q31(reflection, reflection)))
    ensures NextStage(s, r) == Stage(a, k, next)
  {}

  // Only the coefficients below order i enter its sum.
  lemma {:induction false} PartialPrefix(a: seq<int>, to: nat, r: seq<int>, i: nat, j: nat)
    requires i < |r| && 1 <= j <= i <= to <= |a|
    ensures Partial(a, r, i, j) == Partial(a[..to], r, i, j)
  {
    if j > 1 { PartialPrefix(a, to, r, i, j - 1); }
  }

  /** The first shift into Q31 loses nothing when r(1) lies strictly above -r(0) and at most at r(0). */
  lemma FirstReflectionExact(r: seq<int>)
    requires |r| == ORDER + 1 && 0 < r[0] < TWO_31 && -r[0] < r[1] <= r[0]
    ensures FirstCoefficient(r) == -Div(r[1] * ONE_IN_Q27, r[0]) && Wrap32(FirstCoefficient(r) * 16) / 16 == FirstCoefficient(r)
  {
    FirstQuotient(r[0], r[1]);
    FirstShiftExact(-Div(r[1] * ONE_IN_Q27, r[0]));
  }

  lemma FirstQuotient(r0: int, r1: int)
    requires 0 < r0 && -r0 < r1 <= r0
    ensures -ONE_IN_Q27 < Div(r1 * ONE_IN_Q27, r0) <= ONE_IN_Q27
  {
    var x := r1 * ONE_IN_Q27;
    if r1 < 0 {
      assert -x == (-r1) * ONE_IN_Q27;
      MulMono(-r1, r0 - 1, ONE_IN_Q27);
      assert (r0 - 1) * ONE_IN_Q27 == ONE_IN_Q27 * r0 - ONE_IN_Q27;
      QuotientInRange(-x, r0, 0, ONE_IN_Q27 - 1);
    } else {
      MulMono(r1, r0, ONE_IN_Q27);
      QuotientInRange(x, r0, 0, ONE_IN_Q27);
    }
  }

  lemma FirstShiftExact(c: int)
    requires -ONE_IN_Q27 <= c < ONE_IN_Q27
    ensures Wrap32(c) == c && Wrap32(c * 16) / 16 == c
  {}

  /** So for such coefficients the LP coefficients are the same function of the ten reflections that
      the decoder's rebuild computes. */
  lemma LevinsonIsFromReflections(r: seq<int>)
    requires |r| == ORDER + 1 && 0 < r[0] < TWO_31 && -r[0] < r[1] <= r[0]
    ensures LpOf(LastStage(r).a) == FromReflections(LastStage(r).k)
  {
    StageIsSteps(r, |r| - 1);
    FirstReflectionExact(r);
  }

  // ----- rebuild from a comfort-noise payload -----

  // A payload byte as a reflection coefficient in Q15.
  function PayloadReflection(b: int): int { Wrap16((b + 127) * 258) }

  // The same in Q31, with the sign of the recursion; bytes that are not sent count as zero.
  function PayloadQ31(bytes: seq<int>, i: nat): int {
    if i < |bytes| then Wrap32(-(PayloadReflection(bytes[i]) * 0x10000)) else 0
  }

  function PayloadReflections(bytes: seq<int>): (k: seq<int>)
    ensures |k| == ORDER
  {
    seq(ORDER, i requires 0 <= i < ORDER => PayloadQ31(bytes, i))
  }

  lemma PayloadNotLowest(b: int)
    requires 0 <= b < 256
    ensures Is16(PayloadReflection(b)) && PayloadReflection(b) != -0x8000
  {}

  lemma FirstShift(k: int)
    requires Is16(k) && k != -0x8000
    ensures Wrap32(-(k * 0x10000)) / 16 == -(k * 0x1000)
  {}

  // The payload's bytes in Q15, the missing ones zero.
  method ReadPayload(bytes: seq<int>) returns (k: array<int>)
    ensures fresh(k) && k.Length == ORDER
    ensures forall i :: 0 <= i < ORDER ==> k[i] == if i < |bytes| then PayloadReflection(bytes[i]) else 0
  {
    var order := if |bytes| > ORDER then ORDER else |bytes|;
    k := new int[ORDER];
    var i := 0;
    while i < order
      invariant 0 <= i <= order
      invariant forall l :: 0 <= l < i ==> k[l] == PayloadReflection(bytes[l])
    {
      k[i] := Wrap16((bytes[i] + 127) * 258);
      i := i + 1;
    }
    while i < ORDER
      invariant order <= i <= ORDER
      invariant forall l :: 0 <= l < i ==> k[l] == if l < |bytes| then PayloadReflection(bytes[l]) else 0
    {
      k[i] := 0;
      i := i + 1;
    }
  }

  /** The decoder's rebuild is the same function of the reflection coefficients as the encoder's
      recursion; coefficients beyond the tenth are ignored, missing ones are zero. */
  method RebuildFromPayload(bytes: seq<int>) returns (lp: array<int>)
    requires forall i :: 0 <= i < |bytes| ==> 0 <= bytes[i] < 256
    ensures fresh(lp) && lp.Length == ORDER && lp[..] == FromReflections(PayloadReflections(bytes))
  {
    var k := ReadPayload(bytes);
    if bytes != [] { PayloadNotLowest(bytes[0]); }
    FirstShift(k[0]);
    lp := RebuildFrom(k[..], PayloadReflections(bytes));
  }

  method RebuildFrom(k: seq<int>, ghost want: seq<int>) returns (lp: array<int>)
    requires |k| == |want| == ORDER && forall i :: 0 <= i < ORDER ==> want[i] == Wrap32(-(k[i] * 0x10000))
    requires want[0] / 16 == -(k[0] * 0x1000)
    ensures fresh(lp) && lp.Length == ORDER && lp[..] == FromReflections(want)
  {
    var a := new int[ORDER + 1];
    a[0] := ONE_IN_Q27;
    a[1] := -(k[0] * 0x1000);
    var i := 2;
    assert want[1..1] == [];
    while i < ORDER + 1
      invariant 2 <= i <= ORDER + 1
      invariant a[..i] == Steps(want[0] / 16, want[1..i - 1])
    {
      assert want[1..i][..i - 2] == want[1..i - 1];
      RaiseInPlace(a, i, Wrap32(-(k[i - 1] * 0x10000)));
      i := i + 1;
    }
    assert a[..] == a[..i] && want[1..] == want[1..i - 1];
    lp := RoundAll(a);
  }

  // ----- payload quantisation -----

  // The byte the encoder writes for a reflection coefficient in Q31.
  function PayloadByte(reflection: int): int {
    Wrap16(Wrap16(Shr(Mult16x32(127, Wrap32(-reflection), 15), 16)) + 127) % 0x100
  }

  lemma PayloadQuotient(v: int)
    requires Is32(v)
    ensures Shr(Mult16x32(127, v, 15), 16) == (127 * v) / TWO_31
    ensures -127 <= (127 * v) / TWO_31 <= 126
  {
    Pow2Table();
    SplitMultiplyIsFloor(127, v, 15);
    DivDiv(127 * v, 0x8000, 0x10000);
    QuotientInRange(127 * v, TWO_31, -127, 126);
    QuotientInRange(127 * v, 0x8000, -0x7f0000, 0x7f0000);
  }

  lemma PayloadByteOf(q: int)
    requires -127 <= q <= 126
    ensures Wrap16(Wrap16(q) + 127) % 0x100 == q + 127
  {}

  // How far 258 * q - 4 is from v / 2^16 when q is the quotient.
  lemma PayloadError(v: int, q: int)
    requires q * TWO_31 <= 127 * v < (q + 1) * TWO_31 && -127 <= q <= 126
    ensures -264 * 0x10000 <= (258 * q - 4) * 0x10000 - v <= 264 * 0x10000
    ensures q == -127 <==> 127 * v < -126 * TWO_31
  {}

  /** A reflection coefficient sent as a payload byte comes back within 264 units of 2^-15, unless
      the byte is zero: then it comes back with the opposite sign.  The byte is zero exactly when
      the coefficient, negated, is below -126/127. */
  lemma PayloadRoundTrip(reflection: int)
    requires Is32(reflection)
    ensures var v, b := Wrap32(-reflection), PayloadByte(reflection);
      && 0 <= b <= 253
      && (b == 0 <==> 127 * v < -126 * TWO_31)
      && (b != 0 ==> -264 * 0x10000 <= PayloadReflection(b) * 0x10000 - v <= 264 * 0x10000)
      && (b == 0 ==> PayloadReflection(b) == 0x7ffe && v < 0)
  {
    var v := Wrap32(-reflection);
    var q := (127 * v) / TWO_31;
    PayloadQuotient(v);
    PayloadByteOf(q);
    PayloadError(v, q);
    PayloadReflectionIff(q + 127);
  }

  /** The multiplication by 258 leaves 16 bits for most bytes; the wrapped value is still four below
      258 times the centred byte, except for the two extreme bytes, whose sign flips. */
  lemma PayloadReflectionIff(b: int)
    requires 0 <= b < 256
    ensures PayloadReflection(b) == 258 * (b - 127) - 4 <==> 1 <= b <= 254
    ensures b == 0 ==> PayloadReflection(b) == 0x7ffe
    ensures b == 255 ==> PayloadReflection(b) < 0
  {}
}
