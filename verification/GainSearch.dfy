/** What the gain search minimises: the squared error between the target and the two filtered vectors
    under a pair's gains.  The scalar products are formed from the vectors, brought to 32 bits together
    and handed to the search. */
module GainSearch {
  import opened Common
  import opened FixedPoint
  import opened Vectors = PitchGain
  import opened GainCodebook

  // ----- the squared error -----

  // The error of sample i in Q14, for a pitch gain in Q14 and a fixed gain in Q2.
  function Miss(x: seq<int>, y: seq<int>, z: seq<int>, gp: int, gc: int, i: nat): int
    requires i < |x| && i < |y| && i < |z|
  {
    0x4000 * x[i] - gp * y[i] - gc * z[i]
  }

  function SquaredError(x: seq<int>, y: seq<int>, z: seq<int>, gp: int, gc: int, n: nat): int
    requires n <= |x| && n <= |y| && n <= |z|
  {
    if n == 0 then 0
    else SquaredError(x, y, z, gp, gc, n - 1) + Miss(x, y, z, gp, gc, n - 1) * Miss(x, y, z, gp, gc, n - 1)
  }

  // The same from scalar products.
  function FromProducts(xx: int, xy: int, yy: int, xz: int, yz: int, zz: int, gp: int, gc: int): int {
    0x10000000 * xx + (gp * gp) * yy + (gc * gc) * zz - 2 * ((0x4000 * gp) * xy) - 2 * ((0x4000 * gc) * xz) + 2 * ((gp * gc) * yz)
  }

  lemma ProductOfProducts(a: int, b: int, x: int, y: int)
    ensures (a * x) * (b * y) == (a * b) * (x * y)
  {
    assert (a * x) * (b * y) == a * (x * (b * y)) == a * (b * (x * y));
  }

  lemma SquareOfThree(a: int, b: int, c: int)
    ensures (a - b - c) * (a - b - c) == a * a + b * b + c * c - 2 * (a * b) - 2 * (a * c) + 2 * (b * c)
  {}

  lemma MissSquared(x: int, y: int, z: int, gp: int, gc: int)
    ensures var e := 0x4000 * x - gp * y - gc * z; e * e == FromProducts(x * x, x * y, y * y, x * z, y * z, z * z, gp, gc)
  {
    SquareOfThree(0x4000 * x, gp * y, gc * z);
    ProductOfProducts(0x4000, 0x4000, x, x);
    ProductOfProducts(gp, gp, y, y);
    ProductOfProducts(gc, gc, z, z);
    ProductOfProducts(0x4000, gp, x, y);
    ProductOfProducts(0x4000, gc, x, z);
    ProductOfProducts(gp, gc, y, z);
  }

  lemma Spread2(w: int, p: int, q: int)
    ensures w * (p + q) == w * p + w * q
  {}

  lemma FromProductsAdds(xx: int, xy: int, yy: int, xz: int, yz: int, zz: int,
                         xx1: int, xy1: int, yy1: int, xz1: int, yz1: int, zz1: int, gp: int, gc: int)
    ensures FromProducts(xx + xx1, xy + xy1, yy + yy1, xz + xz1, yz + yz1, zz + zz1, gp, gc)
      == FromProducts(xx, xy, yy, xz, yz, zz, gp, gc) + FromProducts(xx1, xy1, yy1, xz1, yz1, zz1, gp, gc)
  {
    Spread2(gp * gp, yy, yy1);
    Spread2(gc * gc, zz, zz1);
    Spread2(0x4000 * gp, xy, xy1);
    Spread2(0x4000 * gc, xz, xz1);
    Spread2(gp * gc, yz, yz1);
  }

  /** The squared error is the quadratic form of the scalar products. */
  lemma {:induction false} ErrorIsForm(x: seq<int>, y: seq<int>, z: seq<int>, gp: int, gc: int, n: nat)
    requires n <= |x| && n <= |y| && n <= |z|
    ensures SquaredError(x, y, z, gp, gc, n)
      == FromProducts(Dot(x, x, n), Dot(x, y, n), Dot(y, y, n), Dot(x, z, n), Dot(y, z, n), Dot(z, z, n), gp, gc)
  {
    if n > 0 {
      var m := n - 1;
      ErrorIsForm(x, y, z, gp, gc, m);
      MissSquared(x[m], y[m], z[m], gp, gc);
      FromProductsAdds(Dot(x, x, m), Dot(x, y, m), Dot(y, y, m), Dot(x, z, m), Dot(y, z, m), Dot(z, z, m),
                       x[m] * x[m], x[m] * y[m], y[m] * y[m], x[m] * z[m], y[m] * z[m], z[m] * z[m], gp, gc);
    }
  }

  // ----- the distance does not wrap -----

  const MAX_PITCH := 22215
  const MAX_FIXED := 41438

  lemma GainsBounded(p: Pair, predicted: int)
    requires InTables(p) && Is16(predicted)
    ensures BoundedBy(PitchGain(p.a, p.b), MAX_PITCH) && BoundedBy(FixedGainQ2(p, predicted), MAX_FIXED)
  {
    TableSums(p.a, p.b);
    var c := Correction(p.a, p.b);
    MulBound(c, predicted, 20719, 0x8000);
    ShiftedGain(c * predicted);
  }

  lemma TableSums(a: nat, b: nat)
    requires a < 8 && b < 16
    ensures BoundedBy(GainCodebook.PitchGain(a, b), MAX_PITCH) && BoundedBy(Correction(a, b), 20719)
  {
    FirstStageRange(a);
    SecondStageRange(b);
    var first, second := GA(a), GB(b);
    WordSum(first.0, second.0);
    WordSum(first.1, second.1);
  }

  lemma WordSum(x: int, y: int)
    requires 0 <= x && 0 <= y && x + y <= 0x7fff
    ensures Wrap16(x + y) == x + y
  {}

  lemma FirstStageRange(a: nat)
    requires a < 8
    ensures 0 <= GA(a).0 <= 3242 && 0 <= GA(a).1 <= 13581
  {}

  lemma SecondStageRange(b: nat)
    requires b < 16
    ensures 0 <= GB(b).0 <= 18973 && 0 <= GB(b).1 <= 7138
  {}

  lemma ShiftedGain(x: int)
    requires BoundedBy(x, 20719 * 0x8000)
    ensures BoundedBy(Shr(Wrap32(x), 14), MAX_FIXED)
  {
    Pow2Table();
    Wrap32Id(x);
  }

  predicate AreWords(t: Products) {
    BoundedBy(t.xy, 0x80000000) && BoundedBy(t.yy, 0x80000000) && BoundedBy(t.xz, 0x80000000) && BoundedBy(t.yz, 0x80000000)
    && BoundedBy(t.zz, 0x80000000)
  }

  /** For every pair, every 16 bit prediction and any 32 bit products nothing in the distance wraps. */
  lemma DistanceIsExact(p: Pair, predicted: int, t: Products)
    requires InTables(p) && Is16(predicted) && AreWords(t)
    ensures var gp, gc := GainCodebook.PitchGain(p.a, p.b), FixedGainQ2(p, predicted);
      Distance(p.a, p.b, predicted, t)
        == (gp * gp) * t.yy + (gc * gc) * t.zz + (gp * 16384) * t.xy + (gc * 16384) * t.xz + (gp * gc) * t.yz
  {
    var gp, gc := GainCodebook.PitchGain(p.a, p.b), FixedGainQ2(p, predicted);
    GainsBounded(p, predicted);
    MulBound(gp, gp, MAX_PITCH, MAX_PITCH);
    MulBound(gc, gc, MAX_FIXED, MAX_FIXED);
    MulBound(gp, gc, MAX_PITCH, MAX_FIXED);
    MulBound(gp * gp, t.yy, MAX_PITCH * MAX_PITCH, 0x80000000);
    MulBound(gc * gc, t.zz, MAX_FIXED * MAX_FIXED, 0x80000000);
    MulBound(gp * 16384, t.xy, MAX_PITCH * 16384, 0x80000000);
    MulBound(gc * 16384, t.xz, MAX_FIXED * 16384, 0x80000000);
    MulBound(gp * gc, t.yz, MAX_PITCH * MAX_FIXED, 0x80000000);
    Wrap32Id(gp * gp);
    Wrap32Id(gc * gc);
    Wrap32Id(gp * 16384);
    Wrap32Id(gc * 16384);
    Wrap32Id(gp * gc);
    Wrap64Id((gp * gp) * t.yy + (gc * gc) * t.zz + (gp * 16384) * t.xy + (gc * 16384) * t.xz + (gp * gc) * t.yz);
  }

  // ----- the products on 32 bits -----

  // A product that the distance uses doubled: the magnitude has to fit 30 bits.
  predicate FitsDoubled(v: int, s: nat) { Abs(v) / 0x40000000 / Pow2(s) == 0 }

  predicate FitsOnce(v: int, s: nat) { Abs(v) / 0x80000000 / Pow2(s) == 0 }

  predicate AllFit(xy: int, yy: int, xz: int, yz: int, zz: int, s: nat) {
    FitsDoubled(xy, s) && FitsDoubled(xz, s) && FitsDoubled(yz, s) && FitsOnce(yy, s) && FitsOnce(zz, s)
  }

  // The products as the source hands them to the search: shifted together, doubled and negated on 32 bits.
  function Shifted(xy: int, yy: int, xz: int, yz: int, zz: int, s: nat): Products {
    Products(Wrap32(-Wrap32(2 * Shr(xy, s))), Shr(yy, s), Wrap32(-Wrap32(2 * Shr(xz, s))), Wrap32(2 * Shr(yz, s)), Shr(zz, s))
  }

  // Negating the least doubled word would leave 32 bits.
  predicate Negatable(xy: int, xz: int, s: nat) { Shr(xy, s) > -0x40000000 && Shr(xz, s) > -0x40000000 }

  lemma FitsMeans(v: int, s: nat, unit: int)
    requires unit > 0 && Abs(v) / unit / Pow2(s) == 0
    ensures -unit <= Shr(v, s) < unit
  {
    var p := Pow2(s);
    DivDiv(Abs(v), unit, p);
    assert Abs(v) < unit * p by {
      var q := Abs(v) / (unit * p);
      assert Abs(v) < (q + 1) * (unit * p);
    }
    assert unit * p == p * unit && (-unit) * p == -(unit * p);
    QuotientInRange(v, p, -unit, unit - 1);
  }

  /** Shifted far enough, the products are 32 bit words; the two that are negated are exact if and only if
      neither is the least word. */
  lemma ShiftedAre(xy: int, yy: int, xz: int, yz: int, zz: int, s: nat)
    requires AllFit(xy, yy, xz, yz, zz, s)
    ensures var t := Shifted(xy, yy, xz, yz, zz, s);
      && AreWords(t) && t.yz == 2 * Shr(yz, s)
      && (t.xy == -2 * Shr(xy, s) && t.xz == -2 * Shr(xz, s) <==> Negatable(xy, xz, s))
  {
    FitsMeans(xy, s, 0x40000000);
    FitsMeans(xz, s, 0x40000000);
    FitsMeans(yz, s, 0x40000000);
    FitsMeans(yy, s, 0x80000000);
    FitsMeans(zz, s, 0x80000000);
    NegatedDouble(Shr(xy, s));
    NegatedDouble(Shr(xz, s));
    NegatedDouble(Shr(yz, s));
  }

  lemma NegatedDouble(v: int)
    requires -0x40000000 <= v < 0x40000000
    ensures Wrap32(2 * v) == 2 * v && BoundedBy(Wrap32(-Wrap32(2 * v)), 0x80000000)
    ensures Wrap32(-Wrap32(2 * v)) == -2 * v <==> v > -0x40000000
  {}

  // ----- how close the distance is to the squared error -----

  // What one unit lost in every product can make of the form.
  function Weight(gp: int, gc: int): nat { (Abs(gp) + Abs(gc) + 0x4000) * (Abs(gp) + Abs(gc) + 0x4000) }

  lemma Remainder(v: int, p: nat)
    requires p > 0
    ensures v == p * (v / p) + v % p && 0 <= v % p <= p - 1
  {}

  lemma Rotate(a: int, p: int, q: int)
    ensures a * (p * q) == p * (a * q)
  {}

  // The form is additive and homogeneous in the products.
  lemma FormScales(p: int, xy: int, yy: int, xz: int, yz: int, zz: int, gp: int, gc: int)
    ensures FromProducts(0, p * xy, p * yy, p * xz, p * yz, p * zz, gp, gc)
      == p * ((gp * gp) * yy + (gc * gc) * zz - 2 * ((0x4000 * gp) * xy) - 2 * ((0x4000 * gc) * xz) + 2 * ((gp * gc) * yz))
  {
    Rotate(gp * gp, p, yy);
    Rotate(gc * gc, p, zz);
    Rotate(0x4000 * gp, p, xy);
    Rotate(0x4000 * gc, p, xz);
    Rotate(gp * gc, p, yz);
    var a, b, c, d, e := (gp * gp) * yy, (gc * gc) * zz, (0x4000 * gp) * xy, (0x4000 * gc) * xz, (gp * gc) * yz;
    FiveApart(p, a, b, c, d, e);
  }

  lemma FiveApart(p: int, a: int, b: int, c: int, d: int, e: int)
    ensures p * (a + b - 2 * c - 2 * d + 2 * e) == p * a + p * b - 2 * (p * c) - 2 * (p * d) + 2 * (p * e)
  {}

  lemma WeightIs(gp: int, gc: int)
    ensures Weight(gp, gc) == Abs(gp) * Abs(gp) + Abs(gc) * Abs(gc) + 0x10000000
      + 2 * (Abs(gp) * Abs(gc)) + 0x8000 * Abs(gp) + 0x8000 * Abs(gc)
  {
    var a, b := Abs(gp), Abs(gc);
    assert (a + b + 0x4000) * (a + b + 0x4000) == a * a + b * b + 0x10000000 + 2 * (a * b) + 0x8000 * a + 0x8000 * b;
  }

  lemma RestIsSmall(xy: int, yy: int, xz: int, yz: int, zz: int, gp: int, gc: int, m: nat)
    requires 0 <= xy <= m && 0 <= yy <= m && 0 <= xz <= m && 0 <= yz <= m && 0 <= zz <= m
    ensures BoundedBy(FromProducts(0, xy, yy, xz, yz, zz, gp, gc), Weight(gp, gc) * m)
  {
    var a, b := Abs(gp), Abs(gc);
    MulBound(gp, gp, a, a);
    MulBound(gc, gc, b, b);
    MulBound(gp, gc, a, b);
    MulBound(gp * gp, yy, a * a, m);
    MulBound(gc * gc, zz, b * b, m);
    MulBound(0x4000 * gp, xy, 0x4000 * a, m);
    MulBound(0x4000 * gc, xz, 0x4000 * b, m);
    MulBound(gp * gc, yz, a * b, m);
    WeightIs(gp, gc);
    SixApart(a * a, b * b, a * b, a, b, m);
  }

  lemma SixApart(aa: nat, bb: nat, ab: nat, a: nat, b: nat, m: nat)
    ensures (aa + bb + 0x10000000 + 2 * ab + 0x8000 * a + 0x8000 * b) * m
      >= aa * m + bb * m + 2 * (ab * m) + 2 * ((0x4000 * a) * m) + 2 * ((0x4000 * b) * m)
  {
    var w := aa + bb + 0x10000000 + 2 * ab + 0x8000 * a + 0x8000 * b;
    var v := aa + bb + 2 * ab + 0x8000 * a + 0x8000 * b;
    MulMono(v, w, m);
    assert v * m == aa * m + bb * m + 2 * (ab * m) + (0x8000 * a) * m + (0x8000 * b) * m;
    assert (0x8000 * a) * m == 2 * ((0x4000 * a) * m) && (0x8000 * b) * m == 2 * ((0x4000 * b) * m);
  }

  // The scalar product of two whole vectors.
  function Scalar(x: seq<int>, y: seq<int>): int
    requires IsVector(x) && IsVector(y)
  {
    Dot(x, y, |x|)
  }

  predicate AreVectors(x: seq<int>, y: seq<int>, z: seq<int>) { IsVector(x) && IsVector(y) && IsVector(z) }

  function ErrorOf(x: seq<int>, y: seq<int>, z: seq<int>, p: Pair, predicted: int): int
    requires AreVectors(x, y, z) && InTables(p)
  {
    SquaredError(x, y, z, GainCodebook.PitchGain(p.a, p.b), FixedGainQ2(p, predicted), |x|)
  }

  function Times(m: nat, n: nat): nat { m * n }

  function SlackOf(p: Pair, predicted: int, s: nat): nat
    requires InTables(p)
  {
    Times(Weight(GainCodebook.PitchGain(p.a, p.b), FixedGainQ2(p, predicted)), Pow2(s) - 1)
  }

  function ProductsOf(x: seq<int>, y: seq<int>, z: seq<int>, s: nat): Products
    requires AreVectors(x, y, z)
  {
    Shifted(Scalar(x, y), Scalar(y, y), Scalar(x, z), Scalar(y, z), Scalar(z, z), s)
  }

  predicate DotsFit(x: seq<int>, y: seq<int>, z: seq<int>, s: nat)
    requires AreVectors(x, y, z)
  {
    AllFit(Scalar(x, y), Scalar(y, y), Scalar(x, z), Scalar(y, z), Scalar(z, z), s)
  }

  predicate DotsNegatable(x: seq<int>, y: seq<int>, z: seq<int>, s: nat)
    requires AreVectors(x, y, z)
  {
    Negatable(Scalar(x, y), Scalar(x, z), s)
  }

  // The form of the whole products, split into the part that the shifted ones keep and the rest.
  lemma FormSplits(xx: int, xy: int, yy: int, xz: int, yz: int, zz: int, gp: int, gc: int, p: nat)
    requires p > 0
    ensures FromProducts(xx, xy, yy, xz, yz, zz, gp, gc) - 0x10000000 * xx
      == p * ((gp * gp) * (yy / p) + (gc * gc) * (zz / p) - 2 * ((0x4000 * gp) * (xy / p)) - 2 * ((0x4000 * gc) * (xz / p)) + 2 * ((gp * gc) * (yz / p)))
         + FromProducts(0, xy % p, yy % p, xz % p, yz % p, zz % p, gp, gc)
  {
    Remainder(xy, p);
    Remainder(yy, p);
    Remainder(xz, p);
    Remainder(yz, p);
    Remainder(zz, p);
    FromProductsAdds(0, p * (xy / p), p * (yy / p), p * (xz / p), p * (yz / p), p * (zz / p),
                     0, xy % p, yy % p, xz % p, yz % p, zz % p, gp, gc);
    FormScales(p, xy / p, yy / p, xz / p, yz / p, zz / p, gp, gc);
  }

  lemma SignsOfDistance(gp: int, gc: int, qxy: int, qxz: int, qyz: int)
    ensures (gp * 16384) * (-2 * qxy) == -2 * ((0x4000 * gp) * qxy)
    ensures (gc * 16384) * (-2 * qxz) == -2 * ((0x4000 * gc) * qxz)
    ensures (gp * gc) * (2 * qyz) == 2 * ((gp * gc) * qyz)
  {}

  lemma FormNear(xx: int, xy: int, yy: int, xz: int, yz: int, zz: int, pair: Pair, predicted: int, s: nat)
    requires InTables(pair) && Is16(predicted) && AllFit(xy, yy, xz, yz, zz, s) && Negatable(xy, xz, s)
    ensures var gp, gc := GainCodebook.PitchGain(pair.a, pair.b), FixedGainQ2(pair, predicted);
      var d := Distance(pair.a, pair.b, predicted, Shifted(xy, yy, xz, yz, zz, s));
      IsNear(FromProducts(xx, xy, yy, xz, yz, zz, gp, gc), 0x10000000 * xx, Pow2(s), d, SlackOf(pair, predicted, s))
  {
    var gp, gc := GainCodebook.PitchGain(pair.a, pair.b), FixedGainQ2(pair, predicted);
    var p := Pow2(s);
    ShiftedAre(xy, yy, xz, yz, zz, s);
    DistanceIsExact(pair, predicted, Shifted(xy, yy, xz, yz, zz, s));
    SignsOfDistance(gp, gc, xy / p, xz / p, yz / p);
    FormSplits(xx, xy, yy, xz, yz, zz, gp, gc, p);
    RestIsSmall(xy % p, yy % p, xz % p, yz % p, zz % p, gp, gc, p - 1);
  }

  // An error is the energy of the target and the scaled distance, up to a slack.
  predicate IsNear(e: int, energy: int, p: nat, d: int, slack: nat) { BoundedBy(e - (energy + p * d), slack) }

  lemma NearKeepsOrder(e1: int, e2: int, energy: int, p: nat, d1: int, d2: int, slack1: nat, slack2: nat)
    requires IsNear(e1, energy, p, d1, slack1) && IsNear(e2, energy, p, d2, slack2) && d1 <= d2
    ensures e1 <= e2 + slack1 + slack2
  {
    MulMono(d1, d2, p);
  }

  /** The distance of a pair is its squared error, without the energy of the target, up to the stated
      slack of the bits shifted out; without a shift that slack is zero. */
  lemma DistanceIsError(x: seq<int>, y: seq<int>, z: seq<int>, p: Pair, predicted: int, s: nat)
    requires AreVectors(x, y, z) && InTables(p) && Is16(predicted) && DotsFit(x, y, z, s) && DotsNegatable(x, y, z, s)
    ensures IsNear(ErrorOf(x, y, z, p, predicted), 0x10000000 * Scalar(x, x), Pow2(s),
                   Distance(p.a, p.b, predicted, ProductsOf(x, y, z, s)), SlackOf(p, predicted, s))
  {
    ErrorIsForm(x, y, z, GainCodebook.PitchGain(p.a, p.b), FixedGainQ2(p, predicted), |x|);
    FormNear(Scalar(x, x), Scalar(x, y), Scalar(y, y), Scalar(x, z), Scalar(y, z), Scalar(z, z), p, predicted, s);
  }

  // Without a shift nothing is lost.
  lemma NoShiftNoSlack(p: Pair, predicted: int, s: nat)
    requires InTables(p) && s == 0
    ensures SlackOf(p, predicted, s) == 0
  {
    TimesZero(Weight(GainCodebook.PitchGain(p.a, p.b), FixedGainQ2(p, predicted)));
    assert Pow2(0) == 1;
  }

  lemma TimesZero(m: nat)
    ensures Times(m, 0) == 0
  {}

  // ----- the search -----

  lemma DistanceInRange(p: Pair, predicted: int, t: Products)
    requires InTables(p) && Is16(predicted) && AreWords(t)
    ensures Distance(p.a, p.b, predicted, t) < MAXINT64
  {
    var gp, gc := GainCodebook.PitchGain(p.a, p.b), FixedGainQ2(p, predicted);
    DistanceIsExact(p, predicted, t);
    GainsBounded(p, predicted);
    MulBound(gp, gp, MAX_PITCH, MAX_PITCH);
    MulBound(gc, gc, MAX_FIXED, MAX_FIXED);
    MulBound(gp, gc, MAX_PITCH, MAX_FIXED);
    MulBound(gp * gp, t.yy, MAX_PITCH * MAX_PITCH, 0x80000000);
    MulBound(gc * gc, t.zz, MAX_FIXED * MAX_FIXED, 0x80000000);
    MulBound(gp * 16384, t.xy, MAX_PITCH * 16384, 0x80000000);
    MulBound(gc * 16384, t.xz, MAX_FIXED * 16384, 0x80000000);
    MulBound(gp * gc, t.yz, MAX_PITCH * MAX_FIXED, 0x80000000);
  }

  lemma DotsBounded(x: seq<int>, y: seq<int>, n: nat)
    requires IsVector(x) && IsVector(y) && n <= L_SUBFRAME
    ensures BoundedBy(Dot(x, y, n), 0xa00000000)
  {
    DotFits(x, y, n);
  }

  // The leading zeros of v fall short of 31 by just the bits that v has.
  lemma BitsOf(v: nat)
    requires v < 0x80000000
    ensures LeadingZeros(v) <= 31 && v / Pow2(31 - LeadingZeros(v)) == 0
    ensures LeadingZeros(v) < 31 ==> v / Pow2(30 - LeadingZeros(v)) > 0
  {
    if v > 0 {
      LeadingZerosNormalises(v);
      var l := LeadingZeros(v);
      Pow2Table();
      Pow2Add(15, 15);
      Pow2Add(30 - l, l);
      assert Pow2(31 - l) == 2 * Pow2(30 - l);
      BitsBetween(v, Pow2(30 - l), Pow2(l));
    }
  }

  lemma BitsBetween(v: nat, low: nat, p: nat)
    requires p > 0 && low > 0 && low * p == 0x40000000 && 0x40000000 <= v * p < 0x80000000
    ensures v / low > 0 && v / (2 * low) == 0
  {
    assert (2 * low) * p == 2 * (low * p);
    MulCancel(v, 2 * low, p);
    if v < low { MulMono(v + 1, low, p); }
    QuotientInRange(v, low, 1, 1);
  }

  lemma ShiftsLess(v: nat, i: nat, j: nat)
    requires i <= j && v / Pow2(i) == 0
    ensures v / Pow2(j) == 0
  {
    Pow2Mono(i, j);
    QuotientIsZero(v, Pow2(i), Pow2(j));
  }

  lemma QuotientIsZero(v: nat, p: nat, q: nat)
    requires 0 < p <= q && v / p == 0
    ensures v / q == 0
  {
    assert v < (v / p + 1) * p;
    QuotientInRange(v, q, 0, 0);
  }

  // The smallest of the leading zeros of five words.
  method LeastZeros(v: seq<nat>) returns (least: nat)
    requires |v| == 5 && forall i :: 0 <= i < 5 ==> v[i] < 0x80000000
    ensures least <= 31 && (forall i :: 0 <= i < 5 ==> v[i] / Pow2(31 - least) == 0)
    ensures least < 31 ==> exists i :: 0 <= i < 5 && v[i] / Pow2(30 - least) > 0
  {
    least := 31;
    assert Pow2(0) == 1;
    var i := 0;
    ghost var at := 0;
    while i < 5
      invariant 0 <= i <= 5 && least <= 31
      invariant forall k :: 0 <= k < i ==> v[k] / Pow2(31 - least) == 0
      invariant least < 31 ==> 0 <= at < 5 && v[at] / Pow2(30 - least) > 0
    {
      var zeros := CountLeadingZeros(v[i]);
      BitsOf(v[i]);
      if zeros < least {
        forall k | 0 <= k < i ensures v[k] / Pow2(31 - zeros) == 0 { ShiftsLess(v[k], 31 - least, 31 - zeros); }
        least, at := zeros, i;
      } else {
        ShiftsLess(v[i], 31 - zeros, 31 - least);
      }
      i := i + 1;
    }
  }

  // One scalar product on 64 bits.
  method Accumulate64(x: seq<int>, y: seq<int>) returns (acc: int)
    requires IsVector(x) && IsVector(y)
    ensures acc == Scalar(x, y)
  {
    acc := 0;
    var i := 0;
    while i < |x|
      invariant 0 <= i <= |x| && acc == Dot(x, y, i)
    {
      DotsBounded(x, y, i + 1);
      Wrap64Id(acc + x[i] * y[i]);
      acc := Wrap64(acc + x[i] * y[i]);
      i := i + 1;
    }
  }

  // The least common shift that makes words of the five products.
  method CommonShift(xy: int, yy: int, xz: int, yz: int, zz: int) returns (s: nat)
    requires BoundedBy(xy, 0x1000000000) && BoundedBy(yy, 0x1000000000) && BoundedBy(xz, 0x1000000000)
    requires BoundedBy(yz, 0x1000000000) && BoundedBy(zz, 0x1000000000)
    ensures s <= 31 && AllFit(xy, yy, xz, yz, zz, s) && (s > 0 ==> !AllFit(xy, yy, xz, yz, zz, s - 1))
  {
    var v := [Abs(xy) / 0x40000000, Abs(xz) / 0x40000000, Abs(yz) / 0x40000000, Abs(yy) / 0x80000000, Abs(zz) / 0x80000000];
    var least := LeastZeros(v);
    s := 31 - least;
    assert FitsDoubled(xy, s) <==> v[0] / Pow2(s) == 0;
    assert FitsDoubled(xz, s) <==> v[1] / Pow2(s) == 0;
    assert FitsDoubled(yz, s) <==> v[2] / Pow2(s) == 0;
    assert FitsOnce(yy, s) <==> v[3] / Pow2(s) == 0;
    assert FitsOnce(zz, s) <==> v[4] / Pow2(s) == 0;
    if s > 0 {
      var i :| 0 <= i < 5 && v[i] / Pow2(s - 1) > 0;
      assert i == 0 || i == 1 || i == 2 || i == 3 || i == 4;
    }
  }

  /** The products of the search from the vectors; two of them are known before. */
  method FormProducts(x: seq<int>, y: seq<int>, z: seq<int>, xy64: int, yy64: int) returns (t: Products, s: nat)
    requires AreVectors(x, y, z) && xy64 == Scalar(x, y) && yy64 == Scalar(y, y)
    ensures t == ProductsOf(x, y, z, s) && DotsFit(x, y, z, s) && (s > 0 ==> !DotsFit(x, y, z, s - 1))
  {
    var xz64 := Accumulate64(x, z);
    var yz64 := Accumulate64(y, z);
    var zz64 := Accumulate64(z, z);
    DotsBounded(x, y, |x|);
    DotsBounded(y, y, |x|);
    DotsBounded(x, z, |x|);
    DotsBounded(y, z, |x|);
    DotsBounded(z, z, |x|);
    s := CommonShift(xy64, yy64, xz64, yz64, zz64);
    t := Products(Wrap32(-Wrap32(2 * Shr(xy64, s))), Shr(yy64, s), Wrap32(-Wrap32(2 * Shr(xz64, s))), Wrap32(2 * Shr(yz64, s)), Shr(zz64, s));
  }

  // No pair of the window has a smaller squared error, up to what the shift lost of both.
  ghost predicate LeastError(best: Pair, baseA: nat, baseB: nat, x: seq<int>, y: seq<int>, z: seq<int>, predicted: int, s: nat)
    requires AreVectors(x, y, z) && baseA + 4 <= 8 && baseB + 8 <= 16
  {
    InWindow(best, baseA, baseB)
    && forall p :: InWindow(p, baseA, baseB) ==>
      && ErrorOf(x, y, z, best, predicted) <= ErrorOf(x, y, z, p, predicted) + SlackOf(best, predicted, s) + SlackOf(p, predicted, s)
      && (s == 0 ==> ErrorOf(x, y, z, best, predicted) <= ErrorOf(x, y, z, p, predicted))
  }

  lemma LeastDistanceIsLeastError(best: Pair, p: Pair, x: seq<int>, y: seq<int>, z: seq<int>, predicted: int, s: nat)
    requires AreVectors(x, y, z) && InTables(best) && InTables(p) && Is16(predicted) && DotsFit(x, y, z, s) && DotsNegatable(x, y, z, s)
    requires var t := ProductsOf(x, y, z, s); Distance(best.a, best.b, predicted, t) <= Distance(p.a, p.b, predicted, t)
    ensures ErrorOf(x, y, z, best, predicted) <= ErrorOf(x, y, z, p, predicted) + SlackOf(best, predicted, s) + SlackOf(p, predicted, s)
    ensures s == 0 ==> ErrorOf(x, y, z, best, predicted) <= ErrorOf(x, y, z, p, predicted)
  {
    var t := ProductsOf(x, y, z, s);
    DistanceIsError(x, y, z, best, predicted, s);
    DistanceIsError(x, y, z, p, predicted, s);
    NearKeepsOrder(ErrorOf(x, y, z, best, predicted), ErrorOf(x, y, z, p, predicted), 0x10000000 * Scalar(x, x), Pow2(s),
                   Distance(best.a, best.b, predicted, t), Distance(p.a, p.b, predicted, t),
                   SlackOf(best, predicted, s), SlackOf(p, predicted, s));
    if s == 0 {
      NoShiftNoSlack(best, predicted, s);
      NoShiftNoSlack(p, predicted, s);
    }
  }

  /** The quantised gains of a subframe from its vectors: unless a product is the least word, the pair sent
      has the least squared error of a window inside both stages, exactly when no product needs a
      shift and within the slack of the shift otherwise. */
  method QuantiseGains(log2: int -> int, x: seq<int>, y: seq<int>, z: seq<int>, xy64: int, yy64: int,
                       bestPitch: int, bestFixed: int, predicted: int, history: array<int>)
    returns (stage1: nat, stage2: nat, pitchGain: int, fixedGain: int, chosen: Pair, baseA: nat, baseB: nat, s: nat)
    requires AreVectors(x, y, z) && xy64 == Scalar(x, y) && yy64 == Scalar(y, y)
    requires Is16(predicted) && history.Length == GAIN_HISTORY
    modifies history
    ensures baseA + 4 <= 8 && baseB + 8 <= 16 && InWindow(chosen, baseA, baseB)
    ensures DotsFit(x, y, z, s) && (s > 0 ==> !DotsFit(x, y, z, s - 1))
    ensures DotsNegatable(x, y, z, s) ==> LeastError(chosen, baseA, baseB, x, y, z, predicted, s)
    ensures stage1 == MapGA(chosen.a) && stage2 == MapGB(chosen.b)
    ensures pitchGain == GainCodebook.PitchGain(chosen.a, chosen.b) && fixedGain == Wrap16(FixedGainQ2(chosen, predicted) / 2)
    ensures history[..] == GainPushed(old(history[..]), GainError(log2, Correction(chosen.a, chosen.b)))
  {
    var t;
    t, s := FormProducts(x, y, z, xy64, yy64);
    ShiftedAre(Scalar(x, y), Scalar(y, y), Scalar(x, z), Scalar(y, z), Scalar(z, z), s);
    var found;
    stage1, stage2, pitchGain, fixedGain, chosen, found, baseA, baseB := GainQuantization(log2, bestPitch, bestFixed, predicted, t, history);
    DistanceInRange(Pair(baseA, baseB), predicted, t);
    assert InWindow(Pair(baseA, baseB), baseA, baseB);
    assert found;
    if DotsNegatable(x, y, z, s) {
      forall p | InWindow(p, baseA, baseB)
        ensures ErrorOf(x, y, z, chosen, predicted) <= ErrorOf(x, y, z, p, predicted) + SlackOf(chosen, predicted, s) + SlackOf(p, predicted, s)
        ensures s == 0 ==> ErrorOf(x, y, z, chosen, predicted) <= ErrorOf(x, y, z, p, predicted)
      {
        LeastDistanceIsLeastError(chosen, p, x, y, z, predicted, s);
      }
    }
  }

  // ----- a product that cannot be negated -----

  // Three samples and silence.
  function Peak(a: int, b: int, c: int): (v: seq<int>)
    requires Is16(a) && Is16(b) && Is16(c)
    ensures IsVector(v)
  {
    seq(L_SUBFRAME, i requires 0 <= i < L_SUBFRAME => if i == 0 then a else if i == 1 then b else if i == 2 then c else 0)
  }

  lemma {:induction false} DotOfPeaks(x: seq<int>, y: seq<int>, n: nat)
    requires IsVector(x) && IsVector(y) && 3 <= n <= |x| && forall i :: 3 <= i < |x| ==> x[i] == 0
    ensures Dot(x, y, n) == x[0] * y[0] + x[1] * y[1] + x[2] * y[2]
  {
    if n == 3 {
      assert Dot(x, y, 1) == x[0] * y[0];
      assert Dot(x, y, 2) == x[0] * y[0] + x[1] * y[1];
    } else {
      DotOfPeaks(x, y, n - 1);
    }
  }

  /** The least word is really met: for this target and adaptive vector the product shifted by one is
      -2^30, its double is -2^31 and negating that leaves the word as it is. */
  lemma ProductCannotBeNegated(x: seq<int>, y: seq<int>, z: seq<int>, s: nat)
    requires x == Peak(-0x8000, -0x8000, -21845) && y == Peak(0x7fff, 0x7fff, 3) && z == Peak(0, 0, 0)
    requires AreVectors(x, y, z) && DotsFit(x, y, z, s) && (s > 0 ==> !DotsFit(x, y, z, s - 1))
    ensures s == 1 && !DotsNegatable(x, y, z, s) && ProductsOf(x, y, z, s).xy == -0x80000000
  {
    DotOfPeaks(x, y, |x|);
    DotOfPeaks(y, y, |y|);
    DotOfPeaks(z, z, |z|);
    DotOfPeaks(z, x, |z|);
    DotOfPeaks(z, y, |z|);
    DotCommutes(x, z, |x|);
    DotCommutes(y, z, |y|);
    assert Scalar(x, y) == -0x7fffffff && Scalar(y, y) == 2147352587 && Scalar(x, z) == Scalar(y, z) == Scalar(z, z) == 0;
    OneShift(s);
  }

  lemma {:induction false} DotCommutes(x: seq<int>, y: seq<int>, n: nat)
    requires n <= |x| && n <= |y|
    ensures Dot(x, y, n) == Dot(y, x, n)
  {
    if n > 0 {
      DotCommutes(x, y, n - 1);
      assert x[n - 1] * y[n - 1] == y[n - 1] * x[n - 1];
    }
  }

  lemma OneShift(s: nat)
    requires AllFit(-0x7fffffff, 2147352587, 0, 0, 0, s) && (s > 0 ==> !AllFit(-0x7fffffff, 2147352587, 0, 0, 0, s - 1))
    ensures s == 1 && Shr(-0x7fffffff, s) == -0x40000000 && Shifted(-0x7fffffff, 2147352587, 0, 0, 0, s).xy == -0x80000000
  {
    assert Pow2(0) == 1 && Pow2(1) == 2;
    assert AllFit(-0x7fffffff, 2147352587, 0, 0, 0, 1);
    if s > 1 {
      FitsStill(-0x7fffffff, 2147352587, 1, s - 1);
      assert false;
    }
  }

  lemma FitsStill(v: int, w: int, i: nat, j: nat)
    requires i <= j && AllFit(v, w, 0, 0, 0, i)
    ensures AllFit(v, w, 0, 0, 0, j)
  {
    ShiftsLess(Abs(v) / 0x40000000, i, j);
    ShiftsLess(Abs(w) / 0x80000000, i, j);
    ShiftsLess(0, i, j);
  }
}
