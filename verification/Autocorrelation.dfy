/** Autocorrelation of the windowed signal with common normalisation: the energy decides the
    shift, the word size of the other sums, and bounds every one of them. */
module Autocorrelation {
  import opened FixedPoint

  const L_LP_ANALYSIS_WINDOW := 240

  predicate IsSignal(w: seq<int>) {
    |w| <= L_LP_ANALYSIS_WINDOW && forall j :: 0 <= j < |w| ==> Is16(w[j])
  }

  // Sum of w[j] * w[j-k] over k <= j < m.
  function Correlation(w: seq<int>, k: nat, m: nat): int
    requires m <= |w|
  {
    if m <= k then 0 else Correlation(w, k, m - 1) + w[m - 1] * w[m - 1 - k]
  }

  function Energy(w: seq<int>, m: nat): int
    requires m <= |w|
  {
    Correlation(w, 0, m)
  }

  lemma Square(x: int)
    ensures x * x >= 0
  {}

  lemma TwiceProduct(x: int, y: int)
    ensures 2 * (x * y) <= x * x + y * y && -2 * (x * y) <= x * x + y * y
  {
    Square(x - y);
    Square(x + y);
    assert (x - y) * (x - y) == x * x - 2 * (x * y) + y * y;
    assert (x + y) * (x + y) == x * x + 2 * (x * y) + y * y;
  }

  lemma {:induction false} EnergyGrows(w: seq<int>, l: nat, m: nat)
    requires l <= m <= |w|
    ensures 0 <= Energy(w, l) <= Energy(w, m)
  {
    if m > 0 {
      Square(w[m - 1]);
      if l < m { EnergyGrows(w, l, m - 1); } else { EnergyGrows(w, l - 1, m - 1); }
    }
  }

  lemma {:induction false} CorrelationStep(w: seq<int>, k: nat, m: nat)
    requires k <= m <= |w|
    ensures 2 * Correlation(w, k, m) <= Energy(w, m) - Energy(w, k) + Energy(w, m - k)
    ensures -2 * Correlation(w, k, m) <= Energy(w, m) - Energy(w, k) + Energy(w, m - k)
  {
    if k < m {
      CorrelationStep(w, k, m - 1);
      TwiceProduct(w[m - 1], w[m - 1 - k]);
      assert Energy(w, m) == Energy(w, m - 1) + w[m - 1] * w[m - 1];
      assert Energy(w, m - k) == Energy(w, m - 1 - k) + w[m - 1 - k] * w[m - 1 - k];
    }
  }

  /** Every partial sum of every correlation is bounded by the energy of the whole signal. */
  lemma CorrelationBound(w: seq<int>, k: nat, m: nat)
    requires m <= |w|
    ensures -Energy(w, |w|) <= Correlation(w, k, m) <= Energy(w, |w|)
  {
    EnergyGrows(w, m, |w|);
    if k < m {
      CorrelationStep(w, k, m);
      EnergyGrows(w, 0, k);
      EnergyGrows(w, m - k, m);
    }
  }

  lemma {:induction false} EnergyLimit(w: seq<int>, m: nat)
    requires IsSignal(w) && m <= |w|
    ensures 0 <= Energy(w, m) <= 0x40000000 * m
  {
    if m > 0 {
      EnergyLimit(w, m - 1);
      var x := w[m - 1];
      MulBound(x, x, 0x8000, 0x8000);
      Square(x);
    }
  }

  // x times 2^s, rounded down when s is negative.
  function Scaled(x: int, s: int): int {
    if s >= 0 then x * Pow2(s) else x / Pow2(-s)
  }

  // The energy as the normalisation sees it: never zero.
  function Floored(e: int): int { if e == 0 then 1 else e }

  // The normalising shift of a positive energy, to the right when it needs more than 31 bits.
  predicate Normalises(e: int, s: int) {
    0x40000000 <= Scaled(e, s) <= MAXINT32
  }

  method NormaliseEnergy(energy: int) returns (r0: int, scale: int)
    requires 0 < energy
    ensures r0 == Scaled(energy, scale) && Normalises(energy, scale)
    ensures scale < 0 <==> energy > MAXINT32
  {
    if energy > MAXINT32 {
      var acc, right := energy, 0;
      assert Pow2(0) == 1;
      while acc > MAXINT32
        invariant right >= 0 && acc == energy / Pow2(right) && acc >= 0x40000000
        invariant right == 0 ==> acc > MAXINT32
        decreases acc
      {
        DivDiv(energy, Pow2(right), 2);
        acc := acc / 2;
        right := right + 1;
      }
      r0, scale := acc, -right;
    } else {
      scale := CountLeadingZeros(energy);
      LeadingZerosNormalises(energy);
      Wrap32Id(energy * Pow2(scale));
      r0 := Wrap32(energy * Pow2(scale));
    }
  }

  /** A sum that the energy bounds, normalised with the energy's shift, fits 32 bits and is bounded
      by the normalised energy, up to one unit below. */
  lemma NormalisedFits(x: int, e: int, s: int)
    requires 0 < e && -e <= x <= e && Normalises(e, s)
    ensures -Scaled(e, s) - 1 <= Scaled(x, s) <= Scaled(e, s) && Is32(Scaled(x, s))
    ensures s >= 0 ==> -Scaled(e, s) <= Scaled(x, s)
  {
    if s >= 0 {
      MulMono(-e, x, Pow2(s));
      MulMono(x, e, Pow2(s));
      assert (-e) * Pow2(s) == -(e * Pow2(s));
    } else {
      var p := Pow2(-s);
      DivMono(x, e, p);
      DivMono(-e, x, p);
      var q := e / p;
      assert e <= q * p + p - 1;
      assert -e >= (-q - 1) * p by { assert (-q - 1) * p == -(q * p) - p; }
      DivMono((-q - 1) * p, -e, p);
      DivUnique((-q - 1) * p, p, -q - 1);
    }
  }

  // One correlation on 64 bits.
  method Correlate64(w: seq<int>, k: nat) returns (acc: int)
    requires IsSignal(w)
    ensures acc == Correlation(w, k, |w|)
  {
    acc := 0;
    var j := k;
    while j < |w|
      invariant k <= j
      invariant acc == Correlation(w, k, if j <= |w| then j else |w|)
    {
      CorrelationBound(w, k, j + 1);
      EnergyLimit(w, |w|);
      Wrap64Id(Correlation(w, k, j + 1));
      acc := Wrap64(acc + w[j] * w[j - k]);
      j := j + 1;
    }
    if k >= |w| { assert Correlation(w, k, |w|) == 0; }
  }

  // The same on 32 bits, when the energy fits.
  method Correlate32(w: seq<int>, k: nat) returns (acc: int)
    requires IsSignal(w) && k >= 1 && Energy(w, |w|) <= MAXINT32
    ensures acc == Correlation(w, k, |w|)
  {
    acc := 0;
    var j := k;
    while j < |w|
      invariant k <= j
      invariant acc == Correlation(w, k, if j <= |w| then j else |w|)
    {
      CorrelationBound(w, k, j + 1);
      MulBound(w[j], w[j - k], 0x8000, 0x8000);
      Wrap32Id(w[j] * w[j - k]);
      Wrap32Id(Correlation(w, k, j + 1));
      acc := Wrap32(acc + Wrap32(w[j] * w[j - k]));
      j := j + 1;
    }
    if k >= |w| { assert Correlation(w, k, |w|) == 0; }
  }

  /** All the coefficients, whichever branch computes them: each is the exact correlation with one
      common shift, the first one fills 31 bits, and every one fits 32. */
  method ComputeAutocorrelation(w: seq<int>, r: array<int>) returns (scale: int)
    requires IsSignal(w) && r.Length >= 1
    modifies r
    ensures Normalises(Floored(Energy(w, |w|)), scale) && r[0] == Scaled(Floored(Energy(w, |w|)), scale)
    ensures forall i :: 1 <= i < r.Length ==> r[i] == Scaled(Correlation(w, i, |w|), scale)
    ensures forall i :: 1 <= i < r.Length ==> -r[0] - 1 <= r[i] <= r[0] && Is32(r[i])
  {
    EnergyLimit(w, |w|);
    var energy := Correlate64(w, 0);
    ghost var e := Floored(energy);
    if energy == 0 { energy := 1; }
    var r0: int;
    r0, scale := NormaliseEnergy(energy);
    r[0] := r0;
    var i := 1;
    while i < r.Length
      invariant 1 <= i <= r.Length
      invariant r[0] == r0
      invariant forall k :: 1 <= k < i ==> r[k] == Scaled(Correlation(w, k, |w|), scale)
      invariant forall k :: 1 <= k < i ==> -r0 - 1 <= r[k] <= r0 && Is32(r[k])
    {
      CorrelationBound(w, i, |w|);
      NormalisedFits(Correlation(w, i, |w|), e, scale);
      r[i] := NormalisedCorrelation(w, i, scale);
      i := i + 1;
    }
  }

  // One coefficient by the branch that the shift selects.
  method NormalisedCorrelation(w: seq<int>, k: nat, scale: int) returns (r: int)
    requires IsSignal(w) && k >= 1
    requires scale < 0 <==> Energy(w, |w|) > MAXINT32
    requires Is32(Scaled(Correlation(w, k, |w|), scale))
    ensures r == Scaled(Correlation(w, k, |w|), scale)
  {
    Wrap32Id(Scaled(Correlation(w, k, |w|), scale));
    if scale < 0 {
      var acc := Correlate64(w, k);
      r := Wrap32(acc / Pow2(-scale));
    } else {
      var acc := Correlate32(w, k);
      r := Wrap32(acc * Pow2(scale));
    }
  }
}
