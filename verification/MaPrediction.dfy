/** The switched moving-average predictor of the LSF quantiser.  The encoder sums and shifts
    its four-frame history in separate passes; the decoder does both at once, column by
    column, from the oldest row to the newest. */
module MaPrediction {
  import opened FixedPoint
  import opened LsfVector

  const MA_MAX_K := 4

  // h[i] is the history of coefficient i: its last four codeword values, newest first.
  type History = seq<seq<int>>

  predicate IsRow(r: seq<int>) { |r| == NB_LSP_COEFF }

  predicate IsHistory(h: History) {
    |h| == NB_LSP_COEFF && forall i :: 0 <= i < NB_LSP_COEFF ==> |h[i]| == MA_MAX_K
  }

  // The weights one value of L0 selects: past[i] for the history of coefficient i, current[i]
  // for its new codeword value.
  datatype Predictor = Predictor(past: seq<seq<int>>, current: seq<int>)

  predicate IsPredictor(p: Predictor) {
    IsHistory(p.past) && IsRow(p.current)
  }

  // Sum of w[j] * c[j] over lo <= j < hi.
  function Dot(w: seq<int>, c: seq<int>, lo: nat, hi: nat): int
    requires lo <= hi <= |w| == |c|
    decreases hi - lo
  {
    if lo == hi then 0 else Dot(w, c, lo, hi - 1) + w[hi - 1] * c[hi - 1]
  }

  // The exact weighted sum of one coefficient, in Q28.
  function Weighted(w: seq<int>, current: int, c: seq<int>, code: int): int
    requires |w| == |c| == MA_MAX_K
  {
    current * code + Dot(w, c, 0, MA_MAX_K)
  }

  // From Q28 on 32 bits back to Q13 on 16 bits.
  function Rounded28(acc: int): int {
    Wrap16(Pshr(acc, 15))
  }

  function PredictedAt(p: Predictor, h: History, code: seq<int>, i: nat): int
    requires IsPredictor(p) && IsHistory(h) && IsRow(code) && i < NB_LSP_COEFF
  {
    Rounded28(Wrap32(Weighted(p.past[i], p.current[i], h[i], code[i])))
  }

  function Predicted(p: Predictor, h: History, code: seq<int>): (r: seq<int>)
    requires IsPredictor(p) && IsHistory(h) && IsRow(code)
    ensures IsRow(r)
  {
    seq(NB_LSP_COEFF, i requires 0 <= i < NB_LSP_COEFF => PredictedAt(p, h, code, i))
  }

  // The new value enters in front, the oldest one leaves.
  function Pushed(c: seq<int>, code: int): (r: seq<int>)
    requires |c| == MA_MAX_K
    ensures |r| == MA_MAX_K
  {
    [code] + c[..MA_MAX_K - 1]
  }

  function Shifted(h: History, code: seq<int>): (r: History)
    requires IsHistory(h) && IsRow(code)
    ensures IsHistory(r)
  {
    seq(NB_LSP_COEFF, i requires 0 <= i < NB_LSP_COEFF => Pushed(h[i], code[i]))
  }

  function Codeword(raw: seq<int>): (r: seq<int>)
    ensures |r| == |raw|
  {
    Rearranged(Rearranged(raw, GAP1), GAP2)
  }

  // The quantised, stabilised LSF vector of a frame.
  function QuantisedLsf(p: Predictor, h: History, raw: seq<int>): (r: seq<int>)
    requires IsPredictor(p) && IsHistory(h) && IsRow(raw)
    ensures IsRow(r)
  {
    Stable(Predicted(p, h, Codeword(raw)))
  }

  predicate IsHistoryBuffer(a: array2<int>) {
    a.Length0 == MA_MAX_K && a.Length1 == NB_LSP_COEFF
  }

  ghost function Column(a: array2<int>, i: nat): (c: seq<int>)
    requires IsHistoryBuffer(a) && i < NB_LSP_COEFF
    reads a
  {
    [a[0, i], a[1, i], a[2, i], a[3, i]]
  }

  ghost function Columns(a: array2<int>): (h: History)
    requires IsHistoryBuffer(a)
    reads a
    ensures IsHistory(h)
  {
    seq(NB_LSP_COEFF, i requires 0 <= i < NB_LSP_COEFF && IsHistoryBuffer(a) reads a => Column(a, i))
  }

  lemma {:induction false} DotFromBelow(w: seq<int>, c: seq<int>, lo: nat, hi: nat)
    requires lo < hi <= |w| == |c|
    ensures Dot(w, c, lo, hi) == w[lo] * c[lo] + Dot(w, c, lo + 1, hi)
    decreases hi
  {
    if lo + 1 < hi { DotFromBelow(w, c, lo, hi - 1); }
  }

  // One coefficient of the encoder's prediction, newest value first.
  method PredictColumn(p: Predictor, code: array<int>, history: array2<int>, i: nat) returns (value: int)
    requires IsPredictor(p) && code.Length == NB_LSP_COEFF && IsHistoryBuffer(history) && i < NB_LSP_COEFF
    ensures value == PredictedAt(p, Columns(history), code[..], i)
  {
    ghost var w, c := p.past[i], Column(history, i);
    var acc := Wrap32(p.current[i] * code[i]);
    var j := 0;
    while j < MA_MAX_K
      invariant 0 <= j <= MA_MAX_K
      invariant acc == Wrap32(p.current[i] * code[i] + Dot(w, c, 0, j))
    {
      Wrap32Add(p.current[i] * code[i] + Dot(w, c, 0, j), w[j] * c[j]);
      acc := Wrap32(acc + p.past[i][j] * history[j, i]);
      j := j + 1;
    }
    value := Rounded28(acc);
  }

  /** Encoder side: predict every coefficient, then shift the history by whole rows. */
  method PredictThenShift(p: Predictor, code: array<int>, history: array2<int>, qLsf: array<int>)
    requires IsPredictor(p) && code.Length == qLsf.Length == NB_LSP_COEFF && code != qLsf
    requires IsHistoryBuffer(history)
    modifies history, qLsf
    ensures qLsf[..] == Predicted(p, old(Columns(history)), code[..])
    ensures Columns(history) == Shifted(old(Columns(history)), code[..])
  {
    var i := 0;
    while i < NB_LSP_COEFF
      invariant 0 <= i <= NB_LSP_COEFF
      invariant qLsf[..i] == Predicted(p, old(Columns(history)), code[..])[..i]
      modifies qLsf
    {
      qLsf[i] := PredictColumn(p, code, history, i);
      i := i + 1;
    }
    ShiftRows(history, code);
  }

  method ShiftRows(history: array2<int>, code: array<int>)
    requires code.Length == NB_LSP_COEFF && IsHistoryBuffer(history)
    modifies history
    ensures Columns(history) == Shifted(old(Columns(history)), code[..])
  {
    ghost var h := Columns(history);
    assert forall i :: 0 <= i < NB_LSP_COEFF ==> Column(history, i) == h[i];
    var j := MA_MAX_K - 1;
    while j > 0
      invariant 0 <= j < MA_MAX_K
      invariant forall l, i :: 0 <= l <= j && 0 <= i < NB_LSP_COEFF ==> history[l, i] == old(history[l, i])
      invariant forall l, i :: j < l < MA_MAX_K && 0 <= i < NB_LSP_COEFF ==> history[l, i] == old(history[l - 1, i])
    {
      forall i | 0 <= i < NB_LSP_COEFF { history[j, i] := history[j - 1, i]; }
      j := j - 1;
    }
    forall i | 0 <= i < NB_LSP_COEFF { history[0, i] := code[i]; }
    forall i | 0 <= i < NB_LSP_COEFF ensures Column(history, i) == Pushed(h[i], code[i]) {
      assert h[i] == old(Column(history, i));
    }
    assert Columns(history) == Shifted(h, code[..]);
  }

  /** Decoder side: one coefficient at a time, each history cell is used and then overwritten
      by the cell above it. */
  method FusedColumn(w: seq<int>, current: int, code: int, history: array2<int>, i: nat) returns (acc: int)
    requires |w| == MA_MAX_K && IsHistoryBuffer(history) && i < NB_LSP_COEFF
    modifies history
    ensures acc == Wrap32(Weighted(w, current, old(Column(history, i)), code))
    ensures Column(history, i) == Pushed(old(Column(history, i)), code)
    ensures forall k :: 0 <= k < NB_LSP_COEFF && k != i ==> Column(history, k) == old(Column(history, k))
  {
    ghost var c := Column(history, i);
    acc := Wrap32(current * code);
    var j := MA_MAX_K - 1;
    while j >= 0
      invariant -1 <= j < MA_MAX_K
      invariant acc == Wrap32(current * code + Dot(w, c, j + 1, MA_MAX_K))
      invariant forall l :: 0 <= l <= j ==> history[l, i] == c[l]
      invariant forall l :: j < l < MA_MAX_K ==> history[l, i] == Pushed(c, code)[l]
      invariant forall k :: 0 <= k < NB_LSP_COEFF && k != i ==> Column(history, k) == old(Column(history, k))
    {
      DotFromBelow(w, c, j, MA_MAX_K);
      Wrap32Add(current * code + Dot(w, c, j + 1, MA_MAX_K), w[j] * c[j]);
      acc := Wrap32(acc + w[j] * history[j, i]);
      history[j, i] := if j > 0 then history[j - 1, i] else code;
      j := j - 1;
    }
  }

  // One column shifted down, the new value on top.
  method ShiftColumn(history: array2<int>, i: nat, value: int)
    requires IsHistoryBuffer(history) && i < NB_LSP_COEFF
    modifies history
    ensures Column(history, i) == Pushed(old(Column(history, i)), value)
    ensures forall k :: 0 <= k < NB_LSP_COEFF && k != i ==> Column(history, k) == old(Column(history, k))
  {
    ghost var c := Column(history, i);
    var j := MA_MAX_K - 1;
    while j >= 0
      invariant -1 <= j < MA_MAX_K
      invariant forall l :: 0 <= l <= j ==> history[l, i] == c[l]
      invariant forall l :: j < l < MA_MAX_K ==> history[l, i] == Pushed(c, value)[l]
      invariant forall k :: 0 <= k < NB_LSP_COEFF && k != i ==> Column(history, k) == old(Column(history, k))
    {
      history[j, i] := if j > 0 then history[j - 1, i] else value;
      j := j - 1;
    }
  }

  method PredictAndShiftFused(p: Predictor, code: array<int>, history: array2<int>)
    requires IsPredictor(p) && code.Length == NB_LSP_COEFF && IsHistoryBuffer(history)
    modifies history, code
    ensures code[..] == Predicted(p, old(Columns(history)), old(code[..]))
    ensures Columns(history) == Shifted(old(Columns(history)), old(code[..]))
  {
    ghost var h, c := Columns(history), code[..];
    var i := 0;
    while i < NB_LSP_COEFF
      invariant 0 <= i <= NB_LSP_COEFF
      invariant forall k :: 0 <= k < i ==> code[k] == PredictedAt(p, h, c, k)
      invariant forall k :: i <= k < NB_LSP_COEFF ==> code[k] == c[k]
      invariant forall k :: 0 <= k < i ==> Column(history, k) == Pushed(h[k], c[k])
      invariant forall k :: i <= k < NB_LSP_COEFF ==> Column(history, k) == h[k]
    {
      var acc := FusedColumn(p.past[i], p.current[i], code[i], history, i);
      code[i] := Rounded28(acc);
      i := i + 1;
    }
    assert code[..] == Predicted(p, h, c);
    assert Columns(history) == Shifted(h, c);
  }

  /** The reconstruction half of both encoder quantisers: rearrange, predict, shift, stabilise. */
  method Reconstruct(p: Predictor, quantizerOutput: array<int>, previousqLsf: array2<int>, qLsf: array<int>)
    requires IsPredictor(p) && quantizerOutput.Length == qLsf.Length == NB_LSP_COEFF && quantizerOutput != qLsf
    requires IsHistoryBuffer(previousqLsf)
    modifies quantizerOutput, previousqLsf, qLsf
    ensures qLsf[..] == QuantisedLsf(p, old(Columns(previousqLsf)), old(quantizerOutput[..]))
    ensures Columns(previousqLsf) == Shifted(old(Columns(previousqLsf)), Codeword(old(quantizerOutput[..])))
  {
    RearrangeCoefficients(quantizerOutput, GAP1);
    RearrangeCoefficients(quantizerOutput, GAP2);
    PredictThenShift(p, quantizerOutput, previousqLsf, qLsf);
    Stabilise(qLsf);
  }

  /** The decoder's version, everything in place in `codebookqLsf`: same vector, same history. */
  method ComputeqLsf(p: Predictor, codebookqLsf: array<int>, previousLCodeWord: array2<int>)
    requires IsPredictor(p) && codebookqLsf.Length == NB_LSP_COEFF
    requires IsHistoryBuffer(previousLCodeWord)
    modifies codebookqLsf, previousLCodeWord
    ensures codebookqLsf[..] == QuantisedLsf(p, old(Columns(previousLCodeWord)), old(codebookqLsf[..]))
    ensures Columns(previousLCodeWord) == Shifted(old(Columns(previousLCodeWord)), Codeword(old(codebookqLsf[..])))
  {
    RearrangeCoefficients(codebookqLsf, GAP1);
    RearrangeCoefficients(codebookqLsf, GAP2);
    PredictAndShiftFused(p, codebookqLsf, previousLCodeWord);
    Stabilise(codebookqLsf);
  }
}
