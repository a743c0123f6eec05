/** The window of the LP analysis: the shipped table, and what it makes of the signal buffer. */
module LpWindow {
  import opened FixedPoint
  import opened Autocorrelation

  function RowsFrom0(i: nat): (row: seq<int>)
    ensures |row| == 10 && forall k :: 0 <= k < 10 ==> 0 <= row[k] <= 0x7fff
  {
    if i == 0 then [2621, 2623, 2629, 2638, 2651, 2668, 2689, 2713, 2741, 2772]
    else if i == 1 then [2808, 2847, 2890, 2936, 2986, 3040, 3097, 3158, 3223, 3291]
    else if i == 2 then [3363, 3438, 3517, 3599, 3685, 3774, 3867, 3963, 4063, 4166]
    else if i == 3 then [4272, 4382, 4495, 4611, 4731, 4853, 4979, 5108, 5240, 5376]
    else if i == 4 then [5514, 5655, 5800, 5947, 6097, 6250, 6406, 6565, 6726, 6890]
    else if i == 5 then [7057, 7227, 7399, 7573, 7750, 7930, 8112, 8296, 8483, 8672]
    else if i == 6 then [8863, 9057, 9252, 9450, 9650, 9852, 10055, 10261, 10468, 10677]
    else [10888, 11101, 11315, 11531, 11748, 11967, 12187, 12409, 12632, 12856]
  }

  function RowsFrom8(i: nat): (row: seq<int>)
    ensures |row| == 10 && forall k :: 0 <= k < 10 ==> 0 <= row[k] <= 0x7fff
  {
    if i == 0 then [13082, 13308, 13536, 13764, 13994, 14225, 14456, 14688, 14921, 15155]
    else if i == 1 then [15389, 15624, 15859, 16095, 16331, 16568, 16805, 17042, 17279, 17516]
    else if i == 2 then [17754, 17991, 18228, 18465, 18702, 18939, 19175, 19411, 19647, 19882]
    else if i == 3 then [20117, 20350, 20584, 20816, 21048, 21279, 21509, 21738, 21967, 22194]
    else if i == 4 then [22420, 22644, 22868, 23090, 23311, 23531, 23749, 23965, 24181, 24394]
    else if i == 5 then [24606, 24816, 25024, 25231, 25435, 25638, 25839, 26037, 26234, 26428]
    else if i == 6 then [26621, 26811, 26999, 27184, 27368, 27548, 27727, 27903, 28076, 28247]
    else [28415, 28581, 28743, 28903, 29061, 29215, 29367, 29515, 29661, 29804]
  }

  function RowsFrom16(i: nat): (row: seq<int>)
    ensures |row| == 10 && forall k :: 0 <= k < 10 ==> 0 <= row[k] <= 0x7fff
  {
    if i == 0 then [29944, 30081, 30214, 30345, 30472, 30597, 30718, 30836, 30950, 31062]
    else if i == 1 then [31170, 31274, 31376, 31474, 31568, 31659, 31747, 31831, 31911, 31988]
    else if i == 2 then [32062, 32132, 32198, 32261, 32320, 32376, 32428, 32476, 32521, 32561]
    else if i == 3 then [32599, 32632, 32662, 32688, 32711, 32729, 32744, 32755, 32763, 32767]
    else if i == 4 then [32767, 32741, 32665, 32537, 32359, 32129, 31850, 31521, 31143, 30716]
    else if i == 5 then [30242, 29720, 29151, 28538, 27879, 27177, 26433, 25647, 24821, 23957]
    else if i == 6 then [23055, 22117, 21145, 20139, 19102, 18036, 16941, 15820, 14674, 13505]
    else [12315, 11106, 9879, 8637, 7381, 6114, 4838, 3554, 2264, 971]
  }

  // The table, in Q15, ten entries a row.
  function Wlp(j: nat): (x: int)
    requires j < L_LP_ANALYSIS_WINDOW
    ensures 0 <= x <= 0x7fff
  {
    var i := j / 10;
    if i < 8 then RowsFrom0(i)[j % 10] else if i < 16 then RowsFrom8(i - 8)[j % 10] else RowsFrom16(i - 16)[j % 10]
  }

  predicate IsBuffer(signal: seq<int>) { |signal| == L_LP_ANALYSIS_WINDOW && Words(signal) }

  function WindowedAt(x: int, j: nat): int
    requires j < L_LP_ANALYSIS_WINDOW
  {
    (x * Wlp(j) + 0x4000) / 0x8000
  }

  lemma WindowedFits(x: int, j: nat)
    requires Is16(x) && j < L_LP_ANALYSIS_WINDOW
    ensures Is32(x * Wlp(j)) && Is32(x * Wlp(j) + 0x4000) && Is16(WindowedAt(x, j))
  {
    var p := Wlp(j);
    MulMono(x, 0x7fff, p);
    MulMono(-0x8000, x, p);
    assert -0x3fff8000 <= x * p <= 0x3fff0001;
  }

  /** A windowed sample is within half a unit of the sample times its weight. */
  lemma WindowedNear(x: int, j: nat)
    requires Is16(x) && j < L_LP_ANALYSIS_WINDOW
    ensures -0x4000 <= 0x8000 * WindowedAt(x, j) - x * Wlp(j) <= 0x4000
  {
    var y := x * Wlp(j) + 0x4000;
    assert 0 <= y - 0x8000 * (y / 0x8000) < 0x8000;
  }

  // The rounding product of every sample and its weight.
  function Windowed(signal: seq<int>): (w: seq<int>)
    requires IsBuffer(signal)
    ensures |w| == |signal| && IsSignal(w)
  {
    AllFit(signal);
    seq(|signal|, j requires 0 <= j < |signal| => WindowedAt(signal[j], j))
  }

  lemma AllFit(signal: seq<int>)
    requires IsBuffer(signal)
    ensures forall j :: 0 <= j < |signal| ==> Is16(WindowedAt(signal[j], j))
  {
    forall j | 0 <= j < |signal| ensures Is16(WindowedAt(signal[j], j)) { WindowedFits(signal[j], j); }
  }

  method WindowSignal(signal: seq<int>) returns (w: seq<int>)
    requires IsBuffer(signal)
    ensures w == Windowed(signal)
  {
    var windowedSignal := new int[L_LP_ANALYSIS_WINDOW];
    var i := 0;
    while i < L_LP_ANALYSIS_WINDOW
      invariant 0 <= i <= L_LP_ANALYSIS_WINDOW
      invariant forall j :: 0 <= j < i ==> windowedSignal[j] == WindowedAt(signal[j], j)
    {
      WindowedFits(signal[i], i);
      Wrap32Id(signal[i] * Wlp(i));
      Wrap32Id(0x4000 + signal[i] * Wlp(i));
      windowedSignal[i] := Wrap16(Wrap32(0x4000 + Wrap32(signal[i] * Wlp(i))) / 0x8000);
      i := i + 1;
    }
    w := windowedSignal[..];
  }
}
