/** The random generator of the comfort noise runs through all 16 bit words before it repeats one. */
module RandomPeriod {
  import opened FixedPoint
  import opened ComfortNoise

  const WORDS := 0x10000

  // Many draws in one: a factor and an offset.
  function Mapped(f: int, o: int, s: int): int { (f * s + o) % WORDS }

  // Factors and offsets of 1, 2, 4, ... draws.
  predicate IsTable(f: seq<int>, o: seq<int>) {
    && |f| == |o| == 17 && f[0] == 31821 && o[0] == 13849
    && forall i :: 0 <= i < 16 ==> Follows(f[i], o[i], f[i + 1], o[i + 1])
  }

  predicate Follows(f: int, o: int, f1: int, o1: int) { f1 == (f * f) % WORDS && o1 == (o * (f + 1)) % WORDS }

  lemma Offsets(x: int, k: int)
    ensures (x + k * WORDS) % WORDS == x % WORDS
  {}

  // A factor and an offset may be reduced before or after.
  lemma ReduceInside(f: int, o: int, x: int)
    ensures (f * (x % WORDS) + o) % WORDS == (f * x + o) % WORDS
  {
    var q := x / WORDS;
    assert f * (q * WORDS) == (f * q) * WORDS;
    assert f * x == f * (x % WORDS) + f * (q * WORDS);
    Offsets(f * (x % WORDS) + o, f * q);
  }

  lemma ReduceFactors(g: int, p: int, s: int)
    ensures ((g % WORDS) * s + p % WORDS) % WORDS == (g * s + p) % WORDS
  {
    var q := g / WORDS;
    assert (q * WORDS) * s == (q * s) * WORDS;
    assert g * s == (g % WORDS) * s + (q * WORDS) * s;
    Offsets((g % WORDS) * s + p % WORDS, q * s + p / WORDS);
  }

  // A map s -> f s + o, taken twice on words.
  lemma TwiceOnWords(f: int, o: int, s: int)
    ensures (f * ((f * s + o) % WORDS) + o) % WORDS == (((f * f) % WORDS) * s + (o * (f + 1)) % WORDS) % WORDS
  {
    ReduceInside(f, o, f * s + o);
    ReduceFactors(f * f, o * (f + 1), s);
    assert f * (f * s + o) + o == (f * f) * s + o * (f + 1);
  }

  lemma OneDraw(s: int)
    requires IsSeed(s)
    ensures SeedAfter(s, 1) == NextSeed(s)
  {
    assert SeedAfter(s, 0) == s;
  }

  // Twice as many draws, from plain numbers.
  lemma TwiceAsMany(s: int, f: int, o: int, f1: int, o1: int)
    requires Follows(f, o, f1, o1)
    ensures Mapped(f, o, Mapped(f, o, s)) == Mapped(f1, o1, s)
  {
    TwiceOnWords(f, o, s);
  }

  function Doubled(n: nat, k: nat): nat { if k == 0 then n else 2 * Doubled(n, k - 1) }

  /** 2^k draws at once. */
  lemma {:induction false} ManyDraws(s: int, k: nat, one: nat, f: seq<int>, o: seq<int>)
    requires IsSeed(s) && one == 1 && IsTable(f, o) && k < 17
    ensures SeedAfter(s, Doubled(one, k)) == Mapped(f[k], o[k], s)
    decreases k
  {
    if k == 0 {
      OneDraw(s);
    } else {
      var p := Doubled(one, k - 1);
      var mid := SeedAfter(s, p);
      ManyDraws(s, k - 1, one, f, o);
      ManyDraws(mid, k - 1, one, f, o);
      SeedAfterAdds(s, p, p);
      assert Follows(f[k - 1], o[k - 1], f[k - 1 + 1], o[k - 1 + 1]);
      TwiceAsMany(s, f[k - 1], o[k - 1], f[k], o[k]);
    }
  }

  function FactorAt(i: nat): int {
    if i == 0 then 31821 else if i == 1 then 44841 else if i == 2 then 5265 else if i == 3 then 64033
    else if i == 4 then 30785 else if i == 5 then 129 else if i == 6 then 16641 else if i == 7 then 33281
    else if i == 8 then 1025 else if i == 9 then 2049 else if i == 10 then 4097 else if i == 11 then 8193
    else if i == 12 then 16385 else if i == 13 then 32769 else if i == 14 then 1 else if i == 15 then 1 else 1
  }

  function OffsetAt(i: nat): int {
    if i == 0 then 13849 else if i == 1 then 38814 else if i == 2 then 57836 else if i == 3 then 18584
    else if i == 4 then 5168 else if i == 5 then 46176 else if i == 6 then 39104 else if i == 7 then 61824
    else if i == 8 then 58112 else if i == 9 then 50688 else if i == 10 then 35840 else if i == 11 then 6144
    else if i == 12 then 12288 else if i == 13 then 24576 else if i == 14 then 49152 else if i == 15 then 32768 else 0
  }

  lemma LowFollows(i: nat)
    requires i < 8
    ensures Follows(FactorAt(i), OffsetAt(i), FactorAt(i + 1), OffsetAt(i + 1))
  {
    if i == 0 {
      assert Follows(31821, 13849, 44841, 38814);
    } else if i == 1 {
      assert Follows(44841, 38814, 5265, 57836);
    } else if i == 2 {
      assert Follows(5265, 57836, 64033, 18584);
    } else if i == 3 {
      assert Follows(64033, 18584, 30785, 5168);
    } else if i == 4 {
      assert Follows(30785, 5168, 129, 46176);
    } else if i == 5 {
      assert Follows(129, 46176, 16641, 39104);
    } else if i == 6 {
      assert Follows(16641, 39104, 33281, 61824);
    } else if i == 7 {
      assert Follows(33281, 61824, 1025, 58112);
    }
  }

  lemma HighFollows(i: nat)
    requires 8 <= i < 16
    ensures Follows(FactorAt(i), OffsetAt(i), FactorAt(i + 1), OffsetAt(i + 1))
  {
    if i == 8 {
      assert Follows(1025, 58112, 2049, 50688);
    } else if i == 9 {
      assert Follows(2049, 50688, 4097, 35840);
    } else if i == 10 {
      assert Follows(4097, 35840, 8193, 6144);
    } else if i == 11 {
      assert Follows(8193, 6144, 16385, 12288);
    } else if i == 12 {
      assert Follows(16385, 12288, 32769, 24576);
    } else if i == 13 {
      assert Follows(32769, 24576, 1, 49152);
    } else if i == 14 {
      assert Follows(1, 49152, 1, 32768);
    } else if i == 15 {
      assert Follows(1, 32768, 1, 0);
    }
  }

  lemma TableFollows(i: nat)
    requires i < 16
    ensures Follows(FactorAt(i), OffsetAt(i), FactorAt(i + 1), OffsetAt(i + 1))
  {
    if i < 8 { LowFollows(i); } else { HighFollows(i); }
  }

  lemma TheTable() returns (f: seq<int>, o: seq<int>)
    ensures IsTable(f, o) && forall i :: 0 <= i < 17 ==> f[i] == FactorAt(i) && o[i] == OffsetAt(i)
  {
    f, o := seq(17, i requires 0 <= i < 17 => FactorAt(i)), seq(17, i requires 0 <= i < 17 => OffsetAt(i));
    forall i | 0 <= i < 16 ensures Follows(f[i], o[i], f[i + 1], o[i + 1]) { TableFollows(i); }
  }

  lemma {:induction false} DoubledIs(n: nat, k: nat)
    ensures Doubled(n, k) == n * Pow2(k)
  {
    if k == 0 {
      assert Pow2(k) == 1;
    } else {
      DoubledIs(n, k - 1);
    }
  }

  lemma SixteenDoublings(one: nat, half: nat, whole: nat)
    requires one == 1 && half == 0x8000 && whole == WORDS
    ensures Doubled(one, 15) == half && Doubled(one, 16) == whole
  {
    Pow2Table();
    DoubledIs(one, 15);
    DoubledIs(one, 16);
  }

  // One factor and offset of the table for Doubled(one, k) draws.
  lemma DrawsByTable(s: int, k: nat, one: nat, n: nat, f: int, o: int)
    requires IsSeed(s) && one == 1 && k < 17 && n == Doubled(one, k) && f == FactorAt(k) && o == OffsetAt(k)
    ensures SeedAfter(s, n) == Mapped(f, o, s)
  {
    var fs, os := TheTable();
    ManyDraws(s, k, one, fs, os);
  }

  lemma LastMaps(s: int, k: nat)
    requires IsSeed(s) && k == 15
    ensures Mapped(FactorAt(k), OffsetAt(k), s) == (s + 0x8000) % WORDS && Mapped(FactorAt(k + 1), OffsetAt(k + 1), s) == s
  {}

  lemma ByDoublings(s: int, one: nat, half: nat, whole: nat, k: nat)
    requires IsSeed(s) && one == 1 && k == 15 && half == Doubled(one, k) && whole == Doubled(one, k + 1)
    ensures SeedAfter(s, half) == (s + 0x8000) % WORDS && SeedAfter(s, whole) == s
  {
    LastMaps(s, k);
    DrawsByTable(s, k, one, half, FactorAt(k), OffsetAt(k));
    DrawsByTable(s, k + 1, one, whole, FactorAt(k + 1), OffsetAt(k + 1));
  }

  /** Half a period moves every seed by half of the words; a whole one moves none. */
  lemma AfterHalf(s: int, one: nat, half: nat, whole: nat)
    requires IsSeed(s) && one == 1 && half == 0x8000 && whole == WORDS
    ensures SeedAfter(s, half) == (s + 0x8000) % WORDS && SeedAfter(s, whole) == s
  {
    SixteenDoublings(one, half, whole);
    ByDoublings(s, one, half, whole, 15);
  }

  lemma {:induction false} Repeats(s: int, n: nat, t: nat)
    requires IsSeed(s) && SeedAfter(s, n) == s
    ensures SeedAfter(s, n * t) == s
  {
    if t == 0 {
      assert n * t == 0;
    } else {
      Repeats(s, n, t - 1);
      SeedAfterAdds(s, n * (t - 1), n);
      assert n * (t - 1) + n == n * t;
    }
  }

  lemma HalfOf(x: nat)
    requires x % WORDS != 0 && (2 * x) % WORDS == 0
    ensures x % WORDS == 0x8000
  {}

  // Some doubling of a number of draws that is no period is half a period.
  lemma {:induction false} HalfDoubling(n: nat, k: nat) returns (j: nat)
    requires n % WORDS != 0 && Doubled(n, k) % WORDS == 0
    ensures j < k && Doubled(n, j) % WORDS == 0x8000
  {
    if Doubled(n, k - 1) % WORDS == 0 {
      j := HalfDoubling(n, k - 1);
    } else {
      j := k - 1;
      HalfOf(Doubled(n, j));
    }
  }

  lemma WholePeriods(s: int, m: nat, whole: nat)
    requires IsSeed(s) && whole == WORDS
    ensures SeedAfter(s, m) == SeedAfter(s, m % WORDS)
  {
    AfterHalf(s, 1, 0x8000, whole);
    var t := m / WORDS;
    Repeats(s, whole, t);
    AllButRest(s, m, whole * t, m % WORDS);
  }

  lemma AllButRest(s: int, m: nat, done: nat, rest: nat)
    requires IsSeed(s) && SeedAfter(s, done) == s && m == done + rest
    ensures SeedAfter(s, m) == SeedAfter(s, rest)
  {
    SeedAfterAdds(s, done, rest);
  }

  // A word away from itself by half a period.
  lemma HalfMoves(s: int)
    requires IsSeed(s)
    ensures (s + 0x8000) % WORDS != s
  {}

  lemma SixteenOf(n: nat)
    ensures Doubled(n, 16) % WORDS == 0
  {
    Pow2Table();
    DoubledIs(n, 16);
  }

  lemma NoShorterPeriod(s: int, n: nat, whole: nat)
    requires IsSeed(s) && whole == WORDS && n % WORDS != 0
    ensures SeedAfter(s, n) != s
  {
    SixteenOf(n);
    var j := HalfDoubling(n, 16);
    DoubledIs(n, j);
    WholePeriods(s, Doubled(n, j), whole);
    AfterHalf(s, 1, 0x8000, whole);
    HalfMoves(s);
    if SeedAfter(s, n) == s { Repeats(s, n, Pow2(j)); }
  }

  lemma Period(s: int, n: nat, whole: nat)
    requires IsSeed(s) && whole == WORDS && n % WORDS == 0
    ensures SeedAfter(s, n) == s
  {
    WholePeriods(s, n, whole);
    assert SeedAfter(s, 0) == s;
  }

  /** A seed comes back after n draws if and only if n is a multiple of 65536. */
  lemma PeriodIff(s: int, n: nat)
    requires IsSeed(s)
    ensures SeedAfter(s, n) == s <==> n % WORDS == 0
  {
    if n % WORDS == 0 { Period(s, n, WORDS); } else { NoShorterPeriod(s, n, WORDS); }
  }

  /** So different seeds draw different words, and every word is drawn. */
  lemma DrawsPermute(s: int, t: int)
    requires IsSeed(s) && IsSeed(t)
    ensures NextSeed(s) == NextSeed(t) ==> s == t
    ensures exists before :: IsSeed(before) && NextSeed(before) == s
  {
    var whole := WORDS;
    Inverse(s, whole - 1, whole);
    Inverse(t, whole - 1, whole);
  }

  // The draws left of a period undo one draw.
  lemma Inverse(s: int, rest: nat, whole: nat)
    requires IsSeed(s) && whole == rest + 1 == WORDS
    ensures SeedAfter(NextSeed(s), rest) == s && NextSeed(SeedAfter(s, rest)) == s
  {
    var one := 1;
    OneMore(s, one, rest);
    OneMore(s, rest, one);
    OneDraw(s);
    OneDraw(SeedAfter(s, rest));
    AfterHalf(s, one, 0x8000, whole);
  }

  lemma OneMore(s: int, m: nat, n: nat)
    requires IsSeed(s)
    ensures SeedAfter(SeedAfter(s, m), n) == SeedAfter(s, m + n)
  {
    SeedAfterAdds(s, m, n);
  }
}
