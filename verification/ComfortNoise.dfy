/** Comfort noise on both sides: the pseudo random draws behind one excitation frame, the
    smoothing of the transmitted gain and the quantisation of the noise energy. */
module ComfortNoise {
  import opened Common
  import opened FixedPoint

  const RANDOM_SEED_INIT := 11111
  const GAUSSIAN_TERMS := 12
  // Two draws for delay, pulses and signs, one for the adaptive gain, twelve per sample.
  const DRAWS_PER_SUBFRAME := 3 + GAUSSIAN_TERMS * L_SUBFRAME
  const DRAWS_PER_FRAME := 2 * DRAWS_PER_SUBFRAME

  predicate IsSeed(s: int) { 0 <= s < 0x10000 }

  function NextSeed(s: int): (r: int)
    ensures IsSeed(r)
  {
    (s * 31821 + 13849) % 0x10000
  }

  function SeedAfter(s: int, n: nat): (r: int)
    requires IsSeed(s)
    ensures IsSeed(r)
  {
    if n == 0 then s else NextSeed(SeedAfter(s, n - 1))
  }

  lemma {:induction false} SeedAfterAdds(s: int, m: nat, n: nat)
    requires IsSeed(s)
    ensures SeedAfter(SeedAfter(s, m), n) == SeedAfter(s, m + n)
  {
    if n > 0 { SeedAfterAdds(s, m, n - 1); }
  }

  class RandomGenerator {
    var seed: int

    constructor (s: int)
      requires IsSeed(s)
      ensures seed == s
    {
      seed := s;
    }

    // The multiply-accumulate runs on 32 bits and fits; the seed keeps the low 16.
    method Draw() returns (r: int)
      requires IsSeed(seed)
      modifies this
      ensures seed == r == NextSeed(old(seed)) && IsSeed(r)
    {
      Wrap32Id(seed * 31821);
      Wrap32Id(13849 + seed * 31821);
      seed := Wrap32(13849 + Wrap32(seed * 31821)) % 0x10000;
      r := seed;
    }

    // The draws read as signed words and summed on 32 bits.
    method SumDraws(terms: nat) returns (sum: int)
      requires IsSeed(seed) && terms <= 0x100
      modifies this
      ensures IsSeed(seed) && seed == SeedAfter(old(seed), terms)
      ensures sum == DrawSum(old(seed), terms) && -0x8000 * terms <= sum <= 0x7fff * terms
    {
      sum := 0;
      var j := 0;
      while j < terms
        invariant 0 <= j <= terms
        invariant IsSeed(seed) && seed == SeedAfter(old(seed), j)
        invariant sum == DrawSum(old(seed), j)
      {
        var r := Draw();
        DrawSumBound(old(seed), j + 1);
        Wrap32Id(sum + Wrap16(r));
        sum := Wrap32(sum + Wrap16(r));
        j := j + 1;
      }
      DrawSumBound(old(seed), terms);
    }

    // The sum of twelve draws, shifted down.
    method DrawGaussian() returns (g: int)
      requires IsSeed(seed)
      modifies this
      ensures IsSeed(seed) && seed == SeedAfter(old(seed), GAUSSIAN_TERMS)
      ensures g == Gaussian(old(seed)) && -3072 <= g <= 3071
    {
      var sum := SumDraws(GAUSSIAN_TERMS);
      ShiftedSumIsWord(sum);
      g := Wrap16(sum / 128);
    }
  }

  // The first n draws after a seed, read as signed words and summed.
  function DrawSum(s: int, n: nat): int
    requires IsSeed(s)
  {
    if n == 0 then 0 else DrawSum(s, n - 1) + Wrap16(SeedAfter(s, n))
  }

  // The sample that the twelve draws after a seed make.
  function Gaussian(s: int): int
    requires IsSeed(s)
  {
    DrawSum(s, GAUSSIAN_TERMS) / 128
  }

  lemma ShiftedSumIsWord(sum: int)
    requires -0x8000 * GAUSSIAN_TERMS <= sum <= 0x7fff * GAUSSIAN_TERMS
    ensures Wrap16(sum / 128) == sum / 128 && -3072 <= sum / 128 <= 3071
  {}

  lemma {:induction false} DrawSumBound(s: int, n: nat)
    requires IsSeed(s)
    ensures -0x8000 * n <= DrawSum(s, n) <= 0x7fff * n
  {
    if n > 0 { DrawSumBound(s, n - 1); }
  }

  // What one subframe of noise is built from.
  datatype Draws = Draws(delay: int, third: int, place: seq<int>, positive: seq<bool>, pitchGain: int)

  predicate Usable(d: Draws) {
    && 40 <= d.delay <= 103 && -1 <= d.third <= 1
    && |d.place| == |d.positive| == 4
    && (forall i :: 0 <= i < 4 ==> 0 <= d.place[i] < L_SUBFRAME)
    && d.place[0] % 5 == 0 && d.place[1] % 5 == 1 && d.place[2] % 5 == 2 && d.place[3] % 5 >= 3
    && 0 <= d.pitchGain < 0x4000
  }

  function ThirdOf(bits: int): int { if bits == 3 then 0 else bits - 1 }

  // The fields of three draws: delay and two pulses, two more pulses, the pitch gain.
  function DrawsFrom(one: nat, two: nat, three: nat): (d: Draws)
  {
    Draws((one / 4) % 64 + 40, ThirdOf(one % 4),
          [((one / 256) % 8) * 5, ((one / 4096) % 8) * 5 + 1, (two % 8) * 5 + 2, (two / 8 / 2) % 2 + 3 + ((two / 32) % 8) * 5],
          [(one / 2048) % 2 != 0, (one / 32768) % 2 != 0, (two / 8) % 2 != 0, (two / 256) % 2 != 0],
          (three % 8192) * 2)
  }

  /** Whatever the three draws, the fields can be used: delay in 40..103, one pulse on each track, a
      pitch gain below one half. */
  lemma DrawsUsable(one: nat, two: nat, three: nat)
    ensures Usable(DrawsFrom(one, two, three))
  {
    OnTrack((one / 256) % 8, 0);
    OnTrack((one / 4096) % 8, 1);
    OnTrack(two % 8, 2);
    OnTrack((two / 32) % 8, (two / 8 / 2) % 2 + 3);
  }

  lemma OnTrack(octal: nat, track: nat)
    requires octal < 8 && track < 5
    ensures octal * 5 + track < L_SUBFRAME && (octal * 5 + track) % 5 == track
  {}

  lemma ShiftedDown(x: nat)
    ensures x / 4 / 64 == x / 256 && x / 256 / 8 == x / 2048 && x / 2048 / 2 == x / 4096 && x / 4096 / 8 == x / 32768
    ensures x / 8 / 2 == x / 16 && x / 16 / 2 == x / 32 && x / 32 / 8 == x / 256
  {
    DivDiv(x, 4, 64);
    DivDiv(x, 256, 8);
    DivDiv(x, 2048, 2);
    DivDiv(x, 4096, 8);
    DivDiv(x, 8, 2);
    DivDiv(x, 16, 2);
    DivDiv(x, 32, 8);
  }

  // First draw, bits leaving from the low end.
  method DecodeFirstDraw(draw: nat) returns (delay: int, third: int, place0: int, sign0: bool, place1: int, sign1: bool)
    ensures delay == (draw / 4) % 64 + 40 && third == ThirdOf(draw % 4)
    ensures place0 == ((draw / 256) % 8) * 5 && sign0 == ((draw / 2048) % 2 != 0)
    ensures place1 == ((draw / 4096) % 8) * 5 + 1 && sign1 == ((draw / 32768) % 2 != 0)
  {
    ShiftedDown(draw);
    var buffer: int := draw;
    third := buffer % 4 - 1;
    if third == 2 { third := 0; }
    buffer := buffer / 4;
    delay := buffer % 64 + 40;
    buffer := buffer / 64;
    place0 := (buffer % 8) * 5;
    buffer := buffer / 8;
    sign0 := buffer % 2 != 0;
    buffer := buffer / 2;
    place1 := (buffer % 8) * 5 + 1;
    buffer := buffer / 8;
    sign1 := buffer % 2 != 0;
  }

  // Second draw.
  method DecodeSecondDraw(draw: nat) returns (place2: int, sign2: bool, place3: int, sign3: bool)
    ensures place2 == (draw % 8) * 5 + 2 && sign2 == ((draw / 8) % 2 != 0)
    ensures place3 == (draw / 8 / 2) % 2 + 3 + ((draw / 32) % 8) * 5 && sign3 == ((draw / 256) % 2 != 0)
  {
    ShiftedDown(draw);
    var buffer: int := draw;
    place2 := (buffer % 8) * 5 + 2;
    buffer := buffer / 8;
    sign2 := buffer % 2 != 0;
    buffer := buffer / 2;
    place3 := buffer % 2 + 3;
    buffer := buffer / 2;
    place3 := place3 + (buffer % 8) * 5;
    buffer := buffer / 8;
    sign3 := buffer % 2 != 0;
  }

  // The fields that the three draws after a seed make.
  function DrawsAfter(s: int): Draws
    requires IsSeed(s)
  {
    DrawsFrom(SeedAfter(s, 1), SeedAfter(s, 2), SeedAfter(s, 3))
  }

  method DrawParameters(random: RandomGenerator) returns (d: Draws)
    requires IsSeed(random.seed)
    modifies random
    ensures IsSeed(random.seed) && random.seed == SeedAfter(old(random.seed), 3)
    ensures d == DrawsAfter(old(random.seed)) && Usable(d)
  {
    ghost var s := random.seed;
    ThreeDraws(s);
    var one := random.Draw();
    var two := random.Draw();
    var three := random.Draw();
    d := DecodeDraws(one, two, three);
  }

  lemma ThreeDraws(s: int)
    requires IsSeed(s)
    ensures SeedAfter(s, 1) == NextSeed(s) && SeedAfter(s, 2) == NextSeed(SeedAfter(s, 1))
    ensures SeedAfter(s, 3) == NextSeed(SeedAfter(s, 2))
  {}

  method DecodeDraws(one: nat, two: nat, three: nat) returns (d: Draws)
    ensures d == DrawsFrom(one, two, three) && Usable(d)
  {
    var delay, third, place0, sign0, place1, sign1 := DecodeFirstDraw(one);
    var place2, sign2, place3, sign3 := DecodeSecondDraw(two);
    d := Draws(delay, third, [place0, place1, place2, place3], [sign0, sign1, sign2, sign3], (three % 8192) * 2);
    DrawsUsable(one, two, three);
  }

  function SumOfSquares(v: seq<int>): int {
    if v == [] then 0 else SumOfSquares(v[..|v| - 1]) + v[|v| - 1] * v[|v| - 1]
  }

  // The whole Gaussian vector with its energy, which stays inside 32 bits.
  method DrawNoise(random: RandomGenerator, noise: array<int>) returns (energy: int)
    requires IsSeed(random.seed) && noise.Length == L_SUBFRAME
    modifies random, noise
    ensures IsSeed(random.seed) && random.seed == SeedAfter(old(random.seed), GAUSSIAN_TERMS * L_SUBFRAME)
    ensures energy == SumOfSquares(noise[..]) && Is32(energy)
    ensures forall i :: 0 <= i < L_SUBFRAME ==>
      IsSeed(old(random.seed)) && noise[i] == Gaussian(SeedAfter(old(random.seed), GAUSSIAN_TERMS * i))
  {
    energy := 0;
    var i := 0;
    while i < L_SUBFRAME
      invariant 0 <= i <= L_SUBFRAME
      invariant IsSeed(random.seed) && random.seed == SeedAfter(old(random.seed), GAUSSIAN_TERMS * i)
      invariant energy == SumOfSquares(noise[..i]) && 0 <= energy <= 9437184 * i
      invariant forall k :: 0 <= k < i ==> noise[k] == Gaussian(SeedAfter(old(random.seed), GAUSSIAN_TERMS * k))
    {
      SeedAfterAdds(old(random.seed), GAUSSIAN_TERMS * i, GAUSSIAN_TERMS);
      var g := random.DrawGaussian();
      noise[i] := g;
      SquareBound(g, 3072);
      Wrap32Id(energy + g * g);
      energy := Wrap32(energy + g * g);
      assert noise[..i + 1][..i] == noise[..i];
      i := i + 1;
    }
    assert noise[..] == noise[..i];
  }

  lemma SquareBound(x: int, b: nat)
    requires x <= b && -x <= b
    ensures 0 <= x * x <= b * b
  {
    var y: nat := if x >= 0 then x else -x;
    MulMono(y, b, y);
    MulMono(y, b, b);
    assert x * x == y * y;
  }

  /** The draws of one frame of noise: two subframes of three draws for the fields and 480 for the
      samples, each a function of the seed alone, and the generator 966 draws further on. */
  method DrawFrame(random: RandomGenerator) returns (first: Draws, second: Draws)
    requires IsSeed(random.seed)
    modifies random
    ensures IsSeed(random.seed) && random.seed == SeedAfter(old(random.seed), DRAWS_PER_FRAME)
    ensures first == DrawsAfter(old(random.seed)) && second == DrawsAfter(SeedAfter(old(random.seed), DRAWS_PER_SUBFRAME))
    ensures Usable(first) && Usable(second)
  {
    ghost var s := random.seed;
    var noise := new int[L_SUBFRAME];
    first := DrawParameters(random);
    var energy := DrawNoise(random, noise);
    SeedAfterAdds(s, 3, GAUSSIAN_TERMS * L_SUBFRAME);
    second := DrawParameters(random);
    SeedAfterAdds(s, DRAWS_PER_SUBFRAME, 3);
    energy := DrawNoise(random, noise);
    SeedAfterAdds(s, DRAWS_PER_SUBFRAME + 3, GAUSSIAN_TERMS * L_SUBFRAME);
  }

  // ----- gain -----

  // The 32 transmitted gains, Q3.
  function SidGain(i: nat): int
    requires i < 32
  {
    if i == 0 then 2 else if i == 1 then 5 else if i == 2 then 8 else if i == 3 then 13
    else if i == 4 then 20 else if i == 5 then 32 else if i == 6 then 50 else if i == 7 then 64
    else if i == 8 then 80 else if i == 9 then 101 else if i == 10 then 127 else if i == 11 then 160
    else if i == 12 then 201 else if i == 13 then 253 else if i == 14 then 318 else if i == 15 then 401
    else if i == 16 then 505 else if i == 17 then 635 else if i == 18 then 800 else if i == 19 then 1007
    else if i == 20 then 1268 else if i == 21 then 1596 else if i == 22 then 2010 else if i == 23 then 2530
    else if i == 24 then 3185 else if i == 25 then 4009 else if i == 26 then 5048 else if i == 27 then 6355
    else if i == 28 then 8000 else if i == 29 then 10071 else if i == 30 then 12679 else 15962
  }

  // What the transmitted gains stand for, in dB: the coarse ones the middle of their range of energies, 2 dB
  // below its decoded level.
  function SidDecibels(i: nat): int
    requires i < 32
  {
    if i == 0 then -12 else if i <= 5 then 4 * i - 8 else 2 * i + 4
  }

  // Bounds on ten to the power of db/20, in hundredths, for the steps between neighbours.
  predicate IsStep(db: int, gain: int, next: int) {
    if db == 2 then 123 * gain <= 100 * next <= 129 * gain
    else if db == 4 then 153 * gain <= 100 * next <= 163 * gain
    else db == 8 && 250 * gain <= 100 * next <= 252 * gain
  }

  /** The gains grow, each by the step in dB to the next; twenty dB are a factor of ten up to the rounding. */
  lemma SidGainsFollowDecibels(i: nat)
    requires i < 31
    ensures SidGain(i) < SidGain(i + 1) && IsStep(SidDecibels(i + 1) - SidDecibels(i), SidGain(i), SidGain(i + 1))
    ensures 6 <= i <= 21 ==> SidDecibels(i + 10) == SidDecibels(i) + 20 && Abs(SidGain(i + 10) - 10 * SidGain(i)) <= 5
  {}

  /** The decibels of a transmitted gain are the level of the same index, or 2 dB below it in the coarse range. */
  lemma SidDecibelsAreLevels(acc: int)
    requires Is32(acc)
    ensures 0 <= QuantisedLevel(acc).index < 32
    ensures var l := QuantisedLevel(acc);
      SidDecibels(l.index) == if 1 <= l.index <= 5 then l.logEnergy - 2 else l.logEnergy
  {
    LevelIsPlain(acc);
    LevelBracketsEnergy(acc);
  }

  // Seven eighths of the old gain and one eighth of the received one.
  function Smoothed(smoothed: int, received: int): int {
    Wrap16(Wrap16(smoothed - smoothed / 8) + received / 8)
  }

  /** The smoothing never overflows and never leaves the range of the transmitted gains. */
  lemma SmoothingStaysInRange(smoothed: int, i: nat)
    requires i < 32 && 0 <= smoothed <= 15962
    ensures 0 <= Smoothed(smoothed, SidGain(i)) <= 15962
    ensures Smoothed(smoothed, SidGain(i)) == smoothed - smoothed / 8 + SidGain(i) / 8
  {
    assert 0 <= SidGain(i) <= 15962;
  }

  /** One smoothing moves the gain an eighth of the way to the received one, and never past it. */
  lemma SmoothingMovesAnEighth(smoothed: int, received: int)
    requires 0 <= smoothed <= 15962 && 0 <= received <= 15962
    ensures -7 <= 8 * (Smoothed(smoothed, received) - smoothed) - (received - smoothed) <= 7
    ensures smoothed <= received ==> smoothed <= Smoothed(smoothed, received) <= received
    ensures received <= smoothed ==> received <= Smoothed(smoothed, received) + 7 && Smoothed(smoothed, received) <= smoothed
  {
    assert Is16(smoothed - smoothed / 8) && Is16(smoothed - smoothed / 8 + received / 8);
  }

  // ----- energy -----

  datatype Level = Level(index: int, logEnergy: int)

  // From log10 of the energy, Q15.
  function QuantisedLevel(acc: int): Level {
    if acc < -26214 then Level(0, -12)
    else if acc < 45875 then
      var scaled := if acc + 19661 < 0 then 0 else Mult16x32(20480, acc + 19661, 13);
      Level(1 + Shr(scaled, 15), -2 + 4 * Shr(scaled, 15))
    else if acc < 216268 then
      var scaled := if acc - 49152 < 0 then 0 else Mult16x32(20480, acc - 49152, 12);
      Level(6 + Shr(scaled, 15), 16 + 2 * Shr(scaled, 15))
    else Level(31, 66)
  }

  // The same without the macros.
  function PlainLevel(acc: int): Level {
    if acc < -26214 then Level(0, -12)
    else if acc < 45875 then
      var steps := if acc + 19661 < 0 then 0 else (5 * (acc + 19661)) / 65536;
      Level(1 + steps, -2 + 4 * steps)
    else if acc < 216268 then
      var steps := if acc - 49152 < 0 then 0 else (5 * (acc - 49152)) / 32768;
      Level(6 + steps, 16 + 2 * steps)
    else Level(31, 66)
  }

  lemma LevelIsPlain(acc: int)
    requires Is32(acc)
    ensures QuantisedLevel(acc) == PlainLevel(acc)
  {
    Pow2Table();
    if -19661 <= acc < 45875 {
      var x := acc + 19661;
      SplitMultiplyIsFloor(20480, x, 13);
      assert (20480 * x) / 8192 == (5 * x) / 2;
      DivDiv(5 * x, 2, 32768);
    } else if 49152 <= acc < 216268 {
      var x := acc - 49152;
      SplitMultiplyIsFloor(20480, x, 12);
      assert (20480 * x) / 4096 == 5 * x;
    }
  }

  lemma LevelBracketsEnergy(acc: int)
    ensures 0 <= PlainLevel(acc).index <= 31
    ensures -19661 <= acc < 45875 ==> -4 * 32768 <= 10 * acc - 32768 * PlainLevel(acc).logEnergy + 2 <= 0
    ensures 49152 <= acc < 216268 ==> Abs(10 * acc - 32768 * PlainLevel(acc).logEnergy) <= 32768
  {
    if -19661 <= acc < 45875 {
      var x := 5 * (acc + 19661);
      assert 65536 * (x / 65536) <= x < 65536 * (x / 65536) + 65536;
    } else if 49152 <= acc < 216268 {
      var x := 5 * (acc - 49152);
      assert 32768 * (x / 32768) <= x < 32768 * (x / 32768) + 32768;
    }
  }

  lemma LevelMonotone(acc: int, louder: int)
    requires acc <= louder
    ensures PlainLevel(acc).index <= PlainLevel(louder).index
    ensures PlainLevel(acc).logEnergy <= PlainLevel(louder).logEnergy
  {
    LevelBracketsEnergy(acc);
    LevelBracketsEnergy(louder);
    DivMono(5 * (acc + 19661), 5 * (louder + 19661), 65536);
    DivMono(5 * (acc - 49152), 5 * (louder - 49152), 32768);
  }

  /** Every energy gets one of the 32 levels and a louder one never a lower level.  10*acc/2^15
      is the energy in dB: in the fine range the decoded level is within 1 dB of it, in the
      coarse range it is never below the energy and at most 4 dB above. */
  lemma LevelTracksEnergy(acc: int, louder: int)
    requires Is32(acc) && Is32(louder) && acc <= louder
    ensures 0 <= QuantisedLevel(acc).index <= QuantisedLevel(louder).index <= 31
    ensures QuantisedLevel(acc).logEnergy <= QuantisedLevel(louder).logEnergy
    ensures -19661 <= acc < 45875 ==> -4 * 32768 <= 10 * acc - 32768 * QuantisedLevel(acc).logEnergy + 2 <= 0
    ensures 49152 <= acc < 216268 ==> Abs(10 * acc - 32768 * QuantisedLevel(acc).logEnergy) <= 32768
  {
    LevelIsPlain(acc);
    LevelIsPlain(louder);
    LevelBracketsEnergy(acc);
    LevelBracketsEnergy(louder);
    LevelMonotone(acc, louder);
  }
}
