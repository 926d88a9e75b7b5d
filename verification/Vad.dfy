/** The runtime voice-activity detector of vad.c: a hangover countdown and an
    asymmetric noise-floor average, updated once per 20 ms frame. */
module Vad {
  import opened CTypes
  import opened C6Types

  /** What vad_init_adaptive fixes for the life of the detector. */
  datatype Config = Config(floorMin: Uint32, multiplier: Uint32, hangoverFrames: nat)
  datatype State = State(left: nat, noiseFloor: Uint32)

  const ALPHA_DOWN := 1311
  const ALPHA_UP := 131
  const MAX_ENERGY := 0x4000_0000     // (-32768)^2
  /** openrecall_sensor.c runs the detector with these. */
  const DEVICE := Config(10000, 3, 30)

  function Init(c: Config): State { State(0, c.floorMin) }

  /** The C product is a uint32 and wraps. */
  function Threshold(c: Config, s: State): Uint32 {
    var t := (s.noiseFloor * c.multiplier) % 0x1_0000_0000;
    if t < c.floorMin then c.floorMin else t
  }

  /** The average's move on a gap frame, before the clamp at 0. */
  function Moved(nf: Uint32, e: Uint32): int {
    var delta := e - nf;
    nf + if delta < 0 then (delta * ALPHA_DOWN) / 65536
         else if e < nf * 3 / 2 then (delta * ALPHA_UP) / 65536
         else 0
  }

  function ClampAtZero(x: int): nat { if x < 0 then 0 else x }
  function ClampAtZero64(x: int64): int64 { if x < 0 then 0 else x }

  /** The average never overshoots the frame it follows, so the clamp at 0 is dead. */
  lemma MovesBetween(nf: Uint32, e: Uint32)
    ensures if e < nf then e <= Moved(nf, e) < nf else nf <= Moved(nf, e) <= e
  {
  }

  function Tag(c: Config, s: State, e: Uint32): VadState {
    if e > Threshold(c, s) then Speech else if s.left > 0 then Hangover else GapMarker
  }

  function Next(c: Config, s: State, e: Uint32): State {
    var tag := Tag(c, s, e);
    if tag == Speech then s.(left := c.hangoverFrames)
    else if tag == Hangover then s.(left := s.left - 1)
    else
      MovesBetween(s.noiseFloor, e);
      s.(noiseFloor := ClampAtZero(Moved(s.noiseFloor, e)))
  }

  function Run(c: Config, s: State, es: seq<Uint32>): State {
    if es == [] then s else Next(c, Run(c, s, es[..|es| - 1]), es[|es| - 1])
  }

  /** The tag given to frame i of a run from the initial state. */
  function TagAt(c: Config, es: seq<Uint32>, i: nat): VadState
    requires i < |es|
  {
    Tag(c, Run(c, Init(c), es[..i]), es[i])
  }

  // ---- The detector itself ----

  function SumOfSquares(pcm: seq<int16>): nat {
    if pcm == [] then 0
    else
      var p := pcm[|pcm| - 1] as int;
      SumOfSquares(pcm[..|pcm| - 1]) + p * p
  }

  lemma SquareFits(p: int)
    requires -0x8000 <= p < 0x8000
    ensures 0 <= p * p <= (if p < 0 then 0x8000 * 0x8000 else 0x7fff * 0x7fff)
    decreases p < 0
  {
    if p < 0 { SquareFits(-p - 1); assert p * p == (-p - 1) * (-p - 1) + 2 * (-p) - 1; }
    else { assert p * p <= p * 0x7fff; }
  }

  lemma {:induction false} SumBounded(pcm: seq<int16>)
    ensures SumOfSquares(pcm) <= |pcm| * MAX_ENERGY
  {
    if pcm != [] {
      SumBounded(pcm[..|pcm| - 1]);
      SquareFits(pcm[|pcm| - 1] as int);
      assert |pcm| * MAX_ENERGY == (|pcm| - 1) * MAX_ENERGY + MAX_ENERGY;
    }
  }

  /** Mean energy per sample, truncated. */
  function FrameEnergy(pcm: seq<int16>): (e: Uint32)
    ensures e <= MAX_ENERGY
  {
    if pcm == [] then 0
    else
      SumBounded(pcm);
      MeanBound(SumOfSquares(pcm), |pcm|);
      SumOfSquares(pcm) / |pcm|
  }

  lemma MeanBound(sum: nat, n: nat)
    requires 0 < n && sum <= n * MAX_ENERGY
    ensures sum / n <= MAX_ENERGY
  {
    assert n * (sum / n) <= sum;
    if sum / n > MAX_ENERGY {
      assert false;
    }
  }

  class Detector {
    const config: Config
    var hangoverLeft: int32
    var noiseFloor: int64

    ghost predicate Valid()
      reads this
    {
      && config.hangoverFrames < 0x8000_0000
      && 0 <= hangoverLeft
      && 0 <= noiseFloor < 0x1_0000_0000
    }

    ghost function Memory(): State
      requires Valid()
      reads this
    {
      State(hangoverLeft as int, noiseFloor as int)
    }

    constructor (c: Config)
      requires c.hangoverFrames < 0x8000_0000
      ensures Valid() && config == c && Memory() == Init(c)
    {
      config := c;
      hangoverLeft := 0;
      noiseFloor := c.floorMin as int64;
    }

    method Process(primary: array<int16>) returns (tag: VadState)
      requires Valid()
      requires primary.Length < 0x1_0000_0000
      modifies this
      ensures Valid()
      ensures tag == Tag(config, old(Memory()), FrameEnergy(primary[..]))
      ensures Memory() == Next(config, old(Memory()), FrameEnergy(primary[..]))
    {
      var e := MeasuredEnergy(primary);
      var thresh := (noiseFloor as int * config.multiplier) % 0x1_0000_0000;
      if thresh < config.floorMin { thresh := config.floorMin; }
      if e as int > thresh {
        hangoverLeft := config.hangoverFrames as int32;
        return Speech;
      }
      if hangoverLeft > 0 {
        hangoverLeft := hangoverLeft - 1;
        return Hangover;
      }
      var delta := e - noiseFloor;
      var update: int64 := 0;
      if delta < 0 {
        update := (delta * 1311) / 65536;
      } else if e < noiseFloor * 3 / 2 {
        update := (delta * 131) / 65536;
      }
      var nf := ClampAtZero64(noiseFloor + update);
      MovesBetween(noiseFloor as int, e as int);
      noiseFloor := nf;
      return GapMarker;
    }
  }

  lemma SumFits(sum: nat, n: nat)
    requires sum <= n * MAX_ENERGY && n < 0x1_0000_0000
    ensures sum < 0x8000_0000_0000_0000
  {
    assert n * MAX_ENERGY < 0x1_0000_0000 * MAX_ENERGY;
  }

  method MeasuredEnergy(primary: array<int16>) returns (e: int64)
    requires primary.Length < 0x1_0000_0000
    ensures e as int == FrameEnergy(primary[..])
  {
    var sp: int64 := 0;
    for i := 0 to primary.Length
      invariant sp as int == SumOfSquares(primary[..i])
    {
      SumBounded(primary[..i + 1]);
      assert primary[..i + 1][..i] == primary[..i];
      SquareFits(primary[i] as int);
      SumFits(SumOfSquares(primary[..i + 1]), i + 1);
      var p := primary[i] as int32;
      sp := sp + ((p * p) as int64);
    }
    assert primary[..primary.Length] == primary[..];
    e := if primary.Length > 0 then sp / (primary.Length as int64) else 0;
  }

  // ---- Hangover: the countdown is a window over the past tags ----

  /** A speech frame lies among the n frames before frame i. */
  ghost predicate SpeechWithin(c: Config, es: seq<Uint32>, i: nat, n: nat)
    requires i <= |es|
  {
    exists j :: 0 <= j < i && i - j <= n && TagAt(c, es, j) == Speech
  }

  lemma {:induction false} CountdownIsWindow(c: Config, es: seq<Uint32>, i: nat, k: nat)
    requires i <= |es| && k < c.hangoverFrames
    ensures Run(c, Init(c), es[..i]).left > k <==> SpeechWithin(c, es, i, c.hangoverFrames - k)
    decreases i
  {
    if i > 0 {
      assert es[..i][..i - 1] == es[..i - 1];
      var before := Run(c, Init(c), es[..i - 1]);
      if TagAt(c, es, i - 1) == Speech {
        assert Run(c, Init(c), es[..i]).left == c.hangoverFrames;
        assert SpeechWithin(c, es, i, c.hangoverFrames - k);
      } else {
        if k + 1 < c.hangoverFrames {
          CountdownIsWindow(c, es, i - 1, k + 1);
        } else {
          CountdownAtMost(c, es, i - 1);
        }
        WindowSlides(c, es, i, c.hangoverFrames - k);
      }
    }
  }

  lemma {:induction false} CountdownAtMost(c: Config, es: seq<Uint32>, i: nat)
    requires i <= |es|
    ensures Run(c, Init(c), es[..i]).left <= c.hangoverFrames
  {
    if i > 0 {
      assert es[..i][..i - 1] == es[..i - 1];
      CountdownAtMost(c, es, i - 1);
    }
  }

  lemma WindowSlides(c: Config, es: seq<Uint32>, i: nat, n: nat)
    requires 0 < i <= |es| && 0 < n && TagAt(c, es, i - 1) != Speech
    ensures SpeechWithin(c, es, i, n) <==> SpeechWithin(c, es, i - 1, n - 1)
  {
    if SpeechWithin(c, es, i, n) {
      var j :| 0 <= j < i && i - j <= n && TagAt(c, es, j) == Speech;
      assert i - 1 - j <= n - 1;
    }
    if SpeechWithin(c, es, i - 1, n - 1) {
      var j :| 0 <= j < i - 1 && i - 1 - j <= n - 1 && TagAt(c, es, j) == Speech;
      assert i - j <= n;
    }
  }

  /** The tag of every frame of every run, without mentioning the countdown. */
  lemma TagIsWindowed(c: Config, es: seq<Uint32>, i: nat)
    requires i < |es|
    ensures TagAt(c, es, i) ==
            if es[i] > Threshold(c, Run(c, Init(c), es[..i])) then Speech
            else if SpeechWithin(c, es, i, c.hangoverFrames) then Hangover
            else GapMarker
  {
    if c.hangoverFrames > 0 {
      CountdownIsWindow(c, es, i, 0);
    } else {
      CountdownAtMost(c, es, i);
    }
  }

  // ---- Noise floor ----

  /** What FrameEnergy can produce. */
  ghost predicate Energies(es: seq<Uint32>) {
    forall i :: 0 <= i < |es| ==> es[i] <= MAX_ENERGY
  }

  lemma {:induction false} FloorBounded(c: Config, s: State, es: seq<Uint32>)
    requires s.noiseFloor <= MAX_ENERGY
    requires Energies(es)
    ensures Run(c, s, es).noiseFloor <= MAX_ENERGY
  {
    if es != [] {
      FloorBounded(c, s, es[..|es| - 1]);
      MovesBetween(Run(c, s, es[..|es| - 1]).noiseFloor, es[|es| - 1]);
    }
  }

  /** With the device's multiplier the threshold product never wraps, on any audio. */
  lemma ThresholdNeverWraps(es: seq<Uint32>)
    requires Energies(es)
    ensures var s := Run(DEVICE, Init(DEVICE), es);
            Threshold(DEVICE, s) == if s.noiseFloor * 3 < 10000 then 10000 else s.noiseFloor * 3
  {
    FloorBounded(DEVICE, Init(DEVICE), es);
    hide Run, Init;
    TripleFits(Run(DEVICE, Init(DEVICE), es).noiseFloor);
  }

  lemma TripleFits(n: Uint32)
    requires n <= MAX_ENERGY
    ensures (n * 3) % 0x1_0000_0000 == n * 3
  {
  }

  function Constant(e: Uint32, n: nat): seq<Uint32> { seq(n, _ => e) }

  lemma {:induction false} RunSplits(c: Config, s: State, xs: seq<Uint32>, ys: seq<Uint32>)
    ensures Run(c, s, xs + ys) == Run(c, Run(c, s, xs), ys)
  {
    if ys == [] {
      assert xs + ys == xs;
    } else {
      RunSplits(c, s, xs, ys[..|ys| - 1]);
      assert (xs + ys)[..|xs + ys| - 1] == xs + ys[..|ys| - 1];
    }
  }

  lemma ThresholdAboveFloor(c: Config, s: State)
    requires s.noiseFloor <= MAX_ENERGY && 1 <= c.multiplier <= 3
    ensures s.noiseFloor <= Threshold(c, s)
  {
    assert s.noiseFloor <= s.noiseFloor * c.multiplier <= s.noiseFloor * 3;
  }

  /** A constant energy below the floor is tracked exactly: once the hangover has run
      out, the floor falls to it within noiseFloor - e further frames and stays. */
  lemma {:induction false} FloorFallsTo(c: Config, s: State, e: Uint32, n: nat)
    requires e <= s.noiseFloor <= MAX_ENERGY
    requires 1 <= c.multiplier <= 3
    requires s.left + (s.noiseFloor - e) <= n
    ensures Run(c, s, Constant(e, n)) == State(0, e)
    decreases n
  {
    if n > 0 {
      ThresholdAboveFloor(c, s);
      MovesBetween(s.noiseFloor, e);
      FloorFallsTo(c, Next(c, s, e), e, n - 1);
      assert Constant(e, n) == [e] + Constant(e, n - 1);
      RunSplits(c, s, [e], Constant(e, n - 1));
      assert [e][..0] == [];
    }
  }

  /** The rounding of the slow rise makes 1003 the last floor that nothing can lift. */
  lemma CanRiseIff(nf: Uint32)
    requires nf <= MAX_ENERGY
    ensures (exists e: Uint32 :: Moved(nf, e) > nf) <==> nf >= 1004
  {
    if nf >= 1004 {
      var e: Uint32 := nf + 501;
      assert Moved(nf, e) > nf;
    }
  }

  lemma {:induction false} FloorAbsorbed(c: Config, s: State, es: seq<Uint32>)
    requires s.noiseFloor <= 1003
    ensures Run(c, s, es).noiseFloor <= s.noiseFloor
  {
    if es != [] {
      FloorAbsorbed(c, s, es[..|es| - 1]);
      var t := Run(c, s, es[..|es| - 1]);
      MovesBetween(t.noiseFloor, es[|es| - 1]);
      CanRiseIff(t.noiseFloor);
    }
  }

  lemma QuietThreshold(s: State)
    requires s.noiseFloor <= 1003
    ensures Threshold(DEVICE, s) == 10000
  {
    assert s.noiseFloor * DEVICE.multiplier <= 3009;
  }

  /** Once the room has been quiet enough for the floor to reach 1003, the device's
      threshold is its constant minimum for ever, whatever follows. */
  lemma ThresholdFrozen(before: seq<Uint32>, after: seq<Uint32>)
    requires Run(DEVICE, Init(DEVICE), before).noiseFloor <= 1003
    ensures Threshold(DEVICE, Run(DEVICE, Init(DEVICE), before + after)) == 10000
  {
    var quiet := Run(DEVICE, Init(DEVICE), before);
    RunSplits(DEVICE, Init(DEVICE), before, after);
    FloorAbsorbed(DEVICE, quiet, after);
    QuietThreshold(Run(DEVICE, quiet, after));
  }

  // ---- What the numbers are ----

  /** The sum of squares, from single samples and concatenation. */
  lemma {:induction false} SumIs(xs: seq<int16>, ys: seq<int16>, x: int16)
    ensures SumOfSquares([]) == 0 && SumOfSquares([x]) == x as int * x as int
    ensures SumOfSquares(xs + ys) == SumOfSquares(xs) + SumOfSquares(ys)
  {
    assert [x][..0] == [];
    if ys == [] {
      assert xs + ys == xs;
    } else {
      var n := |ys| - 1;
      assert (xs + ys)[..|xs| + n] == xs + ys[..n];
      SumIs(xs, ys[..n], x);
    }
  }

  /** A frame's energy is the mean of those squares, rounded down; so a frame of one level
      has the square of that level. */
  lemma EnergyIs(pcm: seq<int16>)
    ensures pcm == [] ==> FrameEnergy(pcm) == 0
    ensures pcm != [] ==>
      |pcm| * FrameEnergy(pcm) <= SumOfSquares(pcm) < |pcm| * FrameEnergy(pcm) + |pcm|
  {
    hide SumOfSquares;
    if pcm != [] { DivisionIs(SumOfSquares(pcm), |pcm|); }
  }

  lemma DivisionIs(a: nat, n: nat)
    requires 0 < n
    ensures n * (a / n) <= a < n * (a / n) + n
  {
  }

  lemma {:induction false} LevelIs(x: int16, n: nat)
    requires 0 < n
    ensures FrameEnergy(Repeat(x, n)) == x as int * x as int
  {
    SumOfLevel(x, n);
    DivideExactly(x as int * x as int, n);
  }

  lemma {:induction false} SumOfLevel(x: int16, n: nat)
    ensures SumOfSquares(Repeat(x, n)) == n * (x as int * x as int)
  {
    if n > 0 {
      assert Repeat(x, n)[..n - 1] == Repeat(x, n - 1);
      SumOfLevel(x, n - 1);
    }
  }

  lemma DivideExactly(a: nat, n: nat)
    requires 0 < n
    ensures n * a / n == a
  {
    var q := n * a / n;
    DivisionIs(n * a, n);
    StepsUp(n, q, a);
    StepsUp(n, a, q);
  }

  lemma AddSteps(n: nat, a: nat, d: nat)
    ensures n * (a + 1 + d) == n * a + n + n * d && 0 <= n * d
  {
  }

  lemma StepsUp(n: nat, a: nat, b: nat)
    ensures a < b ==> n * a + n <= n * b
  {
    if a < b { AddSteps(n, a, b - a - 1); }
  }

  /** On the device a frame is speech exactly when its energy is above 10000 and above three
      times the floor. */
  lemma SpeechIff(es: seq<Uint32>, i: nat)
    requires Energies(es) && i < |es|
    ensures TagAt(DEVICE, es, i) == Speech <==>
      es[i] > 10000 && es[i] > 3 * Run(DEVICE, Init(DEVICE), es[..i]).noiseFloor
    ensures Run(DEVICE, Init(DEVICE), []).noiseFloor == 10000
  {
    ThresholdNeverWraps(es[..i]);
    hide Threshold;
  }

  /** The floor moves only on a silent frame: down by two percent of the way, rounded up; up
      by a fifth of a percent, rounded down, and only to energies below one and a half
      times the floor. */
  lemma FloorMoves(c: Config, s: State, e: Uint32)
    ensures var nf, now, silent := s.noiseFloor, Next(c, s, e).noiseFloor, Tag(c, s, e) == GapMarker;
      && (!silent ==> now == nf)
      && (silent && e < nf ==> 1311 * (nf - e) <= 65536 * (nf - now) < 1311 * (nf - e) + 65536)
      && (silent && e >= nf && 2 * (e + 1) <= 3 * nf ==>
            131 * (e - nf) - 65536 < 65536 * (now - nf) <= 131 * (e - nf))
      && (silent && e >= nf && 2 * (e + 1) > 3 * nf ==> now == nf)
  {
    MovesBetween(s.noiseFloor, e);
    hide Threshold;
  }
}
