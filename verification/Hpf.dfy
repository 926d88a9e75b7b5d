/** The wind-cut biquad of hpf.c, in exact integers.

    The specification is a fold of `Step` over the input samples; the class below
    is the C code on int16/int32/int64, proved equal to that fold. The safety
    argument tracks v = y - b0*x. Because b0 + b1 + b2 = 0 the recursion of v is
    driven by a small multiple of x, and the quadratic form `Energy` turns one
    step into a complex multiplication (`EnergyRotates`) that contracts it by
    14825/16384, plus a bounded input. */
module Hpf {
  import opened CTypes

  const B0 := 15585
  const B1 := -31170
  const B2 := 15585
  const A1 := -31131
  const A2 := 14825
  const Q14 := 16384

  /** Filter memory: the last two inputs (Q0) and the last two outputs (Q14). */
  datatype State = State(x1: int, x2: int, y1: int, y2: int)

  const Zero := State(0, 0, 0, 0)

  /** The Q28 accumulator of one sample. */
  function Acc(s: State, x0: int): int {
    (B0 * x0 + B1 * s.x1 + B2 * s.x2) * Q14 - A1 * s.y1 - A2 * s.y2
  }

  /** One sample; `/` floors here, as the arithmetic shift does. */
  function Step(s: State, x0: int): State {
    State(x0, s.x1, Acc(s, x0) / Q14, s.y1)
  }

  /** The sample written back for a state reached by `Step`. */
  function Output(s: State): int16 {
    SatInt16((s.y1 + 8192) / Q14)
  }

  function Run(s: State, xs: seq<int16>): State {
    if xs == [] then s else Step(Run(s, xs[..|xs| - 1]), xs[|xs| - 1] as int)
  }

  function Outputs(s: State, xs: seq<int16>): (ys: seq<int16>)
    ensures |ys| == |xs|
  {
    if xs == [] then []
    else Outputs(s, xs[..|xs| - 1]) + [Output(Run(s, xs))]
  }

  // ---- The quadratic form ----

  const DELTA := 2432039          // 4 * A2 * Q14 - A1 * A1
  const RADIUS := 1635000000000   // reachable states satisfy Energy <= RADIUS^2
  const Y_MAX := 1560000000       // ... and |y| <= Y_MAX < 2^31

  function V(s: State): int { s.y1 - B0 * s.x1 }

  function D(s: State): int {
    2 * (-A2 * (s.y2 - B0 * s.x2) + B0 * 1559 * s.x2) - A1 * V(s)
  }

  function Energy(d: int, v: int): int { d * d + DELTA * (v * v) }

  predicate Bounded(s: State) {
    && -0x8000 <= s.x1 < 0x8000
    && -0x8000 <= s.x2 < 0x8000
    && -Y_MAX <= s.y1 <= Y_MAX
    && -Y_MAX <= s.y2 <= Y_MAX
    && Energy(D(s), V(s)) <= RADIUS * RADIUS
  }

  lemma SquareMonotone(a: int, b: int)
    requires 0 <= b
    requires a * a <= b * b
    ensures -b <= a <= b
  {
    if a > b { assert false; }
    if a < -b { assert false; }
  }

  lemma SquareBound(a: int, b: int)
    requires -b <= a <= b
    ensures a * a <= b * b
  {
    if a >= 0 { assert a * a <= a * b <= b * b; }
    else { var c := -a; assert c * c <= c * b <= b * b; assert c * c == a * a; }
  }

  /** The inner product of two vectors of the form `Energy`. */
  function Inner(a: int, b: int, c: int, d: int): int { a * c + DELTA * (b * d) }

  lemma SquareOfProduct(a: int, c: int)
    ensures (a * a) * (c * c) == (a * c) * (a * c)
  {
  }

  lemma ExpandEnergies(a: int, b: int, c: int, d: int)
    ensures (a + DELTA * b) * (c + DELTA * d) == a * c + DELTA * (a * d + b * c) + DELTA * DELTA * (b * d)
  {
  }

  lemma ExpandSquares(p: int, q: int, s: int, t: int)
    requires p * q == s * t
    ensures (p + DELTA * q) * (p + DELTA * q) + DELTA * ((s - t) * (s - t))
         == p * p + DELTA * (s * s + t * t) + DELTA * DELTA * (q * q)
  {
    ExpandEnergies(p, q, p, q);
    assert (s - t) * (s - t) == s * s - 2 * (s * t) + t * t;
  }

  lemma LagrangeIdentity(a: int, b: int, c: int, d: int)
    ensures Energy(a, b) * Energy(c, d)
         == Inner(a, b, c, d) * Inner(a, b, c, d) + DELTA * ((a * d - b * c) * (a * d - b * c))
  {
    ExpandEnergies(a * a, b * b, c * c, d * d);
    SquareOfProduct(a, c);
    SquareOfProduct(a, d);
    SquareOfProduct(b, c);
    SquareOfProduct(b, d);
    assert (a * c) * (b * d) == (a * d) * (b * c);
    ExpandSquares(a * c, b * d, a * d, b * c);
  }

  /** The triangle inequality of the norm sqrt(Energy), in integers. */
  lemma Triangle(a: int, b: int, r: int, c: int, d: int, s: int)
    requires 0 <= r && 0 <= s
    requires Energy(a, b) <= r * r
    requires Energy(c, d) <= s * s
    ensures Energy(a + c, b + d) <= (r + s) * (r + s)
  {
    var i := Inner(a, b, c, d);
    assert i <= r * s by {
      LagrangeIdentity(a, b, c, d);
      NonNegative(a, b);
      NonNegative(c, d);
      var w := a * d - b * c;
      assert w * w >= 0;
      assert i * i <= Energy(a, b) * Energy(c, d);
      assert Energy(a, b) * Energy(c, d) <= (r * r) * (s * s) by {
        MulMonotone(Energy(a, b), r * r, Energy(c, d), s * s);
      }
      assert (r * r) * (s * s) == (r * s) * (r * s);
      SquareMonotone(i, r * s);
    }
    assert Energy(a + c, b + d) == Energy(a, b) + Energy(c, d) + 2 * i by {
      assert (a + c) * (a + c) == a * a + c * c + 2 * (a * c);
      assert (b + d) * (b + d) == b * b + d * d + 2 * (b * d);
    }
    assert (r + s) * (r + s) == r * r + s * s + 2 * (r * s);
  }

  lemma NonNegative(a: int, b: int)
    ensures 0 <= Energy(a, b)
  {
    assert 0 <= a * a;
    assert 0 <= b * b;
  }

  lemma MulMonotone(a: int, b: int, c: int, d: int)
    requires 0 <= a <= b && 0 <= c <= d
    ensures a * c <= b * d
  {
    assert a * c <= b * c <= b * d;
  }

  /** Undriven, one step of the recursion is a complex multiplication. */
  lemma EnergyRotates(d: int, v: int)
    ensures Energy(-A1 * d - DELTA * v, d - A1 * v) == 4 * Q14 * A2 * Energy(d, v)
  {
    var k := DELTA;
    var m := -A1;
    assert (m * d - k * v) * (m * d - k * v) == m * m * (d * d) - 2 * m * k * (d * v) + k * k * (v * v);
    assert (d + m * v) * (d + m * v) == d * d + 2 * m * (d * v) + m * m * (v * v);
    assert m * m + k == 4 * Q14 * A2;
  }

  /** One driven step, scaled by 2*Q14: what `Step` does to (D, V) exactly, with
      e in [0, Q14) the remainder the shift drops. */
  lemma StepDecomposes(s: State, x0: int) returns (e: int)
    ensures 0 <= e < Q14
    ensures var t := Step(s, x0);
            && 32768 * V(t) == (D(s) - A1 * V(s)) + (-51025290 * s.x1 - 2 * e)
            && 32768 * D(t) == (-A1 * D(s) - DELTA * V(s)) + (3860872050 * s.x1 + 2 * A1 * e)
  {
    var t := Step(s, x0);
    var acc := Acc(s, x0);
    e := acc % Q14;
    assert acc == Q14 * t.y1 + e;
  }

  lemma DriveBounded(x: int, e: int)
    requires -0x8000 <= x < 0x8000 && 0 <= e < Q14
    ensures Energy(3860872050 * x + 2 * A1 * e, -51025290 * x - 2 * e) <= 2611000000000000 * 2611000000000000
  {
    SquareBound(3860872050 * x + 2 * A1 * e, 128000000000000);
    SquareBound(-51025290 * x - 2 * e, 1672030000000);
  }

  /** The invariant step: from any bounded state and any int16 input the accumulator
      stays under 2^46, the new output fits int32 with room for the rounding add, and
      the state is bounded again. */
  lemma StepBounded(s: State, x0: int)
    requires Bounded(s) && -0x8000 <= x0 < 0x8000
    ensures Bounded(Step(s, x0))
    ensures -0x4000_0000_0000 < Acc(s, x0) < 0x4000_0000_0000
  {
    var t := Step(s, x0);
    var e := StepDecomposes(s, x0);
    DriveBounded(s.x1, e);
    EnergyStays(D(s), V(s), 3860872050 * s.x1 + 2 * A1 * e, -51025290 * s.x1 - 2 * e, D(t), V(t));
    OutputInRange(t);
    assert Acc(s, x0) == Q14 * t.y1 + Acc(s, x0) % Q14;
  }

  /** A driven step from within the radius stays within it. */
  lemma EnergyStays(d: int, v: int, gd: int, gv: int, d': int, v': int)
    requires Energy(d, v) <= RADIUS * RADIUS && Energy(gd, gv) <= 2611000000000000 * 2611000000000000
    requires 32768 * d' == (-A1 * d - DELTA * v) + gd
    requires 32768 * v' == (d - A1 * v) + gv
    ensures Energy(d', v') <= RADIUS * RADIUS
  {
    EnergyContracts(d, v, gd, gv, d', v', RADIUS, 2611000000000000);
    assert 31171 * RADIUS + 2611000000000000 <= 32768 * RADIUS;
    DivideEnergy(d', v', 32768, 31171 * RADIUS + 2611000000000000, RADIUS);
  }

  /** The scaled contraction: a driven step takes radius r to (31171*r + g) / 32768. */
  lemma EnergyContracts(d: int, v: int, gd: int, gv: int, d': int, v': int, r: int, g: int)
    requires 0 <= r && 0 <= g
    requires Energy(d, v) <= r * r && Energy(gd, gv) <= g * g
    requires 32768 * d' == (-A1 * d - DELTA * v) + gd
    requires 32768 * v' == (d - A1 * v) + gv
    ensures Energy(32768 * d', 32768 * v') <= (31171 * r + g) * (31171 * r + g)
  {
    EnergyRotates(d, v);
    assert (31171 * r) * (31171 * r) == 31171 * 31171 * (r * r);
    assert 0 <= r * r;
    Triangle(-A1 * d - DELTA * v, d - A1 * v, 31171 * r, gd, gv, g);
  }

  lemma DivideEnergy(d: int, v: int, k: int, r: int, q: int)
    requires 0 < k && 0 <= r <= k * q
    requires Energy(k * d, k * v) <= r * r
    ensures Energy(d, v) <= q * q
  {
    assert Energy(k * d, k * v) == (k * k) * Energy(d, v) by {
      assert (k * d) * (k * d) == (k * k) * (d * d);
      assert (k * v) * (k * v) == (k * k) * (v * v);
    }
    assert r * r <= (k * q) * (k * q) by { SquareBound(r, k * q); }
    assert (k * q) * (k * q) == (k * k) * (q * q);
    if Energy(d, v) > q * q {
      MulStrict(k * k, q * q, Energy(d, v));
      assert false;
    }
  }

  lemma MulStrict(k: int, a: int, b: int)
    requires 0 < k && a < b
    ensures k * a < k * b
  {
  }

  lemma OutputInRange(t: State)
    requires Energy(D(t), V(t)) <= RADIUS * RADIUS && -0x8000 <= t.x1 < 0x8000
    ensures -Y_MAX <= t.y1 <= Y_MAX
  {
    assert D(t) * D(t) >= 0;
    assert V(t) * V(t) <= 1049000000 * 1049000000;
    SquareMonotone(V(t), 1049000000);
  }

  // ---- Runs ----

  lemma {:induction false} RunBounded(s: State, xs: seq<int16>)
    requires Bounded(s)
    ensures Bounded(Run(s, xs))
  {
    if xs != [] {
      RunBounded(s, xs[..|xs| - 1]);
      StepBounded(Run(s, xs[..|xs| - 1]), xs[|xs| - 1] as int);
    }
  }

  lemma RunBoundedAs(s: State, xs: seq<int16>, t: State)
    requires Bounded(s) && t == Run(s, xs)
    ensures Bounded(t)
  {
    RunBounded(s, xs);
  }

  /** What one more sample of a stream adds. */
  lemma RunNext(s: State, xs: seq<int16>, i: nat)
    requires i < |xs|
    ensures Run(s, xs[..i + 1]) == Step(Run(s, xs[..i]), xs[i] as int)
    ensures Outputs(s, xs[..i + 1]) == Outputs(s, xs[..i]) + [Output(Run(s, xs[..i + 1]))]
  {
    assert xs[..i + 1][..i] == xs[..i];
  }

  /** No int16 stream of any length, from the initial state, drives the accumulator to
      2^46, the Q14 output out of int32, or the rounding add past int32. */
  lemma NeverOverflows(xs: seq<int16>, x0: int16)
    ensures Bounded(Run(Zero, xs))
    ensures -0x4000_0000_0000 < Acc(Run(Zero, xs), x0 as int) < 0x4000_0000_0000
    ensures var y0 := Step(Run(Zero, xs), x0 as int).y1;
            -0x8000_0000 <= y0 && y0 + 8192 < 0x8000_0000
  {
    RunBounded(Zero, xs);
    StepBounded(Run(Zero, xs), x0 as int);
  }

  /** Splitting a stream into calls changes neither the memory nor the output. */
  lemma {:induction false} RunSplits(s: State, xs: seq<int16>, ys: seq<int16>)
    ensures Run(s, xs + ys) == Run(Run(s, xs), ys)
    ensures Outputs(s, xs + ys) == Outputs(s, xs) + Outputs(Run(s, xs), ys)
  {
    if ys == [] {
      assert xs + ys == xs;
    } else {
      RunSplits(s, xs, ys[..|ys| - 1]);
      assert (xs + ys)[..|xs + ys| - 1] == xs + ys[..|ys| - 1];
    }
  }

  /** The arithmetic of one loop iteration of the C code: every intermediate is an int64
      (the accumulator) or an int32, and none overflows. */
  method Sample(x0: int16, p1: int32, p2: int32, q1: int32, q2: int32,
                ghost start: State, ghost past: seq<int16>)
    returns (y0: int32)
    requires Bounded(start)
    requires State(p1 as int, p2 as int, q1 as int, q2 as int) == Run(start, past)
    ensures y0 as int == Step(Run(start, past), x0 as int).y1
    ensures y0 as int + 8192 < 0x8000_0000
  {
    ghost var s := Run(start, past);
    RunBounded(start, past);
    StepBounded(s, x0 as int);
    var acc: int64 := ((B0 as int64) * (x0 as int64)
                     + (B1 as int64) * (p1 as int64)
                     + (B2 as int64) * (p2 as int64)) * (Q14 as int64);
    acc := acc - (A1 as int64) * (q1 as int64);
    acc := acc - (A2 as int64) * (q2 as int64);
    assert acc as int == Acc(s, x0 as int);
    y0 := (acc / (Q14 as int64)) as int32;
  }

  /** The C code. */
  class Filter {
    var x1: int32
    var x2: int32
    var y1: int32
    var y2: int32

    ghost function Memory(): State
      reads this
    {
      State(x1 as int, x2 as int, y1 as int, y2 as int)
    }

    ghost predicate Valid()
      reads this
    {
      Bounded(Memory())
    }

    constructor ()
      ensures Valid() && Memory() == Zero
    {
      x1, x2, y1, y2 := 0, 0, 0, 0;
    }

    method Process(pcm: array<int16>)
      requires Valid()
      modifies this, pcm
      ensures Valid()
      ensures Memory() == Run(old(Memory()), old(pcm[..]))
      ensures pcm[..] == Outputs(old(Memory()), old(pcm[..]))
    {
      ghost var input := pcm[..];
      ghost var before := Memory();
      var p1, p2, q1, q2 := x1, x2, y1, y2;
      for i := 0 to pcm.Length
        invariant State(p1 as int, p2 as int, q1 as int, q2 as int) == Run(before, input[..i])
        invariant pcm[..i] == Outputs(before, input[..i])
        invariant forall k :: i <= k < pcm.Length ==> pcm[k] == input[k]
      {
        RunNext(before, input, i);
        var x0 := pcm[i];
        var y0 := Sample(x0, p1, p2, q1, q2, before, input[..i]);
        var z := SatInt16(((y0 + 8192) / 16384) as int);
        assert z == Output(Run(before, input[..i + 1]));
        ghost var done := pcm[..i];
        pcm[i] := z;
        assert pcm[..i + 1] == done + [z];
        p2 := p1;
        p1 := x0 as int32;
        q2 := q1;
        q1 := y0;
      }
      assert input[..pcm.Length] == input;
      assert pcm[..pcm.Length] == pcm[..];
      x1, x2, y1, y2 := p1, p2, q1, q2;
      RunBoundedAs(before, input, Memory());
    }
  }

  // ---- A constant input is silenced exactly ----

  /** `Step` with b0 + b1 + b2 = 0 and equal inputs: the recursion runs undriven but
      for the dropped remainder. `Free` is `D` without the input. */
  function Free(s: State): int { -2 * A2 * s.y2 - A1 * s.y1 }

  lemma ConstantStep(s: State, r: int)
    requires s.x1 == s.x2 && 0 <= r
    requires Energy(Free(s), s.y1) <= r * r
    ensures var t := Step(s, s.x1);
            t.x1 == s.x1 && t.x2 == s.x1 && Energy(Free(t), t.y1) <= Shrink(r) * Shrink(r)
  {
    var t := Step(s, s.x1);
    var acc := Acc(s, s.x1);
    var e := acc % Q14;
    assert acc == Q14 * t.y1 + e;
    assert acc == -A1 * s.y1 - A2 * s.y2;
    SquareBound(2 * A1 * e, 62262 * Q14);
    SquareBound(-2 * e, 2 * Q14);
    EnergyContracts(Free(s), s.y1, 2 * A1 * e, -2 * e, Free(t), t.y1, r, GRAIN);
    DivideEnergy(Free(t), t.y1, 32768, 31171 * r + GRAIN, Shrink(r));
  }

  const GRAIN := 1022000000  // bounds the remainder's contribution to the norm

  /** What one undriven step makes of a norm bound. */
  function Shrink(r: nat): nat { (31171 * r + GRAIN) / 32768 + 1 }

  function Shrunk(r: nat, n: nat): nat
    decreases n
  {
    if n == 0 then r else Shrunk(Shrink(r), n - 1)
  }

  lemma {:induction false} ShrunkSplits(r: nat, m: nat, n: nat)
    ensures Shrunk(r, m + n) == Shrunk(Shrunk(r, m), n)
    decreases m
  {
    if m > 0 { ShrunkSplits(Shrink(r), m - 1, n); }
  }

  /** A bound at most q + n*(q/22) falls to q within n steps, and stays there. */
  lemma {:induction false} FallsTo(r: nat, q: nat, n: nat)
    requires QUIET <= q
    requires 22 * r <= (22 + n) * q
    ensures Shrunk(r, n) <= q
    decreases n
  {
    if n > 0 {
      assert 22 * Shrink(r) <= (22 + n - 1) * q by {
        assert (22 + n - 1) * q == (22 + n) * q - q;
        if r <= q {
          assert Shrink(r) <= q;
          assert (22 + n - 1) * q >= 22 * q;
        } else {
          assert 22 * Shrink(r) <= 22 * r - q;
        }
      }
      FallsTo(Shrink(r), q, n - 1);
    }
  }

  function Doubled(q: nat, k: nat): nat { if k == 0 then q else 2 * Doubled(q, k - 1) }

  lemma DoubledGrows(q: nat, k: nat)
    ensures q <= Doubled(q, k)
  {
  }

  lemma Doubled4(q: nat, k: nat)
    ensures Doubled(q, k + 4) == 16 * Doubled(q, k)
  {
    assert Doubled(q, k + 2) == 4 * Doubled(q, k);
  }

  lemma NoSteps(r: nat, q: nat)
    ensures Shrunk(r, 0) == r && Doubled(q, 0) == q
  {
  }

  function After22(r: nat): nat { Shrunk(r, 22) }

  lemma Split22(r: nat, k: nat)
    ensures Shrunk(r, 22 * (k + 1)) == Shrunk(After22(r), 22 * k)
  {
    ShrunkSplits(r, 22, 22 * k);
  }

  lemma HalvesIn22(r: nat, k: nat)
    requires r <= Doubled(QUIET, k + 1)
    ensures After22(r) <= Doubled(QUIET, k)
  {
    DoubledGrows(QUIET, k);
    hide Shrunk;
    FallsTo(r, Doubled(QUIET, k), 22);
  }

  lemma {:induction false} HalvesEvery22(r: nat, k: nat)
    requires r <= Doubled(QUIET, k)
    ensures Shrunk(r, 22 * k) <= QUIET
    decreases k
  {
    hide Shrunk, Doubled, After22;
    if k == 0 {
      NoSteps(r, QUIET);
    } else {
      HalvesIn22(r, k - 1);
      HalvesEvery22(After22(r), k - 1);
      Split22(r, k - 1);
    }
  }

  lemma QuietFrom(r: nat, m: nat)
    requires r <= START
    ensures Shrunk(r, 506 + m) <= QUIET
  {
    Doubled4(QUIET, 0);
    Doubled4(QUIET, 4);
    Doubled4(QUIET, 8);
    Doubled4(QUIET, 12);
    Doubled4(QUIET, 16);
    assert Doubled(QUIET, 23) == 8 * Doubled(QUIET, 20);
    HalvesEvery22(r, 23);
    ShrunkSplits(r, 506, m);
    FallsTo(Shrunk(r, 506), QUIET, m);
  }

  const QUIET := 12000000    // a norm this small rounds to an output of 0
  const START := 96000000000000

  lemma {:induction false} ConstantRun(s: State, x: int16, n: nat, r: nat)
    requires s.x1 == s.x2 == x as int
    requires Energy(Free(s), s.y1) <= r * r
    ensures var t := Run(s, Repeat(x, n));
            t.x1 == t.x2 == x as int && Energy(Free(t), t.y1) <= Shrunk(r, n) * Shrunk(r, n)
    decreases n
  {
    if n > 0 {
      ConstantStep(s, r);
      ConstantRun(Step(s, x as int), x, n - 1, Shrink(r));
      RunSplits(s, [x], Repeat(x, n - 1));
      assert [x] + Repeat(x, n - 1) == Repeat(x, n);
      assert Run(s, [x]) == Step(s, x as int) by { assert [x][..0] == []; }
    }
  }

  lemma QuietIsZero(s: State, r: nat)
    requires r <= QUIET && Energy(Free(s), s.y1) <= r * r
    ensures Output(s) == 0
  {
    assert Free(s) * Free(s) >= 0;
    SquareBound(r, QUIET);
    assert s.y1 * s.y1 <= 7900 * 7900;
    SquareMonotone(s.y1, 7900);
  }

  lemma StartBound(s: State)
    requires Bounded(s)
    ensures Energy(Free(s), s.y1) <= START * START
  {
    SquareBound(Free(s), 95000000000000);
    SquareBound(s.y1, Y_MAX);
  }

  lemma TwoEqual(xs: seq<int16>, x: int16)
    ensures var s := Run(Zero, xs + Repeat(x, 2)); s.x1 == s.x2 == x as int
  {
    var ys := xs + Repeat(x, 2);
    var zs := ys[..|ys| - 1];
    assert zs[|zs| - 1] == x;
  }

  /** What the repository's DC test asks for approximately holds exactly: after any
      stream, 508 equal samples (32 ms) silence the output, and it stays silent for as
      long as the input does not change. */
  lemma ConstantInputIsSilenced(xs: seq<int16>, x: int16, n: nat)
    requires 508 <= n
    ensures Output(Run(Zero, xs + Repeat(x, n))) == 0
  {
    var s := Run(Zero, xs + Repeat(x, 2));
    assert xs + Repeat(x, n) == (xs + Repeat(x, 2)) + Repeat(x, n - 2);
    RunSplits(Zero, xs + Repeat(x, 2), Repeat(x, n - 2));
    TwoEqual(xs, x);
    RunBounded(Zero, xs + Repeat(x, 2));
    StartBound(s);
    ConstantRun(s, x, n - 2, START);
    QuietFrom(START, n - 508);
    QuietIsZero(Run(s, Repeat(x, n - 2)), Shrunk(START, n - 2));
  }

  // ---- What is written back ----

  /** The output is the Q14 value rounded to the nearest integer, or the end of int16 it
      lies beyond. */
  lemma OutputRounds(s: State)
    ensures var z := Output(s) as int;
      && (z > -0x8000 ==> 16384 * z - 8192 <= s.y1)
      && (z < 0x7fff ==> s.y1 < 16384 * z + 8192)
      && (z == -0x8000 ==> s.y1 < 16384 * -0x8000 + 8192)
      && (z == 0x7fff ==> 16384 * 0x7fff - 8192 <= s.y1)
  {
  }

  lemma {:induction false} OutputsAre(s: State, xs: seq<int16>, i: nat)
    requires i < |xs|
    ensures Outputs(s, xs)[i] == Output(Run(s, xs[..i + 1]))
  {
    var n := |xs| - 1;
    if i < n {
      OutputsAre(s, xs[..n], i);
      assert xs[..n][..i + 1] == xs[..i + 1];
    } else {
      assert xs[..i + 1] == xs;
    }
  }

  /** Sample i of a stream, and 0 before it. */
  function At(xs: seq<int16>, i: int): int { if 0 <= i < |xs| then xs[i] as int else 0 }

  /** The filter's output in Q14 after i samples, and 0 before. */
  function Q14At(xs: seq<int16>, i: int): int { if 0 < i <= |xs| then Run(Zero, xs[..i]).y1 else 0 }

  lemma {:induction false} MemoryIs(xs: seq<int16>, i: nat)
    requires i <= |xs|
    ensures Run(Zero, xs[..i]) == State(At(xs, i - 1), At(xs, i - 2), Q14At(xs, i), Q14At(xs, i - 1))
  {
    if i > 0 {
      MemoryIs(xs, i - 1);
      RunNext(Zero, xs, i - 1);
    }
  }

  /** The difference equation, on the stream itself: with the 180 Hz coefficients, sample i
      of the output is the nearest integer to the filter's value, or the end of int16 it
      lies beyond, and that value obeys the recurrence to within one unit of 2^-14. */
  lemma DifferenceEquation(xs: seq<int16>, i: nat)
    requires i < |xs|
    ensures var y, z := Q14At(xs, i + 1), Outputs(Zero, xs)[i] as int;
      var sum := 16384 * (15585 * At(xs, i) - 31170 * At(xs, i - 1) + 15585 * At(xs, i - 2))
                 + 31131 * Q14At(xs, i) - 14825 * Q14At(xs, i - 1);
      && 16384 * y <= sum < 16384 * y + 16384
      && (z > -0x8000 ==> 16384 * z - 8192 <= y) && (z < 0x7fff ==> y < 16384 * z + 8192)
  {
    MemoryIs(xs, i);
    RunNext(Zero, xs, i);
    OutputsAre(Zero, xs, i);
    OutputRounds(Run(Zero, xs[..i + 1]));
    hide Run, Outputs, Output;
  }

  /** So the first sample after a reset comes out at 15585/16384 of its size. */
  lemma FirstOutput(x: int16)
    ensures Outputs(Zero, [x])[0] as int == (15585 * x as int + 8192) / 16384
  {
    DifferenceEquation([x], 0);
    OutputsAre(Zero, [x], 0);
    assert [x][..1] == [x] && [x][..0] == [];
    assert Run(Zero, [x]) == Step(Zero, x as int);
  }
}
