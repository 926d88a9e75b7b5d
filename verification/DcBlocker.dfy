/** The one-pole DC blocker of dc_blocker.c: a fold of `Step` over the samples, the C
    loop on fixed-width integers proved equal to it, and what a constant input leaves. */
module DcBlocker {
  import opened CTypes

  const R_Q15 := 32604

  datatype State = State(x: int16, y: int16)

  const Zero := State(0, 0)

  /** The 32-bit sum before saturation; `/` floors, as the arithmetic shift does. */
  function Sum(s: State, x: int16): int {
    x as int - s.x as int + (R_Q15 * s.y as int) / 32768
  }

  function Step(s: State, x: int16): State {
    State(x, SatInt16(Sum(s, x)))
  }

  function Run(s: State, xs: seq<int16>): State
    decreases xs
  {
    if xs == [] then s else Run(Step(s, xs[0]), xs[1..])
  }

  function Outputs(s: State, xs: seq<int16>): (ys: seq<int16>)
    ensures |ys| == |xs|
    decreases xs
  {
    if xs == [] then [] else [Step(s, xs[0]).y] + Outputs(Step(s, xs[0]), xs[1..])
  }

  /** Splitting a stream into frames changes neither the memory nor the output. */
  lemma {:induction false} RunSplits(s: State, xs: seq<int16>, ys: seq<int16>)
    ensures Run(s, xs + ys) == Run(Run(s, xs), ys)
    ensures Outputs(s, xs + ys) == Outputs(s, xs) + Outputs(Run(s, xs), ys)
    decreases xs
  {
    if xs == [] {
      assert xs + ys == ys;
    } else {
      assert (xs + ys)[1..] == xs[1..] + ys;
      RunSplits(Step(s, xs[0]), xs[1..], ys);
    }
  }

  lemma {:induction false} OutputsAre(s: State, xs: seq<int16>, i: nat)
    requires i < |xs|
    ensures Outputs(s, xs)[i] == Run(s, xs[..i + 1]).y && Run(s, xs[..i + 1]).x == xs[i]
    decreases xs
  {
    assert xs[..i + 1][1..] == xs[1..][..i];
    if i > 0 {
      OutputsAre(Step(s, xs[0]), xs[1..], i - 1);
    }
  }

  /** The difference equation, on the stream itself: each output is the step of the input
      plus 32604/32768 of the output before, rounded down and held within int16. */
  lemma DifferenceEquation(xs: seq<int16>, i: nat)
    requires i < |xs|
    ensures var ys := Outputs(Zero, xs);
      var x0, y0 := if i == 0 then 0 else xs[i - 1] as int, if i == 0 then 0 else ys[i - 1] as int;
      var step, y := xs[i] as int - x0, ys[i] as int;
      && (-0x8000 < y < 0x7fff ==> 32768 * (y - step) <= 32604 * y0 < 32768 * (y - step) + 32768)
      && (y == 0x7fff ==> 32604 * y0 >= 32768 * (y - step))
      && (y == -0x8000 ==> 32604 * y0 < 32768 * (y - step) + 32768)
  {
    hide Run, Outputs, Step;
    OutputsAre(Zero, xs, i);
    if i > 0 {
      OutputsAre(Zero, xs, i - 1);
    } else {
      NothingRun(xs);
    }
    RunNext(Zero, xs, i);
    StepIs(Run(Zero, xs[..i]), xs[i]);
  }

  lemma NothingRun(xs: seq<int16>)
    ensures Run(Zero, xs[..0]) == Zero
  {
  }

  lemma RunNext(s: State, xs: seq<int16>, i: nat)
    requires i < |xs|
    ensures Run(s, xs[..i + 1]) == Step(Run(s, xs[..i]), xs[i])
  {
    RunSplits(s, xs[..i], [xs[i]]);
    assert xs[..i] + [xs[i]] == xs[..i + 1];
  }

  lemma StepIs(s: State, x: int16)
    ensures var t, step := Step(s, x), x as int - s.x as int;
      var y := t.y as int;
      && t.x == x
      && (-0x8000 < y < 0x7fff ==> 32768 * (y - step) <= 32604 * s.y as int < 32768 * (y - step) + 32768)
      && (y == 0x7fff ==> 32604 * s.y as int >= 32768 * (y - step))
      && (y == -0x8000 ==> 32604 * s.y as int < 32768 * (y - step) + 32768)
  {
  }

  class Blocker {
    var xPrev: int16
    var yPrev: int16

    ghost function Memory(): State
      reads this
    {
      State(xPrev, yPrev)
    }

    constructor ()
      ensures Memory() == Zero
    {
      xPrev, yPrev := 0, 0;
    }

    method Process(pcm: array<int16>)
      modifies this, pcm
      ensures Memory() == Run(old(Memory()), old(pcm[..]))
      ensures pcm[..] == Outputs(old(Memory()), old(pcm[..]))
    {
      ghost var input := pcm[..];
      ghost var before := Memory();
      var xp, yp := xPrev, yPrev;
      for i := 0 to pcm.Length
        invariant State(xp, yp) == Run(before, input[..i])
        invariant pcm[..i] == Outputs(before, input[..i])
        invariant forall k :: i <= k < pcm.Length ==> pcm[k] == input[k]
      {
        var x := pcm[i];
        var y: int32 := (x as int32) - (xp as int32)
                      + (((R_Q15 as int32) * (yp as int32)) / 32768);
        var y16 := SatInt16(y as int);
        ghost var done := pcm[..i];
        pcm[i] := y16;
        assert pcm[..i + 1] == done + [y16];
        RunSplits(before, input[..i], [x]);
        assert input[..i + 1] == input[..i] + [x];
        xp := x;
        yp := y16;
      }
      assert input[..pcm.Length] == input;
      assert pcm[..pcm.Length] == pcm[..];
      xPrev, yPrev := xp, yp;
    }
  }

  // ---- A constant input ----

  function Abs(y: int16): nat { if y < 0 then -(y as int) else y as int }

  /** Where the output ends when the input stops changing at output y: positive values
      decay to 0, negative ones stop at -199, because the shift floors. */
  function Residual(y: int16): int16 {
    if y > 0 then 0 else if y < -199 then -199 else y
  }

  lemma ConstantStep(s: State)
    ensures var t := Step(s, s.x);
            && t.y as int == Sum(s, s.x)
            && Abs(t.y) <= Abs(s.y)
            && Residual(t.y) == Residual(s.y)
            && (t.y == s.y <==> s.y == Residual(s.y))
  {
  }

  /** Once the input is constant the output reaches its residual after at most |y|
      samples, exactly, and never moves again. */
  lemma {:induction false} ConstantRun(s: State, n: nat)
    requires Abs(s.y) <= n
    ensures Run(s, Repeat(s.x, n)) == State(s.x, Residual(s.y))
    decreases n
  {
    if n > 0 {
      var t := Step(s, s.x);
      ConstantStep(s);
      assert Repeat(s.x, n)[1..] == Repeat(s.x, n - 1);
      if t.y == s.y { StaysAtResidual(s, n - 1); } else { ConstantRun(t, n - 1); }
    }
  }

  lemma {:induction false} StaysAtResidual(s: State, n: nat)
    requires s.y == Residual(s.y)
    ensures Run(s, Repeat(s.x, n)) == s
  {
    if n > 0 {
      ConstantStep(s);
      assert Repeat(s.x, n)[1..] == Repeat(s.x, n - 1);
      StaysAtResidual(s, n - 1);
    }
  }

  /** After any stream, 32769 equal samples leave an output in [-199, 0] that a further
      equal sample does not change. */
  lemma ConstantInputSettles(xs: seq<int16>, x: int16, n: nat)
    requires 32769 <= n
    ensures var s := Run(Zero, xs + Repeat(x, n));
            -199 <= s.y <= 0 && Step(s, x) == s
  {
    var s := Run(Zero, xs + [x]);
    assert xs + Repeat(x, n) == (xs + [x]) + Repeat(x, n - 1);
    RunSplits(Zero, xs + [x], Repeat(x, n - 1));
    RunSplits(Zero, xs, [x]);
    ConstantRun(s, n - 1);
    ConstantStep(State(x, Residual(s.y)));
  }

  /** The residual is not always 0: -199 is reached from a single full-scale drop. */
  lemma ResidualIsReached(n: nat)
    requires 32768 <= n
    ensures Run(Zero, [-32768] + Repeat(-32768, n)).y == -199
  {
    RunSplits(Zero, [-32768], Repeat(-32768, n));
    assert Run(Zero, [-32768]) == State(-32768, -32768);
    ConstantRun(State(-32768, -32768), n);
  }
}
