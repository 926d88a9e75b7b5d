/** The poll-driven gesture classifier of button.c, judged against the whole trace of
    ticks it was fed. */
module Button {
  import opened CTypes

  const LONG_MS := 1000
  const VERY_LONG_MS := 6000
  const DOUBLE_GAP_MS := 400

  datatype Tick = Tick(pressed: bool, at: Uint32)
  datatype Gesture = NoGesture | Short | Double | Long | VeryLong
  datatype Mode = Idle | Pressed | WaitDouble
  datatype State = State(mode: Mode, anchor: Uint32, secondTap: bool)

  const Initial := State(Idle, 0, false)

  /** Time since the anchor, in uint32. */
  function Elapsed(s: State, now: Uint32): Uint32 { (now - s.anchor) % 0x1_0000_0000 }

  function Next(s: State, t: Tick): (State, Gesture) {
    var dt := Elapsed(s, t.at);
    match s.mode
    case Idle => if t.pressed then (State(Pressed, t.at, false), NoGesture) else (s, NoGesture)
    case Pressed =>
      if dt >= VERY_LONG_MS then (State(Idle, s.anchor, false), VeryLong)
      else if t.pressed then (s, NoGesture)
      else if dt >= LONG_MS then (State(Idle, s.anchor, false), Long)
      else if s.secondTap then (State(Idle, s.anchor, false), Double)
      else (State(WaitDouble, t.at, false), NoGesture)
    case WaitDouble =>
      if t.pressed then
        if dt <= DOUBLE_GAP_MS then (State(Pressed, t.at, true), NoGesture)
        else (State(Pressed, t.at, false), Short)
      else if dt > DOUBLE_GAP_MS then (State(Idle, s.anchor, false), Short)
      else (s, NoGesture)
  }

  class Classifier {
    var mode: Mode
    var anchorMs: Uint32
    var secondTap: bool

    function Now(): State
      reads this
    {
      State(mode, anchorMs, secondTap)
    }

    ghost predicate Valid()
      reads this
    {
      secondTap ==> mode == Pressed
    }

    constructor ()
      ensures Valid() && Now() == Initial
    {
      mode, anchorMs, secondTap := Idle, 0, false;
    }

    method Event(pressed: bool, nowMs: Uint32) returns (g: Gesture)
      requires Valid()
      modifies this
      ensures Valid()
      ensures (Now(), g) == Next(old(Now()), Tick(pressed, nowMs))
    {
      g := NoGesture;
      var dt := (nowMs - anchorMs) % 0x1_0000_0000;
      match mode {
        case Idle =>
          if pressed {
            anchorMs := nowMs;
            secondTap := false;
            mode := Pressed;
          }
        case Pressed =>
          if pressed {
            if dt >= VERY_LONG_MS {
              g := VeryLong;
              mode := Idle;
              secondTap := false;
            }
          } else if dt >= VERY_LONG_MS {
            g := VeryLong;
            mode := Idle;
            secondTap := false;
          } else if dt >= LONG_MS {
            g := Long;
            mode := Idle;
            secondTap := false;
          } else if secondTap {
            g := Double;
            mode := Idle;
            secondTap := false;
          } else {
            anchorMs := nowMs;
            mode := WaitDouble;
          }
        case WaitDouble =>
          if pressed {
            if dt <= DOUBLE_GAP_MS {
              anchorMs := nowMs;
              secondTap := true;
              mode := Pressed;
            } else {
              g := Short;
              anchorMs := nowMs;
              secondTap := false;
              mode := Pressed;
            }
          } else if dt > DOUBLE_GAP_MS {
            g := Short;
            mode := Idle;
            secondTap := false;
          }
      }
    }
  }

  // ---- Traces ----

  function After(ts: seq<Tick>): State {
    if ts == [] then Initial else Next(After(ts[..|ts| - 1]), ts[|ts| - 1]).0
  }

  /** What tick k returned. */
  function GestureAt(ts: seq<Tick>, k: nat): Gesture
    requires k < |ts|
  {
    Next(After(ts[..k]), ts[k]).1
  }

  ghost predicate Monotone(ts: seq<Tick>) { forall i, j :: 0 <= i < j < |ts| ==> ts[i].at <= ts[j].at }

  predicate AllDown(ts: seq<Tick>, i: nat, k: nat) { forall x :: i <= x < k && x < |ts| ==> ts[x].pressed }
  predicate AllUp(ts: seq<Tick>, i: nat, k: nat) { forall x :: i <= x < k && x < |ts| ==> !ts[x].pressed }

  /** Held from tick i to its release at tick k. */
  predicate Hold(ts: seq<Tick>, i: nat, k: nat) { i < k < |ts| && AllDown(ts, i, k) && !ts[k].pressed }

  function Span(ts: seq<Tick>, i: nat, k: nat): int
    requires i < |ts| && k < |ts|
  {
    ts[k].at - ts[i].at
  }

  /** A press starts at tick i: before it the button was up, or the classifier had just
      reported the hold as very long. */
  predicate Starts(ts: seq<Tick>, i: nat) {
    i < |ts| && ts[i].pressed && (i == 0 || !ts[i - 1].pressed || GestureAt(ts, i - 1) == VeryLong)
  }

  /** The ticks that matter to a gesture under way: the first tap went down at `a` and up
      at `b`, the hold under way began at `l`. */
  datatype Marks = Marks(a: nat, b: nat, l: nat)

  function MarksAfter(ts: seq<Tick>): Marks {
    if ts == [] then Marks(0, 0, 0)
    else NextMarks(MarksAfter(ts[..|ts| - 1]), After(ts[..|ts| - 1]), ts[|ts| - 1], |ts| - 1)
  }

  function NextMarks(m: Marks, s: State, t: Tick, n: nat): Marks {
    match s.mode
    case Idle => if t.pressed then Marks(n, 0, n) else m
    case Pressed => if Next(s, t).0.mode == WaitDouble then m.(b := n) else m
    case WaitDouble =>
      if !t.pressed then m else if Elapsed(s, t.at) <= DOUBLE_GAP_MS then m.(l := n) else Marks(n, 0, n)
  }

  /** A tap from a to b, held for less than a long press. */
  predicate Tap(ts: seq<Tick>, a: nat, b: nat) { Starts(ts, a) && Hold(ts, a, b) && Span(ts, a, b) < LONG_MS }

  /** What a state says about the first n ticks. */
  ghost predicate Means(ts: seq<Tick>, n: nat, s: State, m: Marks)
    requires n <= |ts|
  {
    match s.mode
    case Idle => true
    case Pressed => Holding(ts, n, s.anchor, m.l) && if s.secondTap then SecondTap(ts, m) else m.a == m.l
    case WaitDouble => Waiting(ts, n, s.anchor, m)
  }

  /** Held since tick l, not yet very long. */
  ghost predicate Holding(ts: seq<Tick>, n: nat, anchor: Uint32, l: nat)
    requires n <= |ts|
  {
    && l < n && Starts(ts, l) && AllDown(ts, l, n) && ts[l].at == anchor
    && forall x :: l <= x < n ==> ts[x].at - anchor < VERY_LONG_MS
  }

  /** A tap, and a second press soon after it. */
  ghost predicate SecondTap(ts: seq<Tick>, m: Marks) {
    m.b < m.l < |ts| && Tap(ts, m.a, m.b) && AllUp(ts, m.b, m.l) && Span(ts, m.b, m.l) <= DOUBLE_GAP_MS
  }

  /** Up since the tap's release, still within the gap. */
  ghost predicate Waiting(ts: seq<Tick>, n: nat, anchor: Uint32, m: Marks)
    requires n <= |ts|
  {
    && m.b < n && Tap(ts, m.a, m.b) && AllUp(ts, m.b, n) && ts[m.b].at == anchor
    && forall x :: m.b <= x < n ==> ts[x].at - anchor <= DOUBLE_GAP_MS
  }

  lemma GestureOfPrefix(ts: seq<Tick>, n: nat, k: nat)
    requires k < n <= |ts|
    ensures GestureAt(ts[..n], k) == GestureAt(ts, k)
  {
    assert ts[..n][..k] == ts[..k];
  }

  /** No tick seen up leaves the classifier counting a hold. */
  lemma UpNotPressed(ts: seq<Tick>)
    requires ts != [] && !ts[|ts| - 1].pressed
    ensures After(ts).mode != Pressed
  {
  }

  lemma IdleOrVeryLong(ts: seq<Tick>)
    requires ts != [] && ts[|ts| - 1].pressed && After(ts).mode != Pressed
    ensures GestureAt(ts, |ts| - 1) == VeryLong
  {
  }

  lemma FreshPress(ts: seq<Tick>, n: nat)
    requires n < |ts| && ts[n].pressed && After(ts[..n]).mode != Pressed
    ensures Starts(ts, n)
  {
    if n > 0 && ts[n - 1].pressed {
      IdleOrVeryLong(ts[..n]);
      GestureOfPrefix(ts, n, n - 1);
    }
  }

  // ---- The meaning holds along every trace ----

  lemma {:induction false} AlwaysMeans(ts: seq<Tick>, n: nat)
    requires Monotone(ts) && n <= |ts|
    ensures Means(ts, n, After(ts[..n]), MarksAfter(ts[..n]))
  {
    if n > 0 {
      AlwaysMeans(ts, n - 1);
      StepMeans(ts, n - 1);
    }
  }

  lemma Unfold(ts: seq<Tick>, n: nat)
    requires n < |ts|
    ensures After(ts[..n + 1]) == Next(After(ts[..n]), ts[n]).0
    ensures MarksAfter(ts[..n + 1]) == NextMarks(MarksAfter(ts[..n]), After(ts[..n]), ts[n], n)
  {
    assert ts[..n + 1][..n] == ts[..n];
  }

  lemma FromIdle(ts: seq<Tick>, n: nat, s: State, m: Marks)
    requires n < |ts| && s.mode == Idle && (ts[n].pressed ==> Starts(ts, n))
    ensures Means(ts, n + 1, Next(s, ts[n]).0, NextMarks(m, s, ts[n], n))
  {
    hide Starts;
  }

  lemma FromPressed(ts: seq<Tick>, n: nat, s: State, m: Marks)
    requires Monotone(ts) && n < |ts| && s.mode == Pressed && Means(ts, n, s, m)
    ensures Means(ts, n + 1, Next(s, ts[n]).0, NextMarks(m, s, ts[n], n))
  {
    assert Elapsed(s, ts[n].at) == ts[n].at - ts[m.l].at;
    hide Starts, Monotone, SecondTap, Elapsed;
    if Next(s, ts[n]).0.mode == WaitDouble { assert Tap(ts, m.l, n); }
  }

  lemma FromWait(ts: seq<Tick>, n: nat, s: State, m: Marks)
    requires Monotone(ts) && n < |ts| && s.mode == WaitDouble && Means(ts, n, s, m)
    requires ts[n].pressed ==> Starts(ts, n)
    ensures Means(ts, n + 1, Next(s, ts[n]).0, NextMarks(m, s, ts[n], n))
  {
    assert Elapsed(s, ts[n].at) == ts[n].at - ts[m.b].at;
    hide Starts, Monotone, Tap, Elapsed;
  }

  lemma StepMeans(ts: seq<Tick>, n: nat)
    requires Monotone(ts) && n < |ts| && Means(ts, n, After(ts[..n]), MarksAfter(ts[..n]))
    ensures Means(ts, n + 1, After(ts[..n + 1]), MarksAfter(ts[..n + 1]))
  {
    Unfold(ts, n);
    var s, m := After(ts[..n]), MarksAfter(ts[..n]);
    if s.mode != Pressed && ts[n].pressed { FreshPress(ts, n); }
    hide After, MarksAfter, Starts, GestureAt, Means, Monotone;
    match s.mode
    case Idle => FromIdle(ts, n, s, m);
    case Pressed => FromPressed(ts, n, s, m);
    case WaitDouble => FromWait(ts, n, s, m);
  }

  // ---- Gestures are real ----

  /** What the trace shows when gesture g is returned at tick k. */
  ghost predicate Witnessed(ts: seq<Tick>, k: nat, g: Gesture, m: Marks)
    requires k < |ts|
  {
    match g
    case NoGesture => true
    case Long => Starts(ts, m.l) && Hold(ts, m.l, k) && LONG_MS <= Span(ts, m.l, k) < VERY_LONG_MS
    case VeryLong =>
      && m.l < k && Starts(ts, m.l) && AllDown(ts, m.l, k) && Span(ts, m.l, k) >= VERY_LONG_MS
      && forall x :: m.l <= x < k ==> Span(ts, m.l, x) < VERY_LONG_MS
    case Double => SecondTap(ts, m) && Tap(ts, m.l, k)
    case Short => m.b < k && Tap(ts, m.a, m.b) && AllUp(ts, m.b, k) && Span(ts, m.b, k) > DOUBLE_GAP_MS
  }

  /** Where the trace's evidence for a gesture begins. */
  function From(g: Gesture, m: Marks): nat { if g == Short || g == Double then m.a else m.l }

  lemma StepWitnessed(ts: seq<Tick>, k: nat, s: State, m: Marks)
    requires Monotone(ts) && k < |ts| && Means(ts, k, s, m)
    ensures Witnessed(ts, k, Next(s, ts[k]).1, m)
  {
    if s.mode == Pressed { assert Elapsed(s, ts[k].at) == ts[k].at - ts[m.l].at; }
    if s.mode == WaitDouble { assert Elapsed(s, ts[k].at) == ts[k].at - ts[m.b].at; }
    hide Starts, Monotone, Elapsed, SecondTap;
  }

  /** Every gesture returned along a trace with a clock that does not go back is borne out
      by the ticks: a short or double press by taps held under a second with the right
      gap, a long press by one hold of 1000 to 5999 ms, a very long one at the first tick
      of a hold to reach 6000 ms. */
  lemma GesturesAreReal(ts: seq<Tick>, k: nat)
    requires Monotone(ts) && k < |ts|
    ensures Witnessed(ts, k, GestureAt(ts, k), MarksAfter(ts[..k]))
  {
    AlwaysMeans(ts, k);
    StepWitnessed(ts, k, After(ts[..k]), MarksAfter(ts[..k]));
  }

  /** Tick k both ends a short press, the gap having passed, and begins the next. */
  predicate PressAfterGap(ts: seq<Tick>, k: nat)
    requires k < |ts|
  {
    GestureAt(ts, k) == Short && ts[k].pressed
  }

  /** What is under way began after tick j, or at it if `at` allows. */
  ghost predicate Since(j: nat, at: bool, s: State, m: Marks) {
    match s.mode
    case Idle => true
    case Pressed => (j < m.a && j < m.l) || (at && j <= m.a && j <= m.l)
    case WaitDouble => j < m.a || (at && j == m.a)
  }

  lemma SinceStep(j: nat, at: bool, s: State, m: Marks, t: Tick, n: nat)
    requires j < n && Since(j, at, s, m)
    ensures Since(j, at, Next(s, t).0, NextMarks(m, s, t, n))
  {
    hide Elapsed;
  }

  lemma SinceStarts(s: State, m: Marks, t: Tick, n: nat)
    requires Next(s, t).1 != NoGesture
    ensures Since(n, Next(s, t).1 == Short && t.pressed, Next(s, t).0, NextMarks(m, s, t, n))
  {
    hide Elapsed;
  }

  lemma {:induction false} StaysSince(ts: seq<Tick>, j: nat, n: nat)
    requires j < n <= |ts| && GestureAt(ts, j) != NoGesture
    ensures Since(j, PressAfterGap(ts, j), After(ts[..n]), MarksAfter(ts[..n]))
  {
    Unfold(ts, n - 1);
    var s, m := After(ts[..n - 1]), MarksAfter(ts[..n - 1]);
    hide After, MarksAfter, Since, Next, NextMarks;
    if j < n - 1 {
      StaysSince(ts, j, n - 1);
      SinceStep(j, PressAfterGap(ts, j), s, m, ts[n - 1], n - 1);
    } else {
      SinceStarts(s, m, ts[n - 1], n - 1);
    }
  }

  /** No two gestures share evidence: what bears out a gesture starts after the tick at
      which any gesture before it was returned. The one tick they can share is a press
      that comes after the gap: it ends the short press before it and begins its own. */
  lemma EvidenceIsDisjoint(ts: seq<Tick>, j: nat, k: nat)
    requires j < k < |ts| && GestureAt(ts, j) != NoGesture && GestureAt(ts, k) != NoGesture
    ensures var from := From(GestureAt(ts, k), MarksAfter(ts[..k]));
      j < from || (j == from && PressAfterGap(ts, j))
  {
    StaysSince(ts, j, k);
    GestureIsFrom(After(ts[..k]), MarksAfter(ts[..k]), ts[k], j, PressAfterGap(ts, j));
  }

  lemma GestureIsFrom(s: State, m: Marks, t: Tick, j: nat, at: bool)
    requires Since(j, at, s, m) && Next(s, t).1 != NoGesture
    ensures var from := From(Next(s, t).1, m); j < from || (j == from && at)
  {
    hide Elapsed;
  }

  // ---- Presses are not missed ----

  lemma ElapsedIs(ts: seq<Tick>, s: State, i: nat, k: nat)
    requires Monotone(ts) && i < k < |ts| && s.anchor == ts[i].at
    ensures Elapsed(s, ts[k].at) == Span(ts, i, k)
  {
  }

  /** While a press lasts the classifier is timing it. */
  lemma {:induction false} Timing(ts: seq<Tick>, i: nat, k: nat)
    requires Monotone(ts) && Starts(ts, i) && i < k <= |ts| && AllDown(ts, i, k)
    requires forall x :: i <= x < k ==> Span(ts, i, x) < VERY_LONG_MS
    ensures After(ts[..k]) == State(Pressed, ts[i].at, After(ts[..i + 1]).secondTap)
    decreases k
  {
    hide Elapsed, After, Monotone;
    Unfold(ts, k - 1);
    if i < k - 1 {
      Timing(ts, i, k - 1);
      ElapsedIs(ts, After(ts[..k - 1]), i, k - 1);
    } else {
      NotTimingAt(ts, i);
    }
  }

  lemma NotTimingAt(ts: seq<Tick>, i: nat)
    requires Starts(ts, i)
    ensures After(ts[..i]).mode != Pressed
  {
    if i > 0 {
      assert ts[..i][i - 1] == ts[i - 1];
      Unfold(ts, i - 1);
      if !ts[i - 1].pressed { UpNotPressed(ts[..i]); }
    }
  }

  /** The press since tick i, unreported so far, is reported at tick k as long exactly when
      it ends there after 1000 to 5999 ms, and as very long exactly when it has reached
      6000 ms, released or not. */
  lemma PressDecides(ts: seq<Tick>, i: nat, k: nat)
    requires Monotone(ts) && Starts(ts, i) && i < k < |ts| && AllDown(ts, i, k)
    requires forall x :: i <= x < k ==> Span(ts, i, x) < 6000
    ensures GestureAt(ts, k) == VeryLong <==> Span(ts, i, k) >= 6000
    ensures GestureAt(ts, k) == Long <==> !ts[k].pressed && 1000 <= Span(ts, i, k) < 6000
    ensures GestureAt(ts, k) != Short
  {
    Timing(ts, i, k);
    assert Elapsed(After(ts[..k]), ts[k].at) == Span(ts, i, k);
  }

  lemma WaitingStarts(ts: seq<Tick>, a: nat, b: nat)
    requires Monotone(ts) && Tap(ts, a, b) && GestureAt(ts, b) == NoGesture
    ensures After(ts[..b + 1]) == State(WaitDouble, ts[b].at, false)
  {
    TapIsShort(ts, a, b);
    Timing(ts, a, b);
    ElapsedIs(ts, After(ts[..b]), a, b);
    Unfold(ts, b);
    hide Elapsed, After, Monotone, Starts;
  }

  lemma {:induction false} WaitingSince(ts: seq<Tick>, a: nat, b: nat, k: nat)
    requires Monotone(ts) && Tap(ts, a, b) && GestureAt(ts, b) == NoGesture && b < k <= |ts| && AllUp(ts, b, k)
    requires forall x :: b <= x < k ==> Span(ts, b, x) <= DOUBLE_GAP_MS
    ensures After(ts[..k]) == State(WaitDouble, ts[b].at, false)
    decreases k
  {
    hide Elapsed, After, Monotone, Tap;
    if b < k - 1 {
      Unfold(ts, k - 1);
      WaitingSince(ts, a, b, k - 1);
      ElapsedIs(ts, After(ts[..k - 1]), b, k - 1);
    } else {
      WaitingStarts(ts, a, b);
    }
  }

  lemma TapIsShort(ts: seq<Tick>, a: nat, b: nat)
    requires Monotone(ts) && Tap(ts, a, b)
    ensures forall x :: a <= x < b ==> Span(ts, a, x) < VERY_LONG_MS
  {
  }

  /** A tap that was not itself the second of two becomes a double with a second tap
      pressed within 400 ms, and a short press at the first tick past the gap. */
  lemma TapResolves(ts: seq<Tick>, a: nat, b: nat, c: nat, k: nat)
    requires Monotone(ts) && Tap(ts, a, b) && GestureAt(ts, b) == NoGesture && b < c < |ts| && AllUp(ts, b, c)
    requires forall x :: b <= x < c ==> Span(ts, b, x) <= 400
    ensures Span(ts, b, c) > 400 <==> GestureAt(ts, c) == Short
    ensures Span(ts, b, c) <= 400 && Tap(ts, c, k) ==> GestureAt(ts, k) == Double
  {
    WaitingSince(ts, a, b, c);
    ElapsedIs(ts, After(ts[..c]), b, c);
    Unfold(ts, c);
    hide Elapsed, After, Monotone, AllUp;
    if Span(ts, b, c) <= DOUBLE_GAP_MS && Tap(ts, c, k) { SecondTapResolves(ts, c, k); }
  }

  lemma SecondTapResolves(ts: seq<Tick>, c: nat, k: nat)
    requires Monotone(ts) && Tap(ts, c, k) && After(ts[..c + 1]).secondTap
    ensures GestureAt(ts, k) == Double
  {
    TapIsShort(ts, c, k);
    Timing(ts, c, k);
    ElapsedIs(ts, After(ts[..k]), c, k);
    hide Elapsed, After, Monotone, Starts;
  }

  // ---- One press, one hold ----

  /** The button goes down at tick p. */
  predicate Edge(ts: seq<Tick>, p: nat) {
    p < |ts| && ts[p].pressed && (p == 0 || !ts[p - 1].pressed)
  }

  /** The press since tick p first reaches 6000 ms at tick v and is still down one tick
      later. */
  predicate Outlasts(ts: seq<Tick>, p: nat, v: nat) {
    && Edge(ts, p) && p < v && v + 1 < |ts| && AllDown(ts, p, v + 2)
    && Span(ts, p, v) >= VERY_LONG_MS && forall x :: p <= x < v ==> Span(ts, p, x) < VERY_LONG_MS
  }

  lemma {:induction false} FirstReaching(ts: seq<Tick>, i: nat, x: nat, limit: int) returns (v: nat)
    requires i <= x < |ts| && 0 < limit <= Span(ts, i, x)
    ensures i < v <= x && Span(ts, i, v) >= limit && forall y :: i <= y < v ==> Span(ts, i, y) < limit
    decreases x
  {
    if y :| i <= y < x && Span(ts, i, y) >= limit {
      v := FirstReaching(ts, i, y, limit);
    } else {
      v := x;
    }
  }

  lemma {:induction false} PressStart(ts: seq<Tick>, j: nat) returns (p: nat)
    requires j < |ts| && ts[j].pressed
    ensures p <= j && Edge(ts, p) && AllDown(ts, p, j + 1)
  {
    if j == 0 || !ts[j - 1].pressed {
      p := j;
    } else {
      p := PressStart(ts, j - 1);
    }
  }

  /** A hold that began before tick i and lasts through it was reported very long before a
      new one starts at i. */
  lemma ReportedBefore(ts: seq<Tick>, j: nat, i: nat) returns (v: nat)
    requires Monotone(ts) && Starts(ts, j) && Starts(ts, i) && j < i && AllDown(ts, j, i)
    ensures j < v < i && Span(ts, j, v) >= VERY_LONG_MS && GestureAt(ts, v) == VeryLong
    ensures forall y :: j <= y < v ==> Span(ts, j, y) < VERY_LONG_MS
  {
    NotTimingAt(ts, i);
    hide Starts, GestureAt, After;
    if x :| j <= x < i && Span(ts, j, x) >= VERY_LONG_MS {
      v := FirstReaching(ts, j, x, VERY_LONG_MS);
      PressDecides(ts, j, v);
    } else {
      Timing(ts, j, i);
      assert false;
    }
  }

  /** Two holds that both last up to tick k without being very long are one. */
  lemma OneHold(ts: seq<Tick>, i: nat, j: nat, k: nat)
    requires Monotone(ts) && Starts(ts, i) && Starts(ts, j) && i < k < |ts| && j < k
    requires AllDown(ts, i, k) && AllDown(ts, j, k)
    requires forall x :: i <= x < k ==> Span(ts, i, x) < VERY_LONG_MS
    requires forall x :: j <= x < k ==> Span(ts, j, x) < VERY_LONG_MS
    ensures i == j
  {
    hide Starts;
    if i < j {
      var v := ReportedBefore(ts, i, j);
    } else if j < i {
      var v := ReportedBefore(ts, j, i);
    }
  }

  /** A tap and the pause after it have one release and one start. */
  lemma OneTap(ts: seq<Tick>, a: nat, b: nat, i: nat, w: nat, k: nat)
    requires Monotone(ts) && Tap(ts, a, b) && Tap(ts, i, w) && b < k && w < k
    requires AllUp(ts, b, k) && AllUp(ts, w, k)
    ensures a == i && b == w
  {
    hide Starts;
    assert ts[b - 1].pressed && ts[w - 1].pressed;
    assert b == w;
    TapIsShort(ts, a, b);
    TapIsShort(ts, i, w);
    OneHold(ts, a, i, b);
  }

  /** After the press from p outlasts its report, the classifier times its tail as a first
      tap. */
  lemma TailStarts(ts: seq<Tick>, p: nat, v: nat)
    requires Monotone(ts) && Outlasts(ts, p, v)
    ensures Starts(ts, v + 1) && !Edge(ts, v + 1)
    ensures After(ts[..v + 1]).mode == Idle && After(ts[..v + 2]) == State(Pressed, ts[v + 1].at, false)
  {
    hide *;
    OutlastsIs(ts, p, v);
    PressDecides(ts, p, v);
    VeryLongResets(ts, v);
    PressRestarts(ts, v + 1);
  }

  lemma OutlastsIs(ts: seq<Tick>, p: nat, v: nat)
    requires Outlasts(ts, p, v)
    ensures Starts(ts, p) && p < v && v + 1 < |ts| && AllDown(ts, p, v) && ts[v].pressed && ts[v + 1].pressed
    ensures Span(ts, p, v) >= 6000 && forall x :: p <= x < v ==> Span(ts, p, x) < 6000
  {
  }

  lemma VeryLongResets(ts: seq<Tick>, v: nat)
    requires v < |ts| && GestureAt(ts, v) == VeryLong
    ensures After(ts[..v + 1]).mode == Idle
  {
    Unfold(ts, v);
    hide After, MarksAfter, NextMarks, Elapsed;
  }

  lemma PressRestarts(ts: seq<Tick>, i: nat)
    requires 0 < i < |ts| && ts[i - 1].pressed && ts[i].pressed && GestureAt(ts, i - 1) == VeryLong
    requires After(ts[..i]).mode == Idle
    ensures Starts(ts, i) && !Edge(ts, i) && After(ts[..i + 1]) == State(Pressed, ts[i].at, false)
  {
    Unfold(ts, i);
    hide After, MarksAfter, NextMarks, GestureAt, Elapsed;
  }

  /** A hold that does not begin with the button going down is the tail of a press that
      outlasted its report; v + 1 is where that press's first tail begins. */
  lemma TailOf(ts: seq<Tick>, i: nat) returns (p: nat, v: nat)
    requires Monotone(ts) && Starts(ts, i) && !Edge(ts, i)
    ensures Outlasts(ts, p, v) && v + 1 <= i && AllDown(ts, p, i + 1)
  {
    p := PressStart(ts, i - 1);
    assert Starts(ts, p);
    v := ReportedBefore(ts, p, i);
    hide GestureAt;
  }

  /** The classifier starts timing a hold at tick i. */
  predicate StartsTiming(ts: seq<Tick>, i: nat) {
    i < |ts| && After(ts[..i]).mode != Pressed && After(ts[..i + 1]).mode == Pressed
  }

  lemma StartsTimingIs(ts: seq<Tick>, i: nat)
    ensures StartsTiming(ts, i) <==> Starts(ts, i)
  {
    if i < |ts| {
      Unfold(ts, i);
      if Starts(ts, i) { NotTimingAt(ts, i); }
      if StartsTiming(ts, i) { FreshPress(ts, i); }
    }
  }

  /** Every hold the classifier times begins with the button going down exactly when every
      press is let go by the tick after the first one at which it has lasted 6000 ms. */
  lemma HoldsAreWholeIff(ts: seq<Tick>)
    requires Monotone(ts)
    ensures (forall i: nat :: StartsTiming(ts, i) ==> Edge(ts, i)) <==> (forall p: nat, v: nat :: !Outlasts(ts, p, v))
  {
    if p: nat, v: nat :| Outlasts(ts, p, v) {
      TailStarts(ts, p, v);
      StartsTimingIs(ts, v + 1);
    }
    if i: nat :| StartsTiming(ts, i) && !Edge(ts, i) {
      StartsTimingIs(ts, i);
      var p, v := TailOf(ts, i);
    }
  }

  /** The tail of a press, from tick i, ends as a gesture: as a long hold; */
  ghost predicate EndsLong(ts: seq<Tick>, i: nat, k: nat) {
    && i < k < |ts| && AllDown(ts, i, k)
    && (Span(ts, i, k) >= VERY_LONG_MS || (!ts[k].pressed && Span(ts, i, k) >= LONG_MS))
  }

  /** as a tap let go at w with nothing after it up to tick c, past the gap; */
  ghost predicate EndsShort(ts: seq<Tick>, i: nat, w: nat, c: nat) {
    && Hold(ts, i, w) && Span(ts, i, w) < LONG_MS
    && w < c < |ts| && AllUp(ts, w, c) && Span(ts, w, c) > DOUBLE_GAP_MS
  }

  /** or as the first of two taps, the second from c to k. */
  ghost predicate EndsDouble(ts: seq<Tick>, i: nat, w: nat, c: nat, k: nat) {
    && Hold(ts, i, w) && Span(ts, i, w) < LONG_MS
    && w < c < |ts| && AllUp(ts, w, c) && Span(ts, w, c) <= DOUBLE_GAP_MS
    && Hold(ts, c, k) && Span(ts, c, k) < LONG_MS
  }

  ghost predicate Resolves(ts: seq<Tick>, i: nat) {
    || (exists k :: EndsLong(ts, i, k))
    || (exists w, c :: EndsShort(ts, i, w, c))
    || exists w, c, k :: EndsDouble(ts, i, w, c, k)
  }

  /** Each hold behind what tick k returned begins with the button going down. */
  predicate RestsOnWhole(ts: seq<Tick>, k: nat)
    requires k < |ts|
  {
    var g, m := GestureAt(ts, k), MarksAfter(ts[..k]);
    && (g != NoGesture ==> Edge(ts, From(g, m)))
    && (g == Double ==> Edge(ts, m.l))
  }

  lemma LongTail(ts: seq<Tick>, i: nat, k: nat) returns (j: nat)
    requires Monotone(ts) && Starts(ts, i) && !Edge(ts, i) && EndsLong(ts, i, k)
    ensures j < |ts| && !RestsOnWhole(ts, j)
  {
    hide Starts, Edge, GestureAt, MarksAfter;
    j := k;
    if x :| i <= x <= k && Span(ts, i, x) >= VERY_LONG_MS { j := FirstReaching(ts, i, x, VERY_LONG_MS); }
    PressDecides(ts, i, j);
    GesturesAreReal(ts, j);
    OneHold(ts, i, MarksAfter(ts[..j]).l, j);
  }

  /** A first tap returns nothing by itself. */
  lemma FirstTap(ts: seq<Tick>, i: nat, w: nat)
    requires Monotone(ts) && Tap(ts, i, w) && !After(ts[..i + 1]).secondTap
    ensures GestureAt(ts, w) == NoGesture
  {
    TapIsShort(ts, i, w);
    Timing(ts, i, w);
    ElapsedIs(ts, After(ts[..w]), i, w);
    hide Elapsed, After, Monotone, Starts;
  }

  lemma ShortTail(ts: seq<Tick>, i: nat, w: nat, c: nat) returns (j: nat)
    requires Monotone(ts) && Starts(ts, i) && !Edge(ts, i) && !After(ts[..i + 1]).secondTap && EndsShort(ts, i, w, c)
    ensures j < |ts| && !RestsOnWhole(ts, j)
  {
    hide Starts, Edge, GestureAt, MarksAfter, After;
    FirstTap(ts, i, w);
    j := FirstReaching(ts, w, c, DOUBLE_GAP_MS + 1);
    TapResolves(ts, i, w, j, 0);
    GesturesAreReal(ts, j);
    var m := MarksAfter(ts[..j]);
    OneTap(ts, m.a, m.b, i, w, j);
  }

  lemma DoubleTail(ts: seq<Tick>, i: nat, w: nat, c: nat, k: nat)
    requires Monotone(ts) && Starts(ts, i) && !Edge(ts, i) && !After(ts[..i + 1]).secondTap
    requires EndsDouble(ts, i, w, c, k)
    ensures !RestsOnWhole(ts, k)
  {
    assert Starts(ts, c);
    hide Starts, Edge, GestureAt, MarksAfter, After;
    FirstTap(ts, i, w);
    TapResolves(ts, i, w, c, k);
    GesturesAreReal(ts, k);
    var m := MarksAfter(ts[..k]);
    TapIsShort(ts, c, k);
    TapIsShort(ts, m.l, k);
    OneHold(ts, c, m.l, k);
    OneTap(ts, m.a, m.b, i, w, c);
  }

  /** What a gesture that rests on part of a press shows of that part. */
  lemma PartResolves(ts: seq<Tick>, k: nat) returns (i: nat)
    requires Monotone(ts) && k < |ts| && !RestsOnWhole(ts, k)
    ensures Starts(ts, i) && !Edge(ts, i) && Resolves(ts, i)
  {
    GesturesAreReal(ts, k);
    var g, m := GestureAt(ts, k), MarksAfter(ts[..k]);
    i := From(g, m);
    if g == Double {
      assert Edge(ts, m.l);
      assert EndsDouble(ts, m.a, m.b, m.l, k);
    } else if g == Short {
      assert EndsShort(ts, m.a, m.b, k);
    } else {
      assert EndsLong(ts, m.l, k);
    }
  }

  /** A tail that resolves gives a gesture that rests on it. */
  lemma TailSpoils(ts: seq<Tick>, i: nat) returns (j: nat)
    requires Monotone(ts) && Starts(ts, i) && !Edge(ts, i) && !After(ts[..i + 1]).secondTap && Resolves(ts, i)
    ensures j < |ts| && !RestsOnWhole(ts, j)
  {
    hide Starts, Edge, RestsOnWhole, Monotone, After, EndsLong, EndsShort, EndsDouble;
    if k: nat :| EndsLong(ts, i, k) {
      j := LongTail(ts, i, k);
    } else if w: nat, c: nat :| EndsShort(ts, i, w, c) {
      j := ShortTail(ts, i, w, c);
    } else {
      var w: nat, c: nat, k: nat :| EndsDouble(ts, i, w, c, k);
      HoldEnds(ts, i, w, c, k);
      DoubleTail(ts, i, w, c, k);
      j := k;
    }
  }

  lemma HoldEnds(ts: seq<Tick>, i: nat, w: nat, c: nat, k: nat)
    requires EndsDouble(ts, i, w, c, k)
    ensures k < |ts|
  {
  }

  /** Every gesture rests on whole presses exactly when, of any press that is held past its
      very-long report, what is left makes no gesture by itself: it is not held for a
      second more, nor let go earlier and followed by a pause of over 400 ms or by a
      second tap. */
  lemma GesturesAreWholeIff(ts: seq<Tick>)
    requires Monotone(ts)
    ensures (forall k :: 0 <= k < |ts| ==> RestsOnWhole(ts, k)) <==>
      forall p: nat, v: nat :: Outlasts(ts, p, v) ==> !Resolves(ts, v + 1)
  {
    if p: nat, v: nat :| Outlasts(ts, p, v) && Resolves(ts, v + 1) {
      TailStarts(ts, p, v);
      hide Starts, Edge, RestsOnWhole, Outlasts, After, Resolves;
      var j := TailSpoils(ts, v + 1);
    }
    if k :| 0 <= k < |ts| && !RestsOnWhole(ts, k) { PartSpoils(ts, k); }
  }

  lemma PartSpoils(ts: seq<Tick>, k: nat)
    requires Monotone(ts) && k < |ts| && !RestsOnWhole(ts, k)
    ensures exists p: nat, v: nat :: Outlasts(ts, p, v) && Resolves(ts, v + 1)
  {
    hide RestsOnWhole, Resolves, Starts, Outlasts;
    var i := PartResolves(ts, k);
    var p, v := TailOf(ts, i);
    FirstTailResolves(ts, p, v, i);
  }

  lemma LongResolves(ts: seq<Tick>, i: nat, x: nat)
    requires i < x < |ts| && AllDown(ts, i, x) && Span(ts, i, x) >= VERY_LONG_MS
    ensures Resolves(ts, i)
  {
    assert EndsLong(ts, i, x);
  }

  lemma FirstTailResolves(ts: seq<Tick>, p: nat, v: nat, i: nat)
    requires Monotone(ts) && Outlasts(ts, p, v) && v + 1 <= i && AllDown(ts, p, i + 1)
    requires Starts(ts, i) && Resolves(ts, i)
    ensures Resolves(ts, v + 1)
  {
    hide *;
    if v + 1 < i {
      TailStarts(ts, p, v);
      OutlastsIs(ts, p, v);
      DownWithin(ts, p, i + 1, v + 1, i);
      var x := ReportedBefore(ts, v + 1, i);
      DownWithin(ts, p, i + 1, v + 1, x);
      StartsIn(ts, i);
      LongResolves(ts, v + 1, x);
    }
  }

  lemma DownWithin(ts: seq<Tick>, p: nat, i: nat, a: nat, b: nat)
    requires AllDown(ts, p, i) && p <= a && b <= i
    ensures AllDown(ts, a, b)
  {
  }

  lemma StartsIn(ts: seq<Tick>, i: nat)
    requires Starts(ts, i)
    ensures i < |ts|
  {
  }

  /** One physical press can yield two gestures: held past 6000 ms it is very long, and the
      classifier starts over while the button is still down, so a release within a second
      of that becomes a short press. */
  lemma VeryLongThenShort()
    ensures var ts := [Tick(true, 0), Tick(true, 6000), Tick(true, 6020), Tick(false, 6500), Tick(false, 7000)];
      GestureAt(ts, 1) == VeryLong && GestureAt(ts, 4) == Short
  {
    var ts := [Tick(true, 0), Tick(true, 6000), Tick(true, 6020), Tick(false, 6500), Tick(false, 7000)];
    assert ts[..0] == [];
    Unfold(ts, 0);
    Unfold(ts, 1);
    Unfold(ts, 2);
    Unfold(ts, 3);
  }

  // ---- The clock may wrap ----

  function Later(at: Uint32, d: Uint32): Uint32 { (at + d) % 0x1_0000_0000 }

  function ShiftedBy(ts: seq<Tick>, d: Uint32): seq<Tick> {
    seq(|ts|, i requires 0 <= i < |ts| => Tick(ts[i].pressed, Later(ts[i].at, d)))
  }

  /** The two states differ only in the clock, by d. */
  predicate Alike(s: State, t: State, d: Uint32) {
    s.mode == t.mode && s.secondTap == t.secondTap && (s.mode != Idle ==> t.anchor == Later(s.anchor, d))
  }

  lemma ElapsedShifts(s: State, t: State, now: Uint32, d: Uint32)
    requires t.anchor == Later(s.anchor, d)
    ensures Elapsed(t, Later(now, d)) == Elapsed(s, now)
    ensures Elapsed(s, now) == if now >= s.anchor then now - s.anchor else now + 0x1_0000_0000 - s.anchor
  {
    ElapsedWraps(s, now);
    ElapsedWraps(t, Later(now, d));
    LaterWraps(now, d);
    LaterWraps(s.anchor, d);
    hide Elapsed, Later;
  }

  lemma ElapsedWraps(s: State, now: Uint32)
    ensures Elapsed(s, now) == if now >= s.anchor then now - s.anchor else now + 0x1_0000_0000 - s.anchor
  {
  }

  lemma LaterWraps(at: Uint32, d: Uint32)
    ensures Later(at, d) == if at + d < 0x1_0000_0000 then at + d else at + d - 0x1_0000_0000
  {
  }

  lemma NextShifts(s: State, t: State, k: Tick, d: Uint32)
    requires Alike(s, t, d)
    ensures var a, b := Next(s, k), Next(t, Tick(k.pressed, Later(k.at, d)));
      Alike(a.0, b.0, d) && a.1 == b.1
  {
    if s.mode != Idle { ElapsedShifts(s, t, k.at, d); }
    hide Elapsed, Later;
  }

  lemma {:induction false} AfterShifts(ts: seq<Tick>, d: Uint32)
    ensures Alike(After(ts), After(ShiftedBy(ts, d)), d)
  {
    if ts != [] {
      var n := |ts| - 1;
      AfterShifts(ts[..n], d);
      assert ShiftedBy(ts, d)[..n] == ShiftedBy(ts[..n], d);
      NextShifts(After(ts[..n]), After(ShiftedBy(ts[..n], d)), ts[n], d);
      hide Next, Alike;
    }
  }

  /** The classifier sees time differences only: started at any other reading of the
      millisecond clock, and across its wrap-around, a trace yields the same gestures. So
      what is said above of clocks that do not go back holds of any that wrap once. */
  lemma ClockMayWrap(ts: seq<Tick>, d: Uint32, k: nat)
    requires k < |ts|
    ensures GestureAt(ShiftedBy(ts, d), k) == GestureAt(ts, k)
  {
    AfterShifts(ts[..k], d);
    assert ShiftedBy(ts, d)[..k] == ShiftedBy(ts[..k], d);
    NextShifts(After(ts[..k]), After(ShiftedBy(ts[..k], d)), ts[k], d);
    hide After, Next, Alike;
  }
}
