/** The inference worker of inference_worker.py: a bounded queue that drops its oldest
    message, with a producer and a consumer thread interleaved at every queue operation,
    and the failure log with its rate limits. */
module InferenceWorker {
  import opened Wrappers

  // ---- The queue, one atomic operation at a time ----

  /** Where the producer stands in enqueue: outside, refused by a full queue, or about to
      put again. `Crashed`: that second put was refused too. */
  datatype Phase<M> = Idle | Refused(m: M) | Again(m: M) | Crashed

  /** `put`, `taken` and `dropped` record every message that entered the queue, left it
      for the worker, or was thrown away. */
  datatype State<M> = State(cap: nat, q: seq<M>, put: seq<M>, taken: seq<M>, dropped: seq<M>, phase: Phase<M>)

  function Start<M>(cap: nat): State<M> { State(cap, [], [], [], [], Idle) }

  datatype Op<M> = TryPut(m: M) | DropOldest | PutAgain | Get

  /** A queue of size 0 is unbounded. */
  predicate Full<M>(s: State<M>) { s.cap > 0 && |s.q| >= s.cap }

  function Step<M>(s: State<M>, op: Op<M>): State<M> {
    match op
    case Get => if s.q == [] then s else s.(q := s.q[1..], taken := s.taken + [s.q[0]])
    case TryPut(m) =>
      if !s.phase.Idle? then s
      else if Full(s) then s.(phase := Refused(m))
      else s.(q := s.q + [m], put := s.put + [m])
    case DropOldest =>
      if !s.phase.Refused? then s
      else if s.q == [] then s.(phase := Again(s.phase.m))
      else s.(q := s.q[1..], dropped := s.dropped + [s.q[0]], phase := Again(s.phase.m))
    case PutAgain =>
      if !s.phase.Again? then s
      else if Full(s) then s.(phase := Crashed)
      else s.(q := s.q + [s.phase.m], put := s.put + [s.phase.m], phase := Idle)
  }

  function Run<M>(s: State<M>, ops: seq<Op<M>>): State<M> {
    if ops == [] then s else Step(Run(s, ops[..|ops| - 1]), ops[|ops| - 1])
  }

  // ---- What every interleaving keeps ----

  /** The messages at the positions marked `which`, in order. */
  function Picked<M>(xs: seq<M>, marks: seq<bool>, which: bool): (r: seq<M>)
    requires |xs| == |marks|
  {
    if xs == [] then []
    else
      Picked(xs[..|xs| - 1], marks[..|xs| - 1], which) +
      if marks[|xs| - 1] == which then [xs[|xs| - 1]] else []
  }

  lemma PickedGrows<M>(xs: seq<M>, marks: seq<bool>, x: M, mark: bool, which: bool)
    requires |xs| == |marks|
    ensures Picked(xs + [x], marks + [mark], which) == Picked(xs, marks, which) + if mark == which then [x] else []
  {
    assert (xs + [x])[..|xs|] == xs && (marks + [mark])[..|xs|] == marks;
  }

  lemma {:induction false} PickedCounts<M>(xs: seq<M>, marks: seq<bool>)
    requires |xs| == |marks|
    ensures |Picked(xs, marks, true)| + |Picked(xs, marks, false)| == |xs|
  {
    if xs != [] { PickedCounts(xs[..|xs| - 1], marks[..|xs| - 1]); }
  }

  /** The messages that have left the queue, in the order they were put, each marked taken
      or dropped; what is queued came after them. */
  ghost predicate History<M>(s: State<M>, gone: seq<M>, marks: seq<bool>) {
    && s.put == gone + s.q && |gone| == |marks|
    && s.taken == Picked(gone, marks, true)
    && s.dropped == Picked(gone, marks, false)
  }

  /** The newest message put was not dropped. */
  ghost predicate NewestKept<M>(s: State<M>, marks: seq<bool>) {
    s.q != [] || marks == [] || marks[|marks| - 1]
  }

  ghost predicate Safe<M>(s: State<M>, gone: seq<M>, marks: seq<bool>) {
    && History(s, gone, marks)
    && (s.cap > 0 ==> |s.q| <= s.cap)
    && !s.phase.Crashed?
    && (s.phase.Again? ==> !Full(s))
    && (!s.phase.Again? ==> NewestKept(s, marks))
  }

  lemma LeaveQueue<M>(s: State<M>, t: State<M>, gone: seq<M>, marks: seq<bool>, taken: bool)
    requires History(s, gone, marks) && s.q != []
    requires t.q == s.q[1..] && t.put == s.put
    requires t.taken == s.taken + if taken then [s.q[0]] else []
    requires t.dropped == s.dropped + if taken then [] else [s.q[0]]
    ensures History(t, gone + [s.q[0]], marks + [taken])
  {
    PickedGrows(gone, marks, s.q[0], taken, true);
    PickedGrows(gone, marks, s.q[0], taken, false);
    hide Picked;
    assert s.q == [s.q[0]] + s.q[1..];
    assert gone + ([s.q[0]] + s.q[1..]) == gone + [s.q[0]] + s.q[1..];
  }

  lemma StepSafe<M>(s: State<M>, op: Op<M>, gone: seq<M>, marks: seq<bool>) returns (gone': seq<M>, marks': seq<bool>)
    requires Safe(s, gone, marks)
    ensures Safe(Step(s, op), gone', marks')
  {
    hide Picked;
    gone', marks' := gone, marks;
    var t := Step(s, op);
    if op.Get? && s.q != [] {
      LeaveQueue(s, t, gone, marks, true);
      gone', marks' := gone + [s.q[0]], marks + [true];
    } else if op.DropOldest? && s.phase.Refused? && s.q != [] {
      LeaveQueue(s, t, gone, marks, false);
      gone', marks' := gone + [s.q[0]], marks + [false];
    } else if t.put != s.put {
      assert t.put == gone + t.q;
    }
  }

  /** However the two threads interleave: the put after a drop is never refused; what was
      taken and then what is queued is a selection of what was put, in order, the rest
      having been dropped in order; every message put is taken, dropped or queued; and
      whenever no enqueue is under way the newest message is not among the dropped. */
  lemma {:induction false} EveryInterleaving<M>(cap: nat, ops: seq<Op<M>>) returns (gone: seq<M>, marks: seq<bool>)
    ensures var s := Run(Start<M>(cap), ops);
      && !s.phase.Crashed?
      && s.put == gone + s.q && |gone| == |marks|
      && s.taken == Picked(gone, marks, true) && s.dropped == Picked(gone, marks, false)
      && |s.put| == |s.taken| + |s.dropped| + |s.q|
      && (s.phase.Idle? && s.put != [] && s.q == [] ==> marks[|marks| - 1])
      && Safe(s, gone, marks)
  {
    if ops == [] {
      gone, marks := [], [];
    } else {
      gone, marks := EveryInterleaving(cap, ops[..|ops| - 1]);
      gone, marks := StepSafe(Run(Start<M>(cap), ops[..|ops| - 1]), ops[|ops| - 1], gone, marks);
    }
    PickedCounts(gone, marks);
  }

  /** Left alone, an enqueue always stores its message, and drops one exactly when the
      queue is full. */
  lemma DropsOnlyWhenFull<M>(s: State<M>, m: M)
    requires s.phase.Idle? && (s.cap > 0 ==> |s.q| <= s.cap)
    ensures Run(s, [TryPut(m), DropOldest, PutAgain]).dropped == s.dropped <==> !Full(s)
    ensures Run(s, [TryPut(m), DropOldest, PutAgain]).put == s.put + [m]
  {
    var ops := [TryPut(m), DropOldest, PutAgain];
    assert ops[..2] == [TryPut(m), DropOldest] && ops[..2][..1] == [TryPut(m)] && ops[..1][..0] == [];
    assert Run(s, ops[..1]) == Step(s, TryPut(m));
    assert Run(s, ops[..2]) == Step(Step(s, TryPut(m)), DropOldest);
    assert Run(s, ops) == Step(Run(s, ops[..2]), PutAgain);
  }

  /** What that enqueue does to the queue: a bounded queue that is full gives up its oldest
      message, and the new one is last. */
  lemma EnqueueIs<M>(s: State<M>, m: M)
    requires s.phase.Idle? && (s.cap > 0 ==> |s.q| <= s.cap)
    ensures var t := Run(s, [TryPut(m), DropOldest, PutAgain]);
      var full := s.cap > 0 && |s.q| == s.cap;
      && t == s.(q := (if full then s.q[1..] else s.q) + [m], put := s.put + [m],
                 dropped := if full then s.dropped + [s.q[0]] else s.dropped)
  {
    var ops := [TryPut(m), DropOldest, PutAgain];
    assert ops[..2] == [TryPut(m), DropOldest] && ops[..2][..1] == [TryPut(m)] && ops[..1][..0] == [];
    assert Run(s, ops[..1]) == Step(s, TryPut(m));
    assert Run(s, ops[..2]) == Step(Step(s, TryPut(m)), DropOldest);
    assert Run(s, ops) == Step(Run(s, ops[..2]), PutAgain);
  }

  // ---- The failure log ----

  const FAILURE_LOG_EVERY := 100
  const RECOVERY_CLEAN_FRAMES := 50
  const TRACEBACK_MIN_GAP_S := 300.0

  /** `lastAt` is None before the first traceback. */
  datatype Log = Log(degraded: bool, failures: nat, cleanRun: nat, lastAt: Option<real>)
  datatype Line = Silent | Traceback | StillFailing(count: nat) | Recovered(count: nat)

  const Quiet := Log(false, 0, 0, None)

  function Failed(s: Log, now: real): (Log, Line) {
    if s.lastAt.None? || now - s.lastAt.value >= TRACEBACK_MIN_GAP_S then (Log(true, 1, 0, Some(now)), Traceback)
    else
      (Log(true, s.failures + 1, 0, s.lastAt),
       if (s.failures + 1) % FAILURE_LOG_EVERY == 0 then StillFailing(s.failures + 1) else Silent)
  }

  function Succeeded(s: Log): (Log, Line) {
    if !s.degraded then (s, Silent)
    else if s.cleanRun + 1 < RECOVERY_CLEAN_FRAMES then (s.(cleanRun := s.cleanRun + 1), Silent)
    else (Log(false, 0, 0, s.lastAt), Recovered(s.failures))
  }

  /** A frame's outcome; a failure reads the clock. */
  datatype Attempt = Fails(at: real) | Works

  function Logged(s: Log, a: Attempt): (Log, Line) { if a.Fails? then Failed(s, a.at) else Succeeded(s) }

  function LogAfter(xs: seq<Attempt>): Log {
    if xs == [] then Quiet else Logged(LogAfter(xs[..|xs| - 1]), xs[|xs| - 1]).0
  }

  /** What frame i made the log print. */
  function Printed(xs: seq<Attempt>, i: nat): Line
    requires i < |xs|
  {
    Logged(LogAfter(xs[..i]), xs[i]).1
  }

  /** The clock does not go back. */
  ghost predicate Monotone(xs: seq<Attempt>) {
    forall i, j :: 0 <= i < j < |xs| && xs[i].Fails? && xs[j].Fails? ==> xs[i].at <= xs[j].at
  }

  /** The latest traceback among the first n frames was at `lastAt`. */
  ghost predicate Latest(xs: seq<Attempt>, n: nat, lastAt: Option<real>)
    requires n <= |xs|
  {
    && (lastAt.Some? ==>
          exists i :: 0 <= i < n && xs[i].Fails? && Printed(xs, i) == Traceback && xs[i].at == lastAt.value)
    && forall i :: 0 <= i < n && Printed(xs, i) == Traceback ==>
         xs[i].Fails? && lastAt.Some? && xs[i].at <= lastAt.value
  }

  lemma PrintedPrefix(xs: seq<Attempt>, n: nat)
    requires n <= |xs|
    ensures forall i :: 0 <= i < n ==> Printed(xs[..n], i) == Printed(xs, i)
  {
    hide LogAfter, Logged;
    assert forall i :: 0 <= i < n ==> xs[..n][..i] == xs[..i];
  }

  lemma {:induction false} AlwaysLatest(xs: seq<Attempt>)
    requires Monotone(xs)
    ensures Latest(xs, |xs|, LogAfter(xs).lastAt)
    decreases |xs|
  {
    if xs != [] {
      var n := |xs| - 1;
      AlwaysLatest(xs[..n]);
      PrintedPrefix(xs, n);
      LatestOneMore(xs, n);
    }
  }

  lemma LastAtMoves(s: Log, a: Attempt)
    ensures var (t, line) := Logged(s, a);
      if line == Traceback then a.Fails? && t.lastAt == Some(a.at) else t.lastAt == s.lastAt
  {
  }

  lemma LatestOneMore(xs: seq<Attempt>, n: nat)
    requires |xs| == n + 1 && Monotone(xs) && Latest(xs[..n], n, LogAfter(xs[..n]).lastAt)
    requires forall i :: 0 <= i < n ==> Printed(xs[..n], i) == Printed(xs, i)
    ensures Latest(xs, |xs|, LogAfter(xs).lastAt)
  {
    var s, t := LogAfter(xs[..n]), LogAfter(xs);
    assert t == Logged(s, xs[n]).0 && Printed(xs, n) == Logged(s, xs[n]).1;
    hide LogAfter, Printed, Logged;
    LastAtMoves(s, xs[n]);
    LatestOfPrefix(xs, n, s.lastAt);
    if Printed(xs, n) == Traceback {
      TracebackNow(xs, n, s.lastAt, t.lastAt);
    } else {
      NoTracebackNow(xs, n, s.lastAt);
    }
  }

  lemma LatestOfPrefix(xs: seq<Attempt>, n: nat, lastAt: Option<real>)
    requires n <= |xs| && Latest(xs[..n], n, lastAt)
    requires forall i :: 0 <= i < n ==> Printed(xs[..n], i) == Printed(xs, i)
    ensures Latest(xs, n, lastAt)
  {
    hide Printed;
    assert forall i :: 0 <= i < n ==> xs[..n][i] == xs[i];
    if lastAt.Some? {
      var i :| 0 <= i < n && xs[..n][i].Fails? && Printed(xs[..n], i) == Traceback && xs[..n][i].at == lastAt.value;
      assert Printed(xs, i) == Traceback;
    }
  }

  lemma TracebackNow(xs: seq<Attempt>, n: nat, lastAt: Option<real>, now: Option<real>)
    requires |xs| == n + 1 && Latest(xs, n, lastAt) && Printed(xs, n) == Traceback
    requires xs[n].Fails? && now == Some(xs[n].at)
    requires Monotone(xs)
    ensures Latest(xs, n + 1, now)
  {
    hide Printed;
  }

  lemma NoTracebackNow(xs: seq<Attempt>, n: nat, lastAt: Option<real>)
    requires |xs| == n + 1 && Latest(xs, n, lastAt) && Printed(xs, n) != Traceback
    ensures Latest(xs, n + 1, lastAt)
  {
    hide Printed;
  }

  /** A failure prints a traceback exactly when none was printed in the 300 seconds
      before it; so tracebacks lie at least 300 seconds apart, and no outage goes
      unreported for longer. */
  lemma TracebackIff(xs: seq<Attempt>, j: nat)
    requires Monotone(xs) && j < |xs| && xs[j].Fails?
    ensures Printed(xs, j) == Traceback <==>
      forall i :: 0 <= i < j && Printed(xs, i) == Traceback ==>
        xs[i].Fails? && xs[j].at - xs[i].at >= 300.0
  {
    AlwaysLatest(xs[..j]);
    PrintedPrefix(xs, j);
    var s := LogAfter(xs[..j]);
    assert Printed(xs, j) == Failed(s, xs[j].at).1;
    hide LogAfter, Printed;
    assert xs[..j][..j] == xs[..j];
    LatestOfPrefix(xs, j, s.lastAt);
    assert Printed(xs, j) == Traceback <==> s.lastAt.None? || xs[j].at - s.lastAt.value >= TRACEBACK_MIN_GAP_S;
    hide Failed;
  }

  // ---- What the summary line counts ----

  /** Failures among frames t to n. */
  function Failures(xs: seq<Attempt>, t: nat, n: nat): nat
    requires t <= n <= |xs|
    decreases n
  {
    if n == t then 0 else Failures(xs, t, n - 1) + if xs[n - 1].Fails? then 1 else 0
  }

  /** How many frames in a row worked just before frame n. */
  function Streak(xs: seq<Attempt>, n: nat): nat
    requires n <= |xs|
  {
    if n == 0 || xs[n - 1].Fails? then 0 else 1 + Streak(xs, n - 1)
  }

  predicate AllWork(xs: seq<Attempt>, a: nat, b: nat) { forall k :: a <= k < b && k < |xs| ==> xs[k].Works? }

  /** Fifty frames in a row worked after frame t and before frame n. */
  ghost predicate CleanSince(xs: seq<Attempt>, t: nat, n: nat) {
    exists a: nat :: t < a && a + RECOVERY_CLEAN_FRAMES <= n && CleanFrom(xs, a)
  }

  predicate CleanFrom(xs: seq<Attempt>, a: nat) { AllWork(xs, a, a + RECOVERY_CLEAN_FRAMES) }

  lemma {:induction false} StreakIs(xs: seq<Attempt>, n: nat, len: nat)
    requires len <= n <= |xs|
    ensures Streak(xs, n) >= len <==> AllWork(xs, n - len, n)
    decreases n
  {
    if len > 0 && xs[n - 1].Works? { StreakIs(xs, n - 1, len - 1); }
  }

  lemma CleanGrows(xs: seq<Attempt>, t: nat, n: nat)
    requires t < n < |xs| && xs[t].Fails?
    ensures CleanSince(xs, t, n + 1) <==> CleanSince(xs, t, n) || Streak(xs, n + 1) >= RECOVERY_CLEAN_FRAMES
  {
    var len := RECOVERY_CLEAN_FRAMES;
    if n + 1 >= len { StreakIs(xs, n + 1, len); } else { StreakShort(xs, n + 1); }
    if Streak(xs, n + 1) >= len {
      assert CleanFrom(xs, n + 1 - len);
      assert t < n + 1 - len by { assert xs[t].Fails?; }
    }
    hide Streak;
    if CleanSince(xs, t, n + 1) {
      var a: nat :| t < a && a + len <= n + 1 && CleanFrom(xs, a);
      assert a + len <= n || a == n + 1 - len;
    }
  }

  lemma {:induction false} StreakShort(xs: seq<Attempt>, n: nat)
    requires n <= |xs|
    ensures Streak(xs, n) <= n
  {
    if n > 0 { StreakShort(xs, n - 1); }
  }

  /** Where the log stands at frame n, the latest traceback having been printed at t. */
  ghost predicate Counts(xs: seq<Attempt>, t: nat, n: nat, s: Log)
    requires t < n <= |xs|
  {
    && s.lastAt.Some? && s.failures <= Failures(xs, t, n)
    && (s.failures == Failures(xs, t, n) <==> !CleanSince(xs, t, n))
    && (s.degraded ==> s.cleanRun == Streak(xs, n) < RECOVERY_CLEAN_FRAMES)
    && (!s.degraded ==> CleanSince(xs, t, n) && s.failures == 0)
  }

  ghost predicate TracebackAt(xs: seq<Attempt>, t: nat) { t < |xs| && Printed(xs, t) == Traceback }

  ghost predicate NoneAfter(xs: seq<Attempt>, t: nat, n: nat) { forall j: nat :: t < j < n ==> !TracebackAt(xs, j) }

  lemma CountStarts(xs: seq<Attempt>, t: nat, s: Log)
    requires t < |xs| && xs[t].Fails? && Failed(s, xs[t].at).1 == Traceback
    ensures Counts(xs, t, t + 1, Failed(s, xs[t].at).0)
  {
    assert Failures(xs, t, t + 1) == Failures(xs, t, t) + 1;
  }

  lemma CountMoves(xs: seq<Attempt>, t: nat, n: nat, s: Log)
    requires t < n < |xs| && xs[t].Fails? && Counts(xs, t, n, s) && Logged(s, xs[n]).1 != Traceback
    ensures Counts(xs, t, n + 1, Logged(s, xs[n]).0)
  {
    CleanGrows(xs, t, n);
    assert Failures(xs, t, n + 1) == Failures(xs, t, n) + if xs[n].Fails? then 1 else 0;
    assert Streak(xs, n + 1) == if xs[n].Fails? then 0 else 1 + Streak(xs, n);
    FailureAtStart(xs, t, n);
    hide CleanSince, Failures, Streak;
  }

  lemma {:induction false} FailureAtStart(xs: seq<Attempt>, t: nat, n: nat)
    requires t < n <= |xs| && xs[t].Fails?
    ensures Failures(xs, t, n) > 0
    decreases n
  {
    if n > t + 1 { FailureAtStart(xs, t, n - 1); }
  }

  lemma TracebackFails(xs: seq<Attempt>, t: nat)
    requires TracebackAt(xs, t)
    ensures xs[t].Fails? && Failed(LogAfter(xs[..t]), xs[t].at).1 == Traceback
  {
  }

  lemma LogNext(xs: seq<Attempt>, n: nat)
    requires n < |xs|
    ensures LogAfter(xs[..n + 1]) == Logged(LogAfter(xs[..n]), xs[n]).0
    ensures Printed(xs, n) == Logged(LogAfter(xs[..n]), xs[n]).1
  {
    assert xs[..n + 1][..n] == xs[..n];
  }

  lemma {:induction false} AlwaysCounts(xs: seq<Attempt>, t: nat, n: nat)
    requires TracebackAt(xs, t) && t < n <= |xs| && NoneAfter(xs, t, n)
    ensures Counts(xs, t, n, LogAfter(xs[..n]))
    decreases n
  {
    TracebackFails(xs, t);
    LogNext(xs, n - 1);
    hide Counts, LogAfter, Printed;
    if n == t + 1 {
      CountStarts(xs, t, LogAfter(xs[..t]));
    } else {
      AlwaysCounts(xs, t, n - 1);
      assert !TracebackAt(xs, n - 1);
      CountMoves(xs, t, n - 1, LogAfter(xs[..n - 1]));
    }
  }

  /** The log remembers a traceback only if it printed one. */
  lemma {:induction false} LatestTraceback(xs: seq<Attempt>, n: nat) returns (t: nat)
    requires n <= |xs| && LogAfter(xs[..n]).lastAt.Some?
    ensures t < n && TracebackAt(xs, t) && NoneAfter(xs, t, n)
  {
    t := 0;
    if n > 0 {
      LogNext(xs, n - 1);
      hide LogAfter, Printed;
      if TracebackAt(xs, n - 1) {
        t := n - 1;
      } else {
        LastAtMoves(LogAfter(xs[..n - 1]), xs[n - 1]);
        t := LatestTraceback(xs, n - 1);
      }
    }
  }

  /** Every summary line has a traceback above it, and counts the failures since that one
      exactly when no fifty frames in a row worked in between; otherwise it counts fewer. */
  lemma SummaryCountIff(xs: seq<Attempt>, i: nat) returns (t: nat)
    requires i < |xs| && Printed(xs, i).StillFailing?
    ensures t < i && TracebackAt(xs, t) && NoneAfter(xs, t, i + 1)
    ensures Printed(xs, i).count == Failures(xs, t, i + 1) <==> !CleanSince(xs, t, i + 1)
    ensures Printed(xs, i).count <= Failures(xs, t, i + 1)
  {
    LogNext(xs, i);
    t := LatestTraceback(xs, i);
    assert !TracebackAt(xs, i);
    AlwaysCounts(xs, t, i + 1);
    hide CleanSince, Failures, Streak, LogAfter;
  }

  // ---- Every line of the log ----

  /** From which frame on failures are counted before frame n: the latest traceback, or
      just behind the latest recovery. */
  function CountedFrom(xs: seq<Attempt>, n: nat): (t: nat)
    requires n <= |xs|
    ensures t <= n
  {
    if n == 0 then 0
    else
      match Printed(xs, n - 1)
      case Traceback => n - 1
      case Recovered(_) => n
      case _ => CountedFrom(xs, n - 1)
  }

  /** The log stands as these frames say: degraded while there was a failure and fewer than
      fifty frames have worked since. */
  ghost predicate Stands(xs: seq<Attempt>, n: nat, s: Log)
    requires n <= |xs|
  {
    && (s.degraded <==> Streak(xs, n) < n && Streak(xs, n) < RECOVERY_CLEAN_FRAMES)
    && (s.degraded ==> s.cleanRun == Streak(xs, n))
    && s.failures == Failures(xs, CountedFrom(xs, n), n)
  }

  lemma StandsNext(xs: seq<Attempt>, n: nat, s: Log)
    requires n < |xs| && Stands(xs, n, s) && Printed(xs, n) == Logged(s, xs[n]).1
    ensures Stands(xs, n + 1, Logged(s, xs[n]).0)
  {
    StreakShort(xs, n);
    var t := CountedFrom(xs, n);
    assert Streak(xs, n + 1) == if xs[n].Fails? then 0 else 1 + Streak(xs, n);
    assert Failures(xs, t, n + 1) == Failures(xs, t, n) + if xs[n].Fails? then 1 else 0;
    assert Failures(xs, n, n + 1) == Failures(xs, n, n) + if xs[n].Fails? then 1 else 0;
    assert Failures(xs, n, n) == 0 == Failures(xs, n + 1, n + 1);
    hide Streak, Failures, Printed;
  }

  lemma {:induction false} AlwaysStands(xs: seq<Attempt>, n: nat)
    requires n <= |xs|
    ensures Stands(xs, n, LogAfter(xs[..n]))
  {
    if n > 0 {
      AlwaysStands(xs, n - 1);
      LogNext(xs, n - 1);
      hide LogAfter, Printed, Stands, Logged;
      StandsNext(xs, n - 1, LogAfter(xs[..n - 1]));
    }
  }

  /** A failure that prints no traceback prints a summary at every hundredth failure
      counted, with that count, and else nothing. */
  lemma SummaryIff(xs: seq<Attempt>, i: nat)
    requires i < |xs| && xs[i].Fails? && Printed(xs, i) != Traceback
    ensures var count := Failures(xs, CountedFrom(xs, i), i + 1);
      Printed(xs, i) == if count % 100 == 0 then StillFailing(count) else Silent
  {
    AlwaysStands(xs, i);
    LogNext(xs, i);
    var t := CountedFrom(xs, i);
    assert Failures(xs, t, i + 1) == Failures(xs, t, i) + 1;
    hide LogAfter, Printed, Failures, Streak;
  }

  /** A frame that works prints a recovery exactly when it is the fiftieth in a row behind a
      failure, with the failures counted till then, and else nothing. */
  lemma RecoveredIff(xs: seq<Attempt>, i: nat)
    requires i < |xs| && xs[i].Works?
    ensures Printed(xs, i) ==
      if i >= 50 && xs[i - 50].Fails? && AllWork(xs, i - 49, i + 1)
      then Recovered(Failures(xs, CountedFrom(xs, i), i)) else Silent
  {
    AlwaysStands(xs, i);
    LogNext(xs, i);
    StreakShort(xs, i);
    if i >= 49 { StreakIs(xs, i, 49); }
    if i >= 50 { StreakIs(xs, i, 50); }
    hide LogAfter, Printed, Failures, Streak;
  }

  // ---- A summary that is wrong ----

  function Failing(at: real, n: nat): seq<Attempt> { seq(n, _ => Fails(at)) }

  function Working(n: nat): seq<Attempt> { seq(n, _ => Works) }

  function Silence(): seq<Attempt> { [Fails(0.0)] + Working(RECOVERY_CLEAN_FRAMES) }

  lemma {:induction false} SilenceLog(n: nat)
    requires n <= RECOVERY_CLEAN_FRAMES
    ensures LogAfter([Fails(0.0)] + Working(n)) ==
      if n == RECOVERY_CLEAN_FRAMES then Log(false, 0, 0, Some(0.0)) else Log(true, 1, n, Some(0.0))
  {
    var xs := [Fails(0.0)] + Working(n);
    if n == 0 {
      assert xs[..0] == [] && |xs| == 1;
    } else {
      SilenceLog(n - 1);
      assert xs[..n] == [Fails(0.0)] + Working(n - 1);
      assert xs[n] == Works && |xs| == n + 1;
    }
  }

  lemma {:induction false} OutageLog(n: nat)
    ensures LogAfter(Silence() + Failing(1.0, n)) == Log(n > 0, n, 0, Some(0.0))
  {
    var xs := Silence() + Failing(1.0, n);
    if n == 0 {
      SilenceLog(RECOVERY_CLEAN_FRAMES);
      assert xs == Silence();
    } else {
      OutageLog(n - 1);
      assert xs[..|xs| - 1] == Silence() + Failing(1.0, n - 1);
      assert xs[|xs| - 1] == Fails(1.0);
    }
  }

  /** One failure, fifty quiet frames, then a hundred failures within the second: the
      summary says 100, and 101 frames have failed since the traceback above it. */
  lemma SummaryUndercounts()
    ensures var xs, n := Silence() + Failing(1.0, FAILURE_LOG_EVERY), RECOVERY_CLEAN_FRAMES + FAILURE_LOG_EVERY;
      |xs| == n + 1 && TracebackAt(xs, 0) && Printed(xs, n) == StillFailing(100) && Failures(xs, 0, n + 1) == 101
  {
    var xs, n := Silence() + Failing(1.0, FAILURE_LOG_EVERY), RECOVERY_CLEAN_FRAMES + FAILURE_LOG_EVERY;
    OutageLog(FAILURE_LOG_EVERY - 1);
    assert xs[..n] == Silence() + Failing(1.0, FAILURE_LOG_EVERY - 1);
    assert xs[..0] == [];
    CountOutage(xs, RECOVERY_CLEAN_FRAMES + 1);
    CountOutage(xs, n + 1);
  }

  lemma {:induction false} CountOutage(xs: seq<Attempt>, n: nat)
    requires xs == Silence() + Failing(1.0, FAILURE_LOG_EVERY) && 0 < n <= |xs|
    ensures Failures(xs, 0, n) == if n <= RECOVERY_CLEAN_FRAMES + 1 then 1 else n - RECOVERY_CLEAN_FRAMES
  {
    if n > 1 { CountOutage(xs, n - 1); }
  }

  // ---- The worker object ----

  lemma RunMore<M>(s: State<M>, ops: seq<Op<M>>, op: Op<M>)
    ensures Run(s, ops + [op]) == Step(Run(s, ops), op)
  {
    assert (ops + [op])[..|ops|] == ops;
  }

  function Gets<M>(n: nat): seq<Op<M>> { seq(n, _ => Get) }

  /** The operations of one enqueue, the consumer getting gap1 and gap2 times in between. */
  function EnqueueOps<M>(m: M, full: bool, gap1: nat, gap2: nat): seq<Op<M>> {
    if full then [TryPut(m)] + Gets(gap1) + [DropOldest] + Gets(gap2) + [PutAgain] else [TryPut(m)]
  }

  lemma OpsOf<M>(ops: seq<Op<M>>, m: M, gap1: nat, gap2: nat)
    ensures ops + EnqueueOps(m, false, gap1, gap2) == ops + [TryPut(m)]
    ensures ops + EnqueueOps(m, true, gap1, gap2) ==
      ops + [TryPut(m)] + Gets(gap1) + [DropOldest] + Gets(gap2) + [PutAgain]
  {
  }

  class Worker<M> {
    const cap: nat
    var q: seq<M>
    var log: Log
    ghost var put: seq<M>
    ghost var taken: seq<M>
    ghost var dropped: seq<M>
    ghost var phase: Phase<M>
    /** Every queue operation so far, of both threads. */
    ghost var ops: seq<Op<M>>

    ghost function Now(): State<M>
      reads this
    {
      State(cap, q, put, taken, dropped, phase)
    }

    ghost predicate Valid()
      reads this
    {
      Now() == Run(Start<M>(cap), ops)
    }

    constructor (cap: nat)
      ensures Valid() && ops == [] && phase == Idle && log == Quiet
    {
      this.cap := cap;
      q, log := [], Quiet;
      put, taken, dropped, phase, ops := [], [], [], Idle, [];
    }

    /** What holds of the worker at any moment. */
    lemma Accounted() returns (gone: seq<M>, marks: seq<bool>)
      requires Valid()
      ensures !phase.Crashed? && put == gone + q && |gone| == |marks|
      ensures taken == Picked(gone, marks, true) && dropped == Picked(gone, marks, false)
      ensures |put| == |taken| + |dropped| + |q|
      ensures phase.Idle? && put != [] && q == [] ==> marks[|marks| - 1]
      ensures phase.Again? ==> cap == 0 || |q| < cap
    {
      gone, marks := EveryInterleaving(cap, ops);
    }

    /** The consumer's get with a timeout: None when the queue stays empty. */
    method TakeNext() returns (m: Option<M>)
      requires Valid()
      modifies this
      ensures Valid() && ops == old(ops) + [Get] && log == old(log) && phase == old(phase) && put == old(put)
      ensures m == if old(q) == [] then None else Some(old(q)[0])
    {
      RunMore(Start<M>(cap), ops, Get);
      hide Run;
      ops := ops + [Get];
      if q == [] {
        return None;
      }
      m := Some(q[0]);
      taken := taken + [q[0]];
      q := q[1..];
    }

    /** The consumer runs n times while the producer is between two operations. */
    method Interleave(n: nat)
      requires Valid()
      modifies this
      ensures Valid() && ops == old(ops) + Gets(n) && log == old(log) && phase == old(phase) && put == old(put)
    {
      assert ops + Gets(0) == ops;
      for i := 0 to n
        invariant Valid() && ops == old(ops) + Gets(i) && log == old(log) && phase == old(phase) && put == old(put)
      {
        assert old(ops) + Gets(i) + [Get] == old(ops) + Gets(i + 1);
        var _ := TakeNext();
      }
    }

    /** put_nowait, the first time; false when the queue is full. */
    method PutNowait(m: M) returns (ok: bool)
      requires Valid() && phase.Idle?
      modifies this
      ensures Valid() && ops == old(ops) + [TryPut(m)] && log == old(log)
      ensures ok == !old(Full(Now()))
      ensures if ok then phase.Idle? && put == old(put) + [m] else phase == Refused(m) && put == old(put)
    {
      RunMore(Start<M>(cap), ops, TryPut(m));
      hide Run;
      ops := ops + [TryPut(m)];
      ok := cap == 0 || |q| < cap;
      if ok {
        q := q + [m];
        put := put + [m];
      } else {
        phase := Refused(m);
      }
    }

    /** get_nowait by the producer; the queue may have emptied meanwhile. */
    method DropNowait(ghost m: M)
      requires Valid() && phase == Refused(m)
      modifies this
      ensures Valid() && ops == old(ops) + [DropOldest] && log == old(log) && phase == Again(m) && put == old(put)
    {
      RunMore(Start<M>(cap), ops, DropOldest);
      hide Run;
      ops := ops + [DropOldest];
      phase := Again(m);
      if q != [] {
        dropped := dropped + [q[0]];
        q := q[1..];
      }
    }

    /** put_nowait after a drop. It would raise if the queue were full; it never is. */
    method PutOnceMore(m: M)
      requires Valid() && phase == Again(m)
      modifies this
      ensures Valid() && ops == old(ops) + [PutAgain] && log == old(log) && phase.Idle? && put == old(put) + [m]
    {
      ghost var _, _ := Accounted();
      RunMore(Start<M>(cap), ops, PutAgain);
      hide Run;
      ops := ops + [PutAgain];
      assert cap == 0 || |q| < cap;
      q := q + [m];
      put := put + [m];
      phase := Idle;
    }

    /** The whole enqueue, as its two threads' operations. */
    method Enqueue(m: M, gap1: nat, gap2: nat)
      requires Valid() && phase.Idle?
      modifies this
      ensures Valid() && phase.Idle? && log == old(log) && put == old(put) + [m]
      ensures ops == old(ops) + EnqueueOps(m, old(Full(Now())), gap1, gap2)
    {
      hide *;
      var ok := PutNowait(m);
      if !ok {
        Interleave(gap1);
        DropNowait(m);
        Interleave(gap2);
        PutOnceMore(m);
      }
      OpsOf(old(ops), m, gap1, gap2);
    }

    method LogFailure(now: real) returns (line: Line)
      modifies this
      ensures (log, line) == Failed(old(log), now) && Now() == old(Now()) && ops == old(ops)
    {
      log := log.(cleanRun := 0, failures := log.failures + 1, degraded := true);
      line := Silent;
      if log.lastAt.None? || now - log.lastAt.value >= TRACEBACK_MIN_GAP_S {
        log := log.(lastAt := Some(now), failures := 1);
        line := Traceback;
      } else if log.failures % FAILURE_LOG_EVERY == 0 {
        line := StillFailing(log.failures);
      }
    }

    method NoteSuccess() returns (line: Line)
      modifies this
      ensures (log, line) == Succeeded(old(log)) && Now() == old(Now()) && ops == old(ops)
    {
      if !log.degraded {
        return Silent;
      }
      var run := log.cleanRun + 1;
      if run < RECOVERY_CLEAN_FRAMES {
        log := log.(cleanRun := run);
        return Silent;
      }
      line := Recovered(log.failures);
      log := log.(degraded := false, failures := 0, cleanRun := 0);
    }
  }
}
