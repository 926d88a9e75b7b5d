/** The live drainer of ble_drain.c over a recorded history: how the cursor moves, when
    it rewinds for preroll, and which frames each batch hands to the packing stage. */
module DrainSpec {
  import opened C6Types
  import opened RingBuffer
  import opened AudioTask
  import opened Sequences

  datatype Drain = Drain(cursor: nat, inSpeech: bool)

  const Init := Drain(0, false)

  /** A frame handed to the packing stage, with the tag its header byte would carry. */
  datatype Tagged = Tagged(index: nat, vad: VadState)

  predicate SpeechTag(v: VadState) { v == Speech || v == Hangover }

  /** The drainer's own test; on produced frames it agrees with `Voiced`. */
  predicate Audible(f: Frame) { f.vad != GapMarker && f.data != [] }

  predicate Ready(h: seq<Frame>, d: Drain) { d.cursor + FRAMES_PER_CHUNK <= |h| }

  function RewindTo(c: nat): nat { if c >= VAD_PREROLL_FRAMES then c - VAD_PREROLL_FRAMES else 0 }

  predicate Rewinds(h: seq<Frame>, d: Drain)
    requires d.cursor < |h|
  {
    !d.inSpeech && SpeechTag(h[d.cursor].vad) && RewindTo(d.cursor) < d.cursor
  }

  function Base(h: seq<Frame>, d: Drain): (base: nat)
    requires d.cursor < |h|
    ensures base <= d.cursor
  {
    if Rewinds(h, d) then RewindTo(d.cursor) else d.cursor
  }

  /** The audible frames of lo..hi, tagged; a rewound batch starts at lo. */
  function Collect(h: seq<Frame>, lo: nat, hi: nat, prerolled: bool): seq<Tagged>
    requires lo <= hi <= |h|
  {
    if lo == hi then []
    else
      var f := h[hi - 1];
      Collect(h, lo, hi - 1, prerolled) +
      if Audible(f) then [Tagged(hi - 1, if prerolled && hi - 1 - lo < VAD_PREROLL_FRAMES then Preroll else f.vad)]
      else []
  }

  function Batch(h: seq<Frame>, d: Drain): seq<Tagged>
    requires Ready(h, d)
  {
    Collect(h, Base(h, d), Base(h, d) + FRAMES_PER_CHUNK, Rewinds(h, d))
  }

  /** `in_speech` after a batch: the tag given to its last audible frame. */
  predicate EndsInSpeech(batch: seq<Tagged>) {
    batch != [] && SpeechTag(batch[|batch| - 1].vad)
  }

  function After(h: seq<Frame>, d: Drain): Drain
    requires Ready(h, d)
  {
    Drain(Base(h, d) + FRAMES_PER_CHUNK, EndsInSpeech(Batch(h, d)))
  }

  /** The drainer after n turns of its loop, waiting when fewer than a chunk remains. */
  function At(h: seq<Frame>, n: nat): Drain {
    if n == 0 then Init
    else if Ready(h, At(h, n - 1)) then After(h, At(h, n - 1)) else At(h, n - 1)
  }

  /** Everything handed to the packing stage in those turns. */
  function Log(h: seq<Frame>, n: nat): seq<Tagged> {
    if n == 0 then []
    else Log(h, n - 1) + if Ready(h, At(h, n - 1)) then Batch(h, At(h, n - 1)) else []
  }

  // ---- Batches ----

  ghost predicate Quiet(h: seq<Frame>, lo: int, hi: int) {
    forall i :: 0 <= i < |h| && lo <= i < hi ==> !Audible(h[i])
  }

  lemma {:induction false} CollectQuiet(h: seq<Frame>, lo: nat, hi: nat, prerolled: bool)
    requires lo <= hi <= |h|
    ensures Collect(h, lo, hi, prerolled) == [] <==> Quiet(h, lo, hi)
  {
    if lo < hi {
      CollectQuiet(h, lo, hi - 1, prerolled);
      if Quiet(h, lo, hi) { assert Quiet(h, lo, hi - 1); }
    }
  }

  lemma {:induction false} CollectTags(h: seq<Frame>, lo: nat, hi: nat, prerolled: bool)
    requires lo <= hi <= |h| && hi - lo <= VAD_PREROLL_FRAMES
    ensures forall t :: t in Collect(h, lo, hi, prerolled) ==>
      lo <= t.index < hi && Audible(h[t.index]) && t.vad == if prerolled then Preroll else h[t.index].vad
  {
    if lo < hi { CollectTags(h, lo, hi - 1, prerolled); }
  }

  /** On produced frames a batch ends in speech exactly when it has an audible frame and
      was not rewound. */
  lemma CollectEnds(h: seq<Frame>, lo: nat, hi: nat, prerolled: bool)
    requires Clean(h) && lo <= hi <= |h| && hi - lo <= VAD_PREROLL_FRAMES
    ensures EndsInSpeech(Collect(h, lo, hi, prerolled)) <==> !prerolled && !Quiet(h, lo, hi)
  {
    CollectTags(h, lo, hi, prerolled);
    CollectQuiet(h, lo, hi, prerolled);
    var batch := Collect(h, lo, hi, prerolled);
    if batch != [] {
      var t := batch[|batch| - 1];
      assert t in batch;
      assert Produced(h[t.index]);
    }
  }

  lemma {:induction false} CollectIs(h: seq<Frame>, lo: nat, hi: nat, prerolled: bool)
    requires lo <= hi <= |h| && hi - lo <= VAD_PREROLL_FRAMES
    ensures forall t :: t in Collect(h, lo, hi, prerolled) <==>
      lo <= t.index < hi && Audible(h[t.index]) && t.vad == if prerolled then Preroll else h[t.index].vad
  {
    if lo < hi { CollectIs(h, lo, hi - 1, prerolled); }
  }

  lemma ProducedIs(f: Frame)
    requires Produced(f)
    ensures Audible(f) <==> f.data != []
    ensures f.data != [] <==> f.vad == Speech || f.vad == Hangover
    ensures SpeechTag(f.vad) <==> f.data != []
  {
  }

  // ---- Progress ----

  /** Speech that starts at frame 10 after ten silent frames: the rewind is clipped to
      frame 0, ten frames back, which is exactly one batch. */
  ghost predicate OnsetAtTen(h: seq<Frame>) {
    2 * FRAMES_PER_CHUNK <= |h| && Audible(h[10]) && Quiet(h, 0, 10)
  }

  /** A batch boundary not left by a rewind. */
  ghost predicate Settled(h: seq<Frame>, d: Drain) {
    d.cursor == 0 || d.inSpeech || (d.cursor >= 10 && Quiet(h, d.cursor - 10, d.cursor))
  }

  /** Just after a rewound batch: five silent frames, then the onset that caused it. */
  ghost predicate Rewound(h: seq<Frame>, d: Drain) {
    && !d.inSpeech && d.cursor >= 10
    && d.cursor + 5 < |h| && Audible(h[d.cursor + 5])
    && Quiet(h, d.cursor - 5, d.cursor + 5)
  }

  ghost predicate Invariant(h: seq<Frame>, d: Drain) {
    && d.cursor % 5 == 0 && d.cursor <= |h|
    && (d.inSpeech ==> d.cursor >= 10)
    && (Settled(h, d) || Rewound(h, d))
  }

  /** A batch that rewound is never followed by another rewind, and one turn of the loop
      keeps the invariant. */
  lemma StepInvariant(h: seq<Frame>, d: Drain)
    requires Clean(h) && !OnsetAtTen(h) && Invariant(h, d) && Ready(h, d)
    ensures Invariant(h, After(h, d))
    ensures if Rewinds(h, d)
            then Settled(h, d) && Rewound(h, After(h, d)) && d.cursor >= 15
            else Settled(h, After(h, d))
    ensures Rewound(h, d) ==> After(h, d).inSpeech
  {
    assert Produced(h[d.cursor]);
    CollectEnds(h, Base(h, d), Base(h, d) + FRAMES_PER_CHUNK, Rewinds(h, d));
    hide Collect, Clean;
    if Rewinds(h, d) {
      assert Settled(h, d) && d.cursor > 0 && Quiet(h, d.cursor - 10, d.cursor);
      assert d.cursor == 10 ==> Quiet(h, 0, 10);
      if d.cursor == 10 { assert false; }
    } else if Rewound(h, d) {
      assert Audible(h[d.cursor + 5]);
    }
  }

  lemma {:induction false} AlwaysInvariant(h: seq<Frame>, n: nat)
    requires Clean(h) && !OnsetAtTen(h)
    ensures Invariant(h, At(h, n))
  {
    if n > 0 {
      AlwaysInvariant(h, n - 1);
      if Ready(h, At(h, n - 1)) { StepInvariant(h, At(h, n - 1)); }
    }
  }

  /** Turns that can still follow: a rewind costs one, and the turn after it repays it. */
  ghost function Left(h: seq<Frame>, d: Drain): int {
    if Rewound(h, d) then |h| - d.cursor - 6 else |h| - d.cursor
  }

  lemma {:induction false} TurnsBounded(h: seq<Frame>, n: nat)
    requires Clean(h) && !OnsetAtTen(h)
    ensures Ready(h, At(h, n)) ==> Left(h, At(h, n)) <= |h| - n
  {
    hide Clean, OnsetAtTen, Invariant, Rewinds, Batch, EndsInSpeech;
    if n > 0 && Ready(h, At(h, n - 1)) {
      TurnsBounded(h, n - 1);
      AlwaysInvariant(h, n - 1);
      StepInvariant(h, At(h, n - 1));
    }
  }

  lemma {:induction false} StuckAtTen(h: seq<Frame>, n: nat)
    requires Clean(h) && OnsetAtTen(h)
    ensures At(h, n) == if n == 0 then Init else Drain(10, false)
  {
    if n > 0 {
      StuckAtTen(h, n - 1);
      var d := At(h, n - 1);
      assert Produced(h[0]) && Produced(h[10]);
      assert Base(h, d) == 0;
      CollectEnds(h, 0, FRAMES_PER_CHUNK, Rewinds(h, d));
    }
  }

  /** Despite the rewinds the drainer consumes every history down to less than one chunk,
      within one turn per frame, exactly when speech does not start at frame 10 after
      ten silent frames. In that one case it re-reads frames 0..9 for ever. */
  lemma DrainsIff(h: seq<Frame>)
    requires Clean(h)
    ensures !Ready(h, At(h, |h|)) <==> !OnsetAtTen(h)
    ensures OnsetAtTen(h) ==> forall n :: n > 0 ==> At(h, n) == Drain(10, false)
  {
    if OnsetAtTen(h) {
      forall n | n > 0 ensures At(h, n) == Drain(10, false) { StuckAtTen(h, n); }
    } else {
      TurnsBounded(h, |h|);
    }
  }

  /** The producer may append while the drainer works: a batch depends only on frames
      already written when it became ready. */
  lemma {:induction false} CollectPrefix(h: seq<Frame>, g: seq<Frame>, lo: nat, hi: nat, prerolled: bool)
    requires h <= g && lo <= hi <= |h|
    ensures Collect(h, lo, hi, prerolled) == Collect(g, lo, hi, prerolled)
  {
    if lo < hi { CollectPrefix(h, g, lo, hi - 1, prerolled); }
  }

  lemma BatchPrefix(h: seq<Frame>, g: seq<Frame>, d: Drain)
    requires h <= g && Ready(h, d)
    ensures Base(h, d) == Base(g, d) && Batch(h, d) == Batch(g, d) && After(h, d) == After(g, d)
  {
    CollectPrefix(h, g, Base(h, d), Base(h, d) + FRAMES_PER_CHUNK, Rewinds(h, d));
  }

  // ---- What is delivered ----

  /** The entries sent under their own tag. */
  function Own(log: seq<Tagged>): seq<Tagged> {
    if log == [] then []
    else Own(log[..|log| - 1]) + if log[|log| - 1].vad == Preroll then [] else [log[|log| - 1]]
  }

  /** The entries sent as preroll. */
  function Extra(log: seq<Tagged>): seq<Tagged> {
    if log == [] then []
    else Extra(log[..|log| - 1]) + if log[|log| - 1].vad == Preroll then [log[|log| - 1]] else []
  }

  lemma {:induction false} OwnSplits(xs: seq<Tagged>, ys: seq<Tagged>)
    ensures Own(xs + ys) == Own(xs) + Own(ys) && Extra(xs + ys) == Extra(xs) + Extra(ys)
  {
    if ys == [] {
      assert xs + ys == xs;
    } else {
      assert (xs + ys)[..|xs + ys| - 1] == xs + ys[..|ys| - 1];
      OwnSplits(xs, ys[..|ys| - 1]);
    }
  }

  ghost predicate AllOwn(log: seq<Tagged>) { forall t :: t in log ==> t.vad != Preroll }
  ghost predicate AllPreroll(log: seq<Tagged>) { forall t :: t in log ==> t.vad == Preroll }

  lemma {:induction false} OwnOfOwn(log: seq<Tagged>)
    requires AllOwn(log)
    ensures Own(log) == log && Extra(log) == []
  {
    hide Own, Extra;
    if log == [] {
      NothingTagged();
    } else {
      var n := |log| - 1;
      assert log[n] in log;
      OwnOfOwn(log[..n]);
      OwnEntry(log, n);
      assert log == log[..n] + [log[n]];
    }
  }

  lemma NothingTagged()
    ensures Own([]) == [] && Extra([]) == []
  {
  }

  lemma OwnEntry(log: seq<Tagged>, n: nat)
    requires |log| == n + 1 && log[n].vad != Preroll
    ensures Own(log) == Own(log[..n]) + [log[n]] && Extra(log) == Extra(log[..n])
  {
    hide Own;
    NothingAround(Extra(log[..n]));
    assert Own(log) == Own(log[..n]) + [log[n]] by { OwnLast(log, n); }
  }

  lemma OwnLast(log: seq<Tagged>, n: nat)
    requires |log| == n + 1 && log[n].vad != Preroll
    ensures Own(log) == Own(log[..n]) + [log[n]]
  {
  }

  lemma {:induction false} OwnOfPreroll(log: seq<Tagged>)
    requires AllPreroll(log)
    ensures Own(log) == [] && Extra(log) == log
  {
    if log != [] {
      assert log[|log| - 1] in log;
      OwnOfPreroll(log[..|log| - 1]);
    }
  }

  lemma {:induction false} CollectSplits(h: seq<Frame>, lo: nat, mid: nat, hi: nat)
    requires lo <= mid <= hi <= |h|
    ensures Collect(h, lo, hi, false) == Collect(h, lo, mid, false) + Collect(h, mid, hi, false)
  {
    if mid < hi { CollectSplits(h, lo, mid, hi - 1); }
  }

  /** Strictly increasing frame indices. */
  ghost predicate Increasing(log: seq<Tagged>) {
    forall i, j :: 0 <= i < j < |log| ==> log[i].index < log[j].index
  }

  ghost predicate Within(log: seq<Tagged>, lo: int, hi: int) {
    forall i :: 0 <= i < |log| ==> lo <= log[i].index < hi
  }

  lemma {:induction false} CollectIncreasing(h: seq<Frame>, lo: nat, hi: nat, prerolled: bool)
    requires lo <= hi <= |h|
    ensures Increasing(Collect(h, lo, hi, prerolled)) && Within(Collect(h, lo, hi, prerolled), lo, hi)
  {
    if lo < hi { CollectIncreasing(h, lo, hi - 1, prerolled); }
  }

  /** Preroll entries stay clear of the next rewind: they precede by ten frames a frame
      already delivered as speech, or the onset about to be. */
  ghost predicate ExtraClear(h: seq<Frame>, d: Drain, extra: seq<Tagged>) {
    || extra == []
    || (Rewound(h, d) && Within(extra, 0, d.cursor - 5))
    || exists v :: 0 <= v < d.cursor <= |h| && Audible(h[v]) && Within(extra, 0, v - 9)
  }

  lemma RewindLands(h: seq<Frame>, d: Drain)
    requires Clean(h) && !OnsetAtTen(h) && Invariant(h, d) && Ready(h, d) && Rewinds(h, d)
    ensures d.cursor >= 15 && Base(h, d) == d.cursor - 15 && After(h, d).cursor == d.cursor - 5
    ensures Quiet(h, d.cursor - 10, d.cursor) && Quiet(h, d.cursor - 5, d.cursor)
    ensures Rewound(h, After(h, d))
  {
    StepInvariant(h, d);
  }

  /** A rewound batch re-sends only frames of the five before the ten silent ones. */
  lemma RewindBatch(h: seq<Frame>, d: Drain)
    requires Clean(h) && !OnsetAtTen(h) && Invariant(h, d) && Ready(h, d) && Rewinds(h, d)
    ensures AllPreroll(Batch(h, d)) && Increasing(Batch(h, d))
    ensures d.cursor >= 15 && Within(Batch(h, d), d.cursor - 15, d.cursor - 10)
  {
    RewindLands(h, d);
    var lo := d.cursor - 15;
    CollectTags(h, lo, lo + FRAMES_PER_CHUNK, true);
    CollectIncreasing(h, lo, lo + FRAMES_PER_CHUNK, true);
    var batch := Batch(h, d);
    forall i | 0 <= i < |batch| ensures lo <= batch[i].index < d.cursor - 10 {
      assert batch[i] in batch;
    }
  }

  lemma ExtraStaysClear(h: seq<Frame>, d: Drain, extra: seq<Tagged>)
    requires Clean(h) && !OnsetAtTen(h) && Invariant(h, d) && Ready(h, d) && ExtraClear(h, d, extra)
    ensures if Rewinds(h, d) then Within(extra, 0, d.cursor - 15)
            else ExtraClear(h, After(h, d), extra)
  {
    StepInvariant(h, d);
    if extra != [] {
      if Rewound(h, d) && Within(extra, 0, d.cursor - 5) {
        var v := d.cursor + 5;
        assert Within(extra, 0, v - 9);
        assert !Audible(h[d.cursor]);
        assert Produced(h[d.cursor]);
      } else {
        var v :| 0 <= v < d.cursor <= |h| && Audible(h[v]) && Within(extra, 0, v - 9);
      }
    }
  }

  lemma AppendPreroll(log: seq<Tagged>, batch: seq<Tagged>, mid: nat, hi: nat)
    requires Increasing(Extra(log)) && Within(Extra(log), 0, mid)
    requires AllPreroll(batch) && Increasing(batch) && Within(batch, mid, hi) && mid <= hi
    ensures Own(log + batch) == Own(log)
    ensures Increasing(Extra(log + batch)) && Within(Extra(log + batch), 0, hi)
  {
    OwnOfPreroll(batch);
    OwnSplits(log, batch);
    assert Own(log) + [] == Own(log);
  }

  /** A turn that rewinds re-sends as preroll only frames already sent as their own. */
  lemma RewindStep(h: seq<Frame>, d: Drain, log: seq<Tagged>)
    requires Clean(h) && !OnsetAtTen(h) && Invariant(h, d) && Ready(h, d) && Rewinds(h, d)
    requires ExtraClear(h, d, Extra(log)) && Increasing(Extra(log))
    ensures Own(log + Batch(h, d)) == Own(log)
    ensures Increasing(Extra(log + Batch(h, d)))
    ensures Within(Extra(log + Batch(h, d)), 0, After(h, d).cursor - 5) && Rewound(h, After(h, d))
  {
    RewindLands(h, d);
    RewindBatch(h, d);
    ExtraStaysClear(h, d, Extra(log));
    AppendPreroll(log, Batch(h, d), d.cursor - 15, d.cursor - 10);
  }

  /** Any other turn sends the next ten frames under their own tags. */
  lemma PlainStep(h: seq<Frame>, d: Drain, log: seq<Tagged>)
    requires Clean(h) && Ready(h, d) && !Rewinds(h, d)
    ensures AllOwn(Batch(h, d))
    ensures Own(log + Batch(h, d)) == Own(log) + Collect(h, d.cursor, d.cursor + FRAMES_PER_CHUNK, false)
    ensures Extra(log + Batch(h, d)) == Extra(log)
  {
    var batch := Batch(h, d);
    CollectTags(h, d.cursor, d.cursor + FRAMES_PER_CHUNK, false);
    forall t | t in batch ensures t.vad != Preroll { assert Produced(h[t.index]); }
    OwnOfOwn(batch);
    OwnSplits(log, batch);
    assert Extra(log) + [] == Extra(log);
  }

  lemma RewindCovers(h: seq<Frame>, d: Drain)
    requires Clean(h) && !OnsetAtTen(h) && Invariant(h, d) && Ready(h, d) && Rewinds(h, d)
    ensures Collect(h, 0, After(h, d).cursor, false) == Collect(h, 0, d.cursor, false)
  {
    hide *;
    RewindLands(h, d);
    CollectSplits(h, 0, d.cursor - 5, d.cursor);
    CollectQuiet(h, d.cursor - 5, d.cursor, false);
    NothingAround(Collect(h, 0, d.cursor - 5, false));
  }

  lemma PlainCovers(h: seq<Frame>, d: Drain)
    requires Ready(h, d) && !Rewinds(h, d)
    ensures Collect(h, 0, After(h, d).cursor, false)
         == Collect(h, 0, d.cursor, false) + Collect(h, d.cursor, d.cursor + FRAMES_PER_CHUNK, false)
  {
    CollectSplits(h, 0, d.cursor, d.cursor + FRAMES_PER_CHUNK);
    hide Collect, EndsInSpeech;
  }

  /** The frames delivered under their own tags are those before the cursor. */
  lemma OwnCovers(h: seq<Frame>, d: Drain)
    requires Clean(h) && !OnsetAtTen(h) && Invariant(h, d) && Ready(h, d)
    ensures After(h, d).cursor <= |h|
    ensures Collect(h, 0, After(h, d).cursor, false)
         == Collect(h, 0, d.cursor, false) +
            if Rewinds(h, d) then [] else Collect(h, d.cursor, d.cursor + FRAMES_PER_CHUNK, false)
  {
    hide Clean, OnsetAtTen, Invariant, Collect, Rewinds, EndsInSpeech;
    if Rewinds(h, d) {
      RewindCovers(h, d);
      NothingAround(Collect(h, 0, d.cursor, false));
    } else {
      PlainCovers(h, d);
    }
  }

  /** What every turn keeps, of the drainer and everything it has sent. */
  ghost predicate Good(h: seq<Frame>, d: Drain, log: seq<Tagged>) {
    && Invariant(h, d)
    && Own(log) == Collect(h, 0, d.cursor, false)
    && Increasing(Extra(log)) && ExtraClear(h, d, Extra(log))
  }

  /** One turn of the loop. */
  function Turn(h: seq<Frame>, d: Drain): (Drain, seq<Tagged>) {
    if Ready(h, d) then (After(h, d), Batch(h, d)) else (d, [])
  }

  lemma GoodTurn(h: seq<Frame>, d: Drain, log: seq<Tagged>)
    requires Clean(h) && !OnsetAtTen(h) && Good(h, d, log)
    ensures Good(h, Turn(h, d).0, log + Turn(h, d).1)
  {
    if Ready(h, d) {
      StepInvariant(h, d);
      OwnCovers(h, d);
      if Rewinds(h, d) {
        RewindStep(h, d, log);
      } else {
        PlainStep(h, d, log);
        ExtraStaysClear(h, d, Extra(log));
      }
    } else {
      assert log + [] == log;
    }
  }

  lemma {:induction false} AlwaysGood(h: seq<Frame>, n: nat)
    requires Clean(h) && !OnsetAtTen(h)
    ensures Good(h, At(h, n), Log(h, n))
  {
    if n > 0 {
      AlwaysGood(h, n - 1);
      GoodTurn(h, At(h, n - 1), Log(h, n - 1));
    }
  }

  /** The frame was sent under its own tag somewhere in the log. */
  ghost predicate SentAsOwn(log: seq<Tagged>, index: nat) {
    exists t :: t in log && t.index == index && t.vad != Preroll
  }

  /** Delivery, after any number of turns over any history but the stuck one: the entries
      sent under their own tags are the audible frames before the cursor, each once and in
      order; a frame is sent as preroll at most once, and only after it was sent as its
      own. */
  lemma DeliveredOnceThenPreroll(h: seq<Frame>, n: nat)
    requires Clean(h) && !OnsetAtTen(h)
    ensures At(h, n).cursor <= |h|
    ensures Own(Log(h, n)) == Collect(h, 0, At(h, n).cursor, false)
    ensures Increasing(Extra(Log(h, n)))
    ensures forall i :: 0 <= i < |Log(h, n)| && Log(h, n)[i].vad == Preroll ==>
      SentAsOwn(Log(h, n)[..i], Log(h, n)[i].index)
  {
    AlwaysGood(h, n);
    forall i | 0 <= i < |Log(h, n)| && Log(h, n)[i].vad == Preroll
      ensures SentAsOwn(Log(h, n)[..i], Log(h, n)[i].index)
    {
      OwnBefore(h, n, i);
    }
  }

  lemma LogStarts(h: seq<Frame>)
    ensures Log(h, 0) == []
  {
  }

  lemma LogUnfolds(h: seq<Frame>, n: nat)
    requires n > 0
    ensures Ready(h, At(h, n - 1)) ==> Log(h, n) == Log(h, n - 1) + Batch(h, At(h, n - 1))
    ensures !Ready(h, At(h, n - 1)) ==> Log(h, n) == Log(h, n - 1)
  {
    hide At, Batch, Ready;
    NothingAround(Log(h, n - 1));
  }

  lemma {:induction false} OwnBefore(h: seq<Frame>, n: nat, i: nat)
    requires Clean(h) && !OnsetAtTen(h)
    requires i < |Log(h, n)| && Log(h, n)[i].vad == Preroll
    ensures SentAsOwn(Log(h, n)[..i], Log(h, n)[i].index)
  {
    hide *;
    if n == 0 {
      LogStarts(h);
    } else {
      LogUnfolds(h, n);
      if i < |Log(h, n - 1)| {
        OwnBefore(h, n - 1, i);
        SentInPrefix(Log(h, n - 1), Log(h, n), i);
      } else {
        AlwaysGood(h, n - 1);
        NewIsOwnBefore(h, At(h, n - 1), Log(h, n - 1), i);
      }
    }
  }

  lemma SentInPrefix(xs: seq<Tagged>, ys: seq<Tagged>, i: nat)
    requires xs <= ys && i < |xs| && SentAsOwn(xs[..i], xs[i].index)
    ensures SentAsOwn(ys[..i], ys[i].index)
  {
    hide SentAsOwn;
    assert ys[..i] == xs[..i];
  }

  lemma NewIsOwnBefore(h: seq<Frame>, d: Drain, log: seq<Tagged>, i: nat)
    requires Clean(h) && !OnsetAtTen(h) && Good(h, d, log) && Ready(h, d)
    requires |log| <= i < |log + Batch(h, d)| && (log + Batch(h, d))[i].vad == Preroll
    ensures SentAsOwn((log + Batch(h, d))[..i], (log + Batch(h, d))[i].index)
  {
    hide *;
    var all := log + Batch(h, d);
    TakeOfJoin(log, Batch(h, d), i);
    OwnBeforeBatch(h, d, log, all[i]);
    SentEarlier(log, all[..i], all[i].index);
  }

  lemma TakeOfJoin(xs: seq<Tagged>, ys: seq<Tagged>, i: nat)
    requires |xs| <= i < |xs| + |ys|
    ensures xs <= (xs + ys)[..i] && (xs + ys)[i] in ys
  {
    assert (xs + ys)[i] == ys[i - |xs|];
  }

  lemma OwnBeforeBatch(h: seq<Frame>, d: Drain, log: seq<Tagged>, t: Tagged)
    requires Clean(h) && !OnsetAtTen(h) && Good(h, d, log) && Ready(h, d)
    requires t in Batch(h, d) && t.vad == Preroll
    ensures SentAsOwn(log, t.index)
  {
    if !Rewinds(h, d) { PlainStep(h, d, log); }
    RewindBatch(h, d);
    var k :| 0 <= k < |Batch(h, d)| && Batch(h, d)[k] == t;
    CollectTags(h, Base(h, d), Base(h, d) + FRAMES_PER_CHUNK, true);
    assert Produced(h[t.index]);
    InCollect(h, d.cursor, t.index);
    OwnIn(log, Tagged(t.index, h[t.index].vad));
  }

  lemma SentEarlier(log: seq<Tagged>, longer: seq<Tagged>, index: nat)
    requires log <= longer && SentAsOwn(log, index)
    ensures SentAsOwn(longer, index)
  {
  }

  lemma {:induction false} InCollect(h: seq<Frame>, n: nat, i: nat)
    requires i < n <= |h| && Audible(h[i])
    ensures Tagged(i, h[i].vad) in Collect(h, 0, n, false)
  {
    if i < n - 1 { InCollect(h, n - 1, i); }
  }

  lemma {:induction false} OwnIn(log: seq<Tagged>, t: Tagged)
    requires t in Own(log)
    ensures t in log && t.vad != Preroll
  {
    if log != [] && t in Own(log[..|log| - 1]) { OwnIn(log[..|log| - 1], t); }
  }

  // ---- A turn, frame by frame ----

  /** Turn n + 1, from the frames alone. Speech that starts out of silence, anywhere but at
      frame 0, sends the drainer back fifteen frames, or to the start if there are fewer,
      and the ten frames from there are sent as preroll; otherwise the next ten are sent
      under their own tags. In both cases these are exactly the frames with data, in
      order, and the drainer goes on behind them, in speech if it sent any as their own. */
  lemma TurnIs(h: seq<Frame>, n: nat) returns (batch: seq<Tagged>)
    requires Clean(h) && At(h, n).cursor + 10 <= |h|
    ensures var d := At(h, n);
      var onset := !d.inSpeech && d.cursor > 0 && (h[d.cursor].vad == Speech || h[d.cursor].vad == Hangover);
      var from := if !onset then d.cursor else if d.cursor >= 15 then d.cursor - 15 else 0;
      && Log(h, n + 1) == Log(h, n) + batch && Increasing(batch)
      && (forall t :: t in batch <==>
            from <= t.index < from + 10 && h[t.index].data != []
            && t.vad == if onset then Preroll else h[t.index].vad)
      && At(h, n + 1) == Drain(from + 10, !onset && batch != [])
  {
    var d := At(h, n);
    batch := Batch(h, d);
    LogUnfolds(h, n + 1);
    TurnCollects(h, d);
    hide At, Log, Collect, Batch;
    NextAt(h, n);
  }

  lemma NextAt(h: seq<Frame>, n: nat)
    requires Ready(h, At(h, n))
    ensures At(h, n + 1) == After(h, At(h, n))
  {
  }

  lemma TurnCollects(h: seq<Frame>, d: Drain)
    requires Clean(h) && Ready(h, d)
    ensures var onset := !d.inSpeech && d.cursor > 0 && (h[d.cursor].vad == Speech || h[d.cursor].vad == Hangover);
      var from := if !onset then d.cursor else if d.cursor >= 15 then d.cursor - 15 else 0;
      && Increasing(Batch(h, d))
      && (forall t :: t in Batch(h, d) <==>
            from <= t.index < from + 10 && h[t.index].data != []
            && t.vad == if onset then Preroll else h[t.index].vad)
      && After(h, d) == Drain(from + 10, !onset && Batch(h, d) != [])
  {
    var lo := Base(h, d);
    forall i | 0 <= i < |h| ensures Audible(h[i]) <==> h[i].data != [] {
      assert Produced(h[i]);
      ProducedIs(h[i]);
    }
    assert Produced(h[d.cursor]);
    ProducedIs(h[d.cursor]);
    CollectIs(h, lo, lo + FRAMES_PER_CHUNK, Rewinds(h, d));
    CollectIncreasing(h, lo, lo + FRAMES_PER_CHUNK, Rewinds(h, d));
    CollectEnds(h, lo, lo + FRAMES_PER_CHUNK, Rewinds(h, d));
    CollectQuiet(h, lo, lo + FRAMES_PER_CHUNK, Rewinds(h, d));
    hide Collect, Clean, Audible;
  }

  lemma {:induction false} CollectOwn(h: seq<Frame>, n: nat)
    requires n <= |h|
    ensures forall t :: t in Collect(h, 0, n, false) <==>
      t.index < n && Audible(h[t.index]) && t.vad == h[t.index].vad
  {
    if n > 0 { CollectOwn(h, n - 1); }
  }

  /** What `DeliveredOnceThenPreroll` delivers, from the frames alone: a frame before the
      cursor is sent under its own tag exactly when it has data, and in order. */
  lemma OwnIs(h: seq<Frame>, n: nat)
    requires Clean(h) && !OnsetAtTen(h)
    ensures At(h, n).cursor <= |h| && Increasing(Own(Log(h, n)))
    ensures forall t :: t in Own(Log(h, n)) <==>
      t.index < At(h, n).cursor && h[t.index].data != [] && t.vad == h[t.index].vad
  {
    DeliveredOnceThenPreroll(h, n);
    CollectOwn(h, At(h, n).cursor);
    CollectIncreasing(h, 0, At(h, n).cursor, false);
    forall i | 0 <= i < |h| ensures Audible(h[i]) <==> h[i].data != [] {
      assert Produced(h[i]);
      ProducedIs(h[i]);
    }
    hide Collect, At, Log, Own, Clean, Audible;
  }
}
