/** The live drainer running: its loop over the real ring, tied to the pure runs of
    Stream, and what the server makes of the notifications that get through. */
module DrainTask {
  import opened CTypes
  import opened Sequences
  import opened C6Types
  import opened RingBuffer
  import opened AudioTask
  import opened DrainSpec
  import opened AudioPacket
  import opened Packing
  import opened Link
  import opened LiveDrain
  import opened Stream

  // ---- Runs over a growing history ----

  /** Each of the first n turns found a chunk. */
  ghost predicate AllReady(h: seq<Frame>, n: nat) { forall k :: 0 <= k < n ==> Ready(h, At(h, k)) }

  lemma {:induction false} AtPrefix(h: seq<Frame>, g: seq<Frame>, n: nat)
    requires h <= g && AllReady(h, n)
    ensures AllReady(g, n) && forall k :: 0 <= k <= n ==> At(g, k) == At(h, k)
  {
    hide After, Base, Batch;
    if n > 0 {
      AtPrefix(h, g, n - 1);
      BatchPrefix(h, g, At(h, n - 1));
    }
  }

  lemma {:induction false} PacketsPrefix(h: seq<Frame>, g: seq<Frame>, mtus: seq<nat>, n: nat)
    requires h <= g && AllReady(h, n) && n <= |mtus|
    ensures Packets(g, mtus, n) == Packets(h, mtus, n)
  {
    if n > 0 {
      PacketsPrefix(h, g, mtus, n - 1);
      AtPrefix(h, g, n);
      var d, seq1 := At(h, n - 1), SeqAt(0, |Packets(h, mtus, n - 1)|);
      hide BatchPackets, At;
      FinishTurn(h, h, g, d, mtus[n - 1], seq1);
      FinishTurn(h, h, h, d, mtus[n - 1], seq1);
    }
  }

  lemma {:induction false} PacketsOfMore(h: seq<Frame>, mtus: seq<nat>, m: nat, n: nat)
    requires n <= |mtus|
    ensures Packets(h, mtus + [m], n) == Packets(h, mtus, n)
  {
    if n > 0 { PacketsOfMore(h, mtus, m, n - 1); }
  }

  lemma SentJoins(ps: seq<Packet>, qs: seq<Packet>, seq0: Uint32, o0: seq<seq<Byte>>, seq1: Uint32, o1: seq<seq<Byte>>,
                  seq2: Uint32, o2: seq<seq<Byte>>)
    requires Sent(ps, seq0, o0, seq1, o1) && Sent(qs, seq1, o1, seq2, o2)
    ensures Sent(ps + qs, seq0, o0, seq2, o2)
  {
    SeqAtAdds(seq0, |ps|, |qs|);
    assert forall j :: 0 <= j < |ps + qs| ==> FramesFit((ps + qs)[j].frames);
    hide FramesFit, SeqAt, Wire;
    assert Wires(ps + qs) == Wires(ps) + Wires(qs);
  }

  /** The drainer stands where the run that used these MTUs leaves it, having offered
      exactly that run's packets. */
  ghost predicate InStep(h: seq<Frame>, used: seq<nat>, d: Drain, chunkSeq: Uint32, offered: seq<seq<Byte>>) {
    && AllReady(h, |used|) && d == At(h, |used|)
    && Sent(Packets(h, used, |used|), 0, [], chunkSeq, offered)
  }

  lemma InStepStarts(h: seq<Frame>)
    ensures InStep(h, [], Init, 0, [])
  {
    SeqAtAdds(0, 0, 0);
  }

  lemma InStepGrows(h: seq<Frame>, g: seq<Frame>, used: seq<nat>, d: Drain, chunkSeq: Uint32, offered: seq<seq<Byte>>)
    requires h <= g && InStep(h, used, d, chunkSeq, offered)
    ensures InStep(g, used, d, chunkSeq, offered)
  {
    hide Sent, Packets, At;
    AtPrefix(h, g, |used|);
    PacketsPrefix(h, g, used, |used|);
  }

  lemma InStepTurns(h: seq<Frame>, used: seq<nat>, d: Drain, seq1: Uint32, o1: seq<seq<Byte>>, mtu: nat,
                    d': Drain, seq2: Uint32, o2: seq<seq<Byte>>)
    requires InStep(h, used, d, seq1, o1) && Ready(h, d) && d' == After(h, d)
    requires Sent(BatchPackets(h, d, mtu, seq1), seq1, o1, seq2, o2)
    ensures InStep(h, used + [mtu], d', seq2, o2)
  {
    hide Offered, BatchPackets, SeqAt, Packets, After;
    PacketsTurn(h, used, mtu);
    AtTurn(h, |used|);
    SentJoins(Packets(h, used, |used|), BatchPackets(h, d, mtu, seq1), 0, [], seq1, o1, seq2, o2);
  }

  lemma PacketsTurn(h: seq<Frame>, used: seq<nat>, mtu: nat)
    requires Ready(h, At(h, |used|))
    ensures var before := Packets(h, used, |used|);
      Packets(h, used + [mtu], |used| + 1) == before + BatchPackets(h, At(h, |used|), mtu, SeqAt(0, |before|))
  {
    PacketsOfMore(h, used, mtu, |used|);
  }

  lemma AtTurn(h: seq<Frame>, n: nat)
    requires Ready(h, At(h, n))
    ensures At(h, n + 1) == After(h, At(h, n))
  {
  }

  // ---- Overruns ----

  /** At the end of each turn, when sizes[k] frames had been recorded, that turn's first
      frame was still in the ring. */
  ghost predicate NoOverrun(h: seq<Frame>, sizes: seq<nat>) {
    forall k :: 0 <= k < |sizes| && Ready(h, At(h, k)) ==> InWindow(Base(h, At(h, k)), sizes[k])
  }

  /** Turn k is the first that the producer overran. */
  ghost predicate Overran(h: seq<Frame>, sizes: seq<nat>, k: nat) {
    k < |sizes| && AllReady(h, k + 1) && !InWindow(Base(h, At(h, k)), sizes[k])
  }

  lemma OverranGrows(h: seq<Frame>, g: seq<Frame>, sizes: seq<nat>, more: seq<nat>, k: nat)
    requires h <= g && sizes <= more && Overran(h, sizes, k)
    ensures Overran(g, more, k)
  {
    AtPrefix(h, g, k + 1);
    assert Ready(h, At(h, k));
    BatchPrefix(h, g, At(h, k));
  }

  // ---- Passes of the loop ----

  /** A moment: how many frames had been recorded and how many packets offered. */
  datatype Mark = Mark(frames: nat, offered: nat)

  predicate Upto(a: Mark, b: Mark) { a.frames <= b.frames && a.offered <= b.offered }

  ghost function Now(d: Drainer): Mark
    reads d, d.ring, d.link
  {
    Mark(|d.ring.history|, |d.link.offered|)
  }

  /** One pass of the loop: the MTU in force, when it came to its live turn and when that
      ended, and whether it found a chunk to send. */
  datatype Pass = Pass(mtu: nat, begin: Mark, ran: bool, end: Mark)

  /** The MTUs of the turns that ran, */
  function Used(log: seq<Pass>): seq<nat> {
    if log == [] then [] else Used(log[..|log| - 1]) + if log[|log| - 1].ran then [log[|log| - 1].mtu] else []
  }

  /** and the frames recorded by the end of each. */
  function Sizes(log: seq<Pass>): seq<nat> {
    if log == [] then [] else Sizes(log[..|log| - 1]) + if log[|log| - 1].ran then [log[|log| - 1].end.frames] else []
  }

  /** The passes follow one another between lo and hi. */
  ghost predicate Ordered(log: seq<Pass>, lo: Mark, hi: Mark) {
    && (forall i :: 0 <= i < |log| ==> Upto(lo, log[i].begin) && Upto(log[i].begin, log[i].end) && Upto(log[i].end, hi))
    && forall i, j :: 0 <= i < j < |log| ==> Upto(log[i].end, log[j].begin)
  }

  /** A turn ran whenever it began with a chunk recorded, and never ended without one. */
  ghost predicate Timely(h: seq<Frame>, log: seq<Pass>) {
    forall i :: 0 <= i < |log| ==> RanInTime(h, |Used(log[..i])|, log[i])
  }

  ghost predicate RanInTime(h: seq<Frame>, n: nat, p: Pass) {
    var next := At(h, n).cursor + FRAMES_PER_CHUNK;
    (next <= p.begin.frames ==> p.ran) && (p.ran ==> next <= p.end.frames)
  }

  lemma NoPasses()
    ensures Used([]) == [] && Sizes([]) == []
  {
  }

  lemma PassMore(log: seq<Pass>, p: Pass)
    ensures Used(log + [p]) == if p.ran then Used(log) + [p.mtu] else Used(log)
    ensures Sizes(log + [p]) == if p.ran then Sizes(log) + [p.end.frames] else Sizes(log)
  {
    assert (log + [p])[..|log|] == log;
    NothingAround(Used(log));
    NothingAround(Sizes(log));
  }

  lemma {:induction false} PassesIn(log: seq<Pass>, i: nat)
    requires i <= |log|
    ensures |Used(log)| == |Sizes(log)| && |Used(log[..i])| <= |Used(log)|
    ensures forall m :: m in Used(log) ==> exists k :: 0 <= k < |log| && log[k].mtu == m
  {
    if log != [] {
      var n := |log| - 1;
      PassesIn(log[..n], if i <= n then i else n);
      assert i <= n ==> log[..n][..i] == log[..i];
      assert i > n ==> log[..i] == log;
      assert log == log[..n] + [log[n]];
      hide Used, Sizes;
      PassMore(log[..n], log[n]);
      assert forall k :: 0 <= k < n ==> log[..n][k] == log[k];
    }
  }

  lemma OrderedMore(log: seq<Pass>, lo: Mark, mid: Mark, p: Pass)
    requires Ordered(log, lo, mid) && Upto(lo, mid) && Upto(mid, p.begin) && Upto(p.begin, p.end)
    ensures Ordered(log + [p], lo, p.end)
  {
  }

  lemma TimelyGrows(h: seq<Frame>, g: seq<Frame>, log: seq<Pass>)
    requires h <= g && AllReady(h, |Used(log)|) && Timely(h, log)
    ensures Timely(g, log)
  {
    hide At, Used;
    AtPrefix(h, g, |Used(log)|);
    forall i | 0 <= i < |log| ensures RanInTime(g, |Used(log[..i])|, log[i]) { PassesIn(log, i); }
  }

  lemma TimelyMore(h: seq<Frame>, log: seq<Pass>, p: Pass)
    requires Timely(h, log) && RanInTime(h, |Used(log)|, p)
    ensures Timely(h, log + [p])
  {
    hide RanInTime, Used;
    var more := log + [p];
    forall i | 0 <= i < |more| ensures RanInTime(h, |Used(more[..i])|, more[i]) {
      assert more[..i] == log[..i];
      assert log[..|log|] == log;
    }
  }

  /** The pass that followed took its turn in time too. */
  lemma TimelyTurns(h: seq<Frame>, g: seq<Frame>, log: seq<Pass>, d: Drain, p: Pass)
    requires h <= g && AllReady(h, |Used(log)|) && d == At(h, |Used(log)|) && Timely(h, log)
    requires p.begin.frames == |h| && p.end.frames == |g| && (Ready(h, d) ==> p.ran) && (p.ran ==> Ready(g, d))
    ensures Timely(g, log + [p])
  {
    hide At, Used, Timely;
    AtPrefix(h, g, |Used(log)|);
    TimelyGrows(h, g, log);
    TimelyMore(g, log, p);
  }

  // ---- The loop ----

  /** In step so far, or some turn was overrun. */
  ghost predicate KeepsUp(h: seq<Frame>, log: seq<Pass>, bad: nat, d: Drain, chunkSeq: Uint32,
                          offered: seq<seq<Byte>>) {
    || (InStep(h, Used(log), d, chunkSeq, offered) && Timely(h, log))
    || Overran(h, Sizes(log), bad)
  }

  /** The loop of drain_task without replay requests, from its start, one pass for each MTU.
      Unless the producer overran a batch, the run is the specified one over what was
      recorded, and no turn was left out. */
  method RunLive(d: Drainer, mtus: seq<nat>) returns (ghost log: seq<Pass>)
    requires d.Valid() && Drain(d.cursor, d.inSpeech) == Init && d.chunkSeq == 0 && d.link.offered == []
    modifies d, d.ring.Repr(), d.link, d.pkt
    ensures d.Valid() && old(d.ring.history) <= d.ring.history
    ensures |log| == |mtus| && forall i :: 0 <= i < |mtus| ==> log[i].mtu == mtus[i]
    ensures Ordered(log, old(Now(d)), Now(d))
    ensures NoOverrun(d.ring.history, Sizes(log)) ==>
      && InStep(d.ring.history, Used(log), Drain(d.cursor, d.inSpeech), d.chunkSeq, d.link.offered)
      && Timely(d.ring.history, log)
  {
    hide *;
    log := [];
    ghost var lo, bad := Now(d), 0;
    LoopStarts(d.ring.history);
    NoneYet(lo, Now(d));
    for i := 0 to |mtus|
      invariant d.Valid() && old(d.ring.history) <= d.ring.history
      invariant |log| == i && (forall k :: 0 <= k < i ==> log[k].mtu == mtus[k])
      invariant Ordered(log, lo, Now(d)) && Upto(lo, Now(d))
      invariant KeepsUp(d.ring.history, log, bad, Drain(d.cursor, d.inSpeech), d.chunkSeq, d.link.offered)
    {
      ghost var h, d0, seq0, offered0 := d.ring.history, Drain(d.cursor, d.inSpeech), d.chunkSeq, d.link.offered;
      ghost var begin := Now(d);
      NowIs(d);
      var ran := d.Turn(mtus[i]);
      NumberedGrows(offered0, d.link.offered, seq0, d.chunkSeq);
      NowIs(d);
      Later(lo, begin, Now(d));
      ghost var p := Pass(mtus[i], begin, ran, Now(d));
      OrderedMore(log, lo, begin, p);
      bad := PassJoins(d, h, log, bad, p, d0, seq0, offered0);
      log := log + [p];
    }
    KeepsUpIs(d.ring.history, log, bad, Drain(d.cursor, d.inSpeech), d.chunkSeq, d.link.offered);
  }

  lemma LoopStarts(h: seq<Frame>)
    ensures KeepsUp(h, [], 0, Init, 0, [])
  {
    NoPasses();
    InStepStarts(h);
  }

  lemma NoneYet(lo: Mark, hi: Mark)
    ensures Ordered([], lo, hi) && Upto(lo, lo)
  {
  }

  lemma NowIs(d: Drainer)
    ensures Now(d) == Mark(|d.ring.history|, |d.link.offered|)
  {
  }

  lemma Later(lo: Mark, a: Mark, b: Mark)
    requires Upto(lo, a) && a.frames <= b.frames && a.offered <= b.offered
    ensures Upto(a, a) && Upto(a, b) && Upto(lo, b)
  {
  }

  lemma NumberedGrows(before: seq<seq<Byte>>, now: seq<seq<Byte>>, seq0: Uint32, chunkSeq: Uint32)
    requires Numbered(before, now, seq0, chunkSeq)
    ensures before <= now
  {
  }

  lemma KeepsUpIs(h: seq<Frame>, log: seq<Pass>, bad: nat, d: Drain, chunkSeq: Uint32, offered: seq<seq<Byte>>)
    requires KeepsUp(h, log, bad, d, chunkSeq, offered)
    ensures NoOverrun(h, Sizes(log)) ==> InStep(h, Used(log), d, chunkSeq, offered) && Timely(h, log)
  {
    hide InStep, Overran, NoOverrun, Timely, Used, Sizes;
    if Overran(h, Sizes(log), bad) { OverranIs(h, Sizes(log), bad); }
  }

  lemma OverranIs(h: seq<Frame>, sizes: seq<nat>, k: nat)
    requires Overran(h, sizes, k)
    ensures !NoOverrun(h, sizes)
  {
    assert Ready(h, At(h, k));
  }

  /** A turn that ran keeps the drainer in step or is the first overrun. */
  lemma TurnJoins(d: Drainer, used: seq<nat>, sizes: seq<nat>, mtu: nat, d0: Drain, seq0: Uint32,
                  offered0: seq<seq<Byte>>)
    returns (bad: nat)
    requires |used| == |sizes| && InStep(d.ring.history, used, d0, seq0, offered0) && Ready(d.ring.history, d0)
    requires InWindow(Base(d.ring.history, d0), |d.ring.history|) ==> d.Followed(d0, mtu, seq0, offered0)
    ensures
      InStep(d.ring.history, used + [mtu], Drain(d.cursor, d.inSpeech), d.chunkSeq, d.link.offered)
      || Overran(d.ring.history, sizes + [|d.ring.history|], bad)
  {
    var h := d.ring.history;
    bad := |used|;
    if InWindow(Base(h, d0), |h|) {
      InStepTurns(h, used, d0, seq0, offered0, mtu, Drain(d.cursor, d.inSpeech), d.chunkSeq, d.link.offered);
    }
  }

  /** One pass, its turn run or not, after which the drainer is in step or overrun. */
  lemma PassJoins(d: Drainer, h: seq<Frame>, log: seq<Pass>, bad0: nat, p: Pass, d0: Drain, seq0: Uint32,
                  offered0: seq<seq<Byte>>)
    returns (bad: nat)
    requires h <= d.ring.history && KeepsUp(h, log, bad0, d0, seq0, offered0)
    requires p.begin.frames == |h| && p.end == Now(d) && (Ready(h, d0) ==> p.ran)
    requires p.ran ==> Ready(d.ring.history, d0)
    requires p.ran && InWindow(Base(d.ring.history, d0), |d.ring.history|) ==> d.Followed(d0, p.mtu, seq0, offered0)
    requires !p.ran ==> Drain(d.cursor, d.inSpeech) == d0 && d.chunkSeq == seq0 && d.link.offered == offered0
    ensures KeepsUp(d.ring.history, log + [p], bad, Drain(d.cursor, d.inSpeech), d.chunkSeq, d.link.offered)
  {
    hide InStep, Overran, Timely, Used, Sizes, Drainer.Followed;
    var g := d.ring.history;
    bad := bad0;
    PassMore(log, p);
    PassesIn(log, 0);
    if Overran(h, Sizes(log), bad) {
      OverranGrows(h, g, Sizes(log), Sizes(log + [p]), bad);
    } else {
      InStepMeans(h, Used(log), d0, seq0, offered0);
      TimelyTurns(h, g, log, d0, p);
      InStepGrows(h, g, Used(log), d0, seq0, offered0);
      if p.ran { bad := TurnJoins(d, Used(log), Sizes(log), p.mtu, d0, seq0, offered0); }
    }
  }

  lemma InStepMeans(h: seq<Frame>, used: seq<nat>, d: Drain, chunkSeq: Uint32, offered: seq<seq<Byte>>)
    requires InStep(h, used, d, chunkSeq, offered)
    ensures AllReady(h, |used|) && d == At(h, |used|)
  {
  }

  // ---- What gets through ----

  /** The server reads these packets. */
  function Reads(ps: seq<Packet>): seq<Result<Packet>> { seq(|ps|, i requires 0 <= i < |ps| => Ok(ps[i])) }

  ghost predicate Readable(ps: seq<Packet>) {
    forall i :: 0 <= i < |ps| ==> FramesFit(ps[i].frames) && Parsed(Wire(ps[i])) == Ok(ps[i])
  }

  /** These packets are what the server reads from these notifications. */
  ghost predicate ReadAs(delivered: seq<seq<Byte>>, heard: seq<Packet>) {
    Readable(heard) && delivered == Wires(heard) && Decoded(delivered) == Reads(heard)
  }

  lemma ReadsOneMore(delivered: seq<seq<Byte>>, heard: seq<Packet>, p: Packet)
    requires ReadAs(delivered, heard) && Readable([p])
    ensures FramesFit(p.frames) && ReadAs(delivered + [Wire(p)], heard + [p])
  {
    assert [p][0] == p;
    hide Parsed, FramesFit, Wire;
  }

  lemma ReadableParts(ps: seq<Packet>, n: nat)
    requires Readable(ps) && |ps| == n + 1
    ensures Readable(ps[..n]) && Readable([ps[n]]) && FramesFit(ps[n].frames)
    ensures Wires(ps) == Wires(ps[..n]) + [Wire(ps[n])]
  {
    hide Parsed, FramesFit, Wire;
  }

  /** From a selection of the notifications the server reads the same selection of the
      packets. */
  lemma {:induction false} DeliveredReads(ps: seq<Packet>, delivered: seq<seq<Byte>>) returns (heard: seq<Packet>)
    requires Readable(ps) && Subsequence(delivered, Wires(ps))
    ensures Subsequence(heard, ps) && ReadAs(delivered, heard)
    decreases |ps|
  {
    if delivered == [] {
      heard := [];
    } else {
      hide *;
      var n := |ps| - 1;
      var took := TookLast(ps, n, delivered);
      var part := if took then delivered[..|delivered| - 1] else delivered;
      var before := DeliveredReads(ps[..n], part);
      heard := HearsNext(ps, n, delivered, took, before);
    }
  }

  /** Did the last packet get through? */
  lemma TookLast(ps: seq<Packet>, n: int, delivered: seq<seq<Byte>>) returns (took: bool)
    requires Readable(ps) && n == |ps| - 1 && delivered != [] && Subsequence(delivered, Wires(ps))
    ensures 0 <= n && Readable(ps[..n]) && Readable([ps[n]]) && FramesFit(ps[n].frames)
    ensures Subsequence(if took then delivered[..|delivered| - 1] else delivered, Wires(ps[..n]))
    ensures took ==> delivered[|delivered| - 1] == Wire(ps[n])
  {
    assert n >= 0;
    ReadableParts(ps, n);
    hide Readable, Wire;
    SubsequenceCases(delivered, |delivered| - 1, Wires(ps[..n]), Wire(ps[n]));
    hide Subsequence, Wires;
    took := !Subsequence(delivered, Wires(ps[..n]));
  }

  lemma HearsNext(ps: seq<Packet>, n: int, delivered: seq<seq<Byte>>, took: bool, before: seq<Packet>)
    returns (heard: seq<Packet>)
    requires 0 <= n == |ps| - 1 && delivered != [] && Readable([ps[n]]) && FramesFit(ps[n].frames)
    requires took ==> delivered[|delivered| - 1] == Wire(ps[n])
    requires Subsequence(before, ps[..n]) && ReadAs(if took then delivered[..|delivered| - 1] else delivered, before)
    ensures Subsequence(heard, ps) && ReadAs(delivered, heard)
  {
    hide *;
    assert ps == ps[..n] + [ps[n]];
    if took {
      SubsequenceTake(before, ps[..n], ps[n]);
      ReadsOneMore(delivered[..|delivered| - 1], before, ps[n]);
      assert delivered == delivered[..|delivered| - 1] + [delivered[|delivered| - 1]];
      heard := before + [ps[n]];
    } else {
      SubsequenceSkip(before, ps[..n], ps[n]);
      heard := before;
    }
  }

  lemma SubsequenceCases<T>(a: seq<T>, m: nat, b: seq<T>, last: T)
    requires Subsequence(a, b + [last]) && |a| == m + 1
    ensures (a[m] == last && Subsequence(a[..m], b)) || Subsequence(a, b)
  {
    assert (b + [last])[..|b|] == b;
  }

  lemma {:induction false} PacketsReadable(h: seq<Frame>, mtus: seq<nat>, n: nat)
    requires Clean(h) && n <= |mtus| && forall k :: 0 <= k < |mtus| ==> 23 <= mtus[k]
    ensures Readable(Packets(h, mtus, n))
  {
    ServerHears(h, mtus, n);
  }

  /** From the ring to the server, for any run that keeps ahead of the producer and any
      pattern of loss: every notification the phone gets is read, and what the server
      reads is a selection, in order, of the run's packets, which carry every audible
      frame before the cursor once, the rest being preroll repeats. If nothing is lost,
      the server reads all of that. */
  method RunAndHear(d: Drainer, mtus: seq<nat>) returns (ghost log: seq<Pass>, ghost heard: seq<Packet>)
    requires d.Valid() && Drain(d.cursor, d.inSpeech) == Init && d.chunkSeq == 0 && d.link.offered == []
    requires forall k :: 0 <= k < |mtus| ==> 23 <= mtus[k]
    modifies d, d.ring.Repr(), d.link, d.pkt
    ensures d.Valid() && old(d.ring.history) <= d.ring.history && Clean(d.ring.history)
    ensures |log| == |mtus| && forall i :: 0 <= i < |mtus| ==> log[i].mtu == mtus[i]
    ensures Ordered(log, old(Now(d)), Now(d))
    ensures NoOverrun(d.ring.history, Sizes(log)) ==>
      && Heard(d.ring.history, Used(log), Drain(d.cursor, d.inSpeech), d.link.offered, d.link.delivered, heard)
      && Timely(d.ring.history, log)
  {
    hide *;
    log := RunLive(d, mtus);
    d.RingIs();
    d.LinkIs();
    heard := [];
    PassesIn(log, 0);
    forall k | 0 <= k < |Used(log)| ensures 23 <= Used(log)[k] { assert Used(log)[k] in Used(log); }
    if NoOverrun(d.ring.history, Sizes(log)) {
      heard := StreamIsHeard(d.ring.history, Used(log), Drain(d.cursor, d.inSpeech), d.chunkSeq, d.link.offered,
                             d.link.delivered);
    }
  }

  ghost predicate Heard(h: seq<Frame>, used: seq<nat>, d: Drain, offered: seq<seq<Byte>>, delivered: seq<seq<Byte>>,
                        heard: seq<Packet>) {
    var ps := Packets(h, used, |used|);
    && Decoded(delivered) == Reads(heard) && Subsequence(heard, ps)
    && (delivered == offered ==> heard == ps)
    && Carried(ps) == Datas(Kept(h, used, |used|))
    && (forall j :: 0 <= j < |ps| ==> ps[j].chunkSeq == j % 0x1_0000_0000)
    && (!OnsetAtTen(h) ==>
          && d.cursor <= |h| && Own(Log(h, |used|)) == Collect(h, 0, d.cursor, false)
          && Increasing(Extra(Log(h, |used|))))
    && (AllSmall(h, used) ==> Indexed(h, Log(h, |used|)) && Carried(ps) == Datas(ItemsOf(h, Log(h, |used|))))
  }

  lemma StreamIsHeard(h: seq<Frame>, used: seq<nat>, d: Drain, chunkSeq: Uint32, offered: seq<seq<Byte>>,
                      delivered: seq<seq<Byte>>) returns (heard: seq<Packet>)
    requires Clean(h) && InStep(h, used, d, chunkSeq, offered) && Subsequence(delivered, offered)
    requires forall k :: 0 <= k < |used| ==> 23 <= used[k]
    ensures Heard(h, used, d, offered, delivered, heard)
  {
    hide Readable, Sound, SeqAt, Wire, Packets, Kept, Carried, Datas, Subsequence, At, Log, Own, Extra, Collect;
    var ps := Packets(h, used, |used|);
    PacketsReadable(h, used, |used|);
    assert offered == Wires(ps);
    SoundCounts(ps, used);
    heard := DeliveredReads(ps, delivered);
    if delivered == offered { WiresInjective(heard, ps); }
    ServerHears(h, used, |used|);
    if !OnsetAtTen(h) { DeliveredOnceThenPreroll(h, |used|); }
    if AllSmall(h, used) { KeptIsLog(h, used, |used|); }
  }

  lemma SoundCounts(ps: seq<Packet>, mtus: seq<nat>)
    ensures Sound(ps, mtus) ==> forall j :: 0 <= j < |ps| ==> ps[j].chunkSeq == j % 0x1_0000_0000
  {
    hide Arrives;
  }

  lemma WiresInjective(ps: seq<Packet>, qs: seq<Packet>)
    requires Readable(ps) && Readable(qs) && Wires(ps) == Wires(qs)
    ensures ps == qs
  {
    assert |ps| == |Wires(ps)| == |qs|;
    forall i | 0 <= i < |ps| ensures ps[i] == qs[i] {
      assert Wires(ps)[i] == Wires(qs)[i];
      assert Parsed(Wire(ps[i])) == Parsed(Wire(qs[i]));
    }
  }
}
