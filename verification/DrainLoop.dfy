/** drain_task whole: replay requests served between live turns, by the one owner of
    chunk_seq. The live packets are those of the run without requests, each request is
    answered in its place, all packets together are numbered in one count, and the server
    reads what gets through. */
module DrainLoop {
  import opened CTypes
  import opened C6Types
  import opened Sequences
  import opened RingBuffer
  import opened AudioTask
  import opened DrainSpec
  import opened AudioPacket
  import opened Packing
  import opened Link
  import opened LiveDrain
  import opened Stream
  import opened DrainTask
  import opened ReplaySlots
  import opened Replay

  datatype Request = Request(seconds: nat, mtu: nat)

  /** One pass of the loop: the requests it finds queued, then a turn. */
  datatype Round = Round(requests: seq<Request>, mtu: nat)

  // ---- Two kinds of packets in one stream ----

  function OfType(ps: seq<Packet>, t: PacketType): seq<Packet> {
    if ps == [] then []
    else OfType(ps[..|ps| - 1], t) + if ps[|ps| - 1].ptype == t then [ps[|ps| - 1]] else []
  }

  /** Packets but for their sequence numbers. */
  function Bare(ps: seq<Packet>): seq<Packet> { seq(|ps|, i requires 0 <= i < |ps| => ps[i].(chunkSeq := 0)) }

  ghost predicate AllOf(ps: seq<Packet>, t: PacketType) { forall j :: 0 <= j < |ps| ==> ps[j].ptype == t }

  ghost predicate CountedFrom(ps: seq<Packet>, seq0: Uint32) {
    forall j :: 0 <= j < |ps| ==> ps[j].chunkSeq == SeqAt(seq0, j)
  }

  lemma {:induction false} OfTypeJoins(ps: seq<Packet>, qs: seq<Packet>, t: PacketType)
    ensures OfType(ps + qs, t) == OfType(ps, t) + OfType(qs, t)
  {
    if qs == [] {
      assert ps + qs == ps;
    } else {
      var n := |qs| - 1;
      OfTypeJoins(ps, qs[..n], t);
      assert (ps + qs)[..|ps| + n] == ps + qs[..n];
      hide OfType;
      OfTypeLast(ps + qs, |ps| + n, t);
      OfTypeLast(qs, n, t);
      Associates(OfType(ps, t), OfType(qs[..n], t), if qs[n].ptype == t then [qs[n]] else []);
    }
  }

  lemma OfTypeNone(t: PacketType)
    ensures OfType([], t) == []
  {
  }

  lemma OfTypeLast(ps: seq<Packet>, n: nat, t: PacketType)
    requires |ps| == n + 1
    ensures OfType(ps, t) == OfType(ps[..n], t) + if ps[n].ptype == t then [ps[n]] else []
  {
  }

  lemma {:induction false} OfTypeAll(ps: seq<Packet>, t: PacketType, u: PacketType)
    requires AllOf(ps, t)
    ensures OfType(ps, u) == if u == t then ps else []
  {
    hide OfType;
    if ps == [] {
      OfTypeNone(u);
    } else {
      var n := |ps| - 1;
      OfTypeAll(ps[..n], t, u);
      OfTypeLast(ps, n, u);
      assert ps == ps[..n] + [ps[n]];
    }
  }

  lemma BareJoins(ps: seq<Packet>, qs: seq<Packet>)
    ensures Bare(ps + qs) == Bare(ps) + Bare(qs)
  {
  }

  lemma CountIs(ps: seq<Packet>)
    requires CountedFrom(ps, 0)
    ensures forall j :: 0 <= j < |ps| ==> ps[j].chunkSeq == j % 0x1_0000_0000
  {
  }

  lemma CountJoins(ps: seq<Packet>, qs: seq<Packet>, seq1: Uint32)
    requires CountedFrom(ps, 0) && seq1 == SeqAt(0, |ps|) && CountedFrom(qs, seq1)
    ensures CountedFrom(ps + qs, 0)
  {
    forall j | 0 <= j < |ps + qs| ensures (ps + qs)[j].chunkSeq == SeqAt(0, j) {
      if j >= |ps| {
        SeqAtAdds(0, |ps|, j - |ps|);
        assert (ps + qs)[j] == qs[j - |ps|];
      }
    }
  }

  lemma {:induction false} LiveIsBare(items: seq<Item>, budget: nat, s: Uint32, s': Uint32)
    ensures Bare(LivePackets(items, budget, s)) == Bare(LivePackets(items, budget, s'))
    decreases |items|
  {
    if items != [] {
      var k := Fit(items, 0, budget);
      if k == 0 {
        LiveIsBare(items[1..], budget, s, s');
      } else {
        LiveIsBare(items[k..], budget, NextSeq(s), NextSeq(s'));
        LiveUnfolds(items, budget, s);
        LiveUnfolds(items, budget, s');
        hide LivePackets, Fit;
        var p, p' := PacketOf(PacketType.Live, items[..k], s, 0), PacketOf(PacketType.Live, items[..k], s', 0);
        BareJoins([p], LivePackets(items[k..], budget, NextSeq(s)));
        BareJoins([p'], LivePackets(items[k..], budget, NextSeq(s')));
        assert Bare([p]) == Bare([p']);
      }
    }
  }

  lemma LiveUnfolds(items: seq<Item>, budget: nat, s: Uint32)
    requires items != [] && Fit(items, 0, budget) > 0
    ensures var k := Fit(items, 0, budget);
      LivePackets(items, budget, s) ==
      [PacketOf(PacketType.Live, items[..k], s, 0)] + LivePackets(items[k..], budget, NextSeq(s))
  {
  }

  /** A turn's packets differ with its first sequence number only in their own. */
  lemma BatchIsBare(h: seq<Frame>, d: Drain, mtu: nat, s: Uint32, s': Uint32)
    requires Ready(h, d)
    ensures Bare(BatchPackets(h, d, mtu, s)) == Bare(BatchPackets(h, d, mtu, s'))
    ensures AllOf(BatchPackets(h, d, mtu, s), PacketType.Live) && CountedFrom(BatchPackets(h, d, mtu, s), s)
  {
    var items := BatchItems(h, d);
    hide BatchItems;
    LiveIsBare(items, Budget(mtu), s, s');
    LiveMatches(items, Budget(mtu), s);
    SeqAtAdds(s, 0, 0);
    hide LivePackets;
  }

  // ---- The state of the loop ----

  /** The drainer stands where the run of its live turns leaves it; of the packets it has
      offered, the live ones are that run's but for their numbers, the others the replies
      to the requests; all are counted from 0, and the server can read each. */
  ghost predicate InTask(h: seq<Frame>, used: seq<nat>, d: Drain, chunkSeq: Uint32, offered: seq<seq<Byte>>,
                         ps: seq<Packet>, replies: seq<Packet>) {
    && AllReady(h, |used|) && d == At(h, |used|)
    && Sent(ps, 0, [], chunkSeq, offered) && CountedFrom(ps, 0) && Readable(ps)
    && Bare(OfType(ps, PacketType.Live)) == Bare(Packets(h, used, |used|))
    && OfType(ps, MemoryChunk) == replies
  }

  lemma TaskStarts(h: seq<Frame>)
    ensures InTask(h, [], Init, 0, [], [], [])
  {
    SeqAtAdds(0, 0, 0);
  }

  lemma TaskGrows(h: seq<Frame>, g: seq<Frame>, used: seq<nat>, d: Drain, chunkSeq: Uint32, offered: seq<seq<Byte>>,
                  ps: seq<Packet>, replies: seq<Packet>)
    requires h <= g && InTask(h, used, d, chunkSeq, offered, ps, replies)
    ensures InTask(g, used, d, chunkSeq, offered, ps, replies)
  {
    hide Sent, Packets, At, Bare, OfType, CountedFrom, Readable;
    AtPrefix(h, g, |used|);
    PacketsPrefix(h, g, used, |used|);
  }

  lemma StreamGrows(ps: seq<Packet>, qs: seq<Packet>, seq1: Uint32, o1: seq<seq<Byte>>, seq2: Uint32,
                    o2: seq<seq<Byte>>, t: PacketType)
    requires Sent(ps, 0, [], seq1, o1) && CountedFrom(ps, 0) && Readable(ps)
    requires Sent(qs, seq1, o1, seq2, o2) && CountedFrom(qs, seq1) && AllOf(qs, t) && Readable(qs)
    ensures Sent(ps + qs, 0, [], seq2, o2) && CountedFrom(ps + qs, 0) && Readable(ps + qs)
    ensures OfType(ps + qs, t) == OfType(ps, t) + qs
    ensures forall u: PacketType :: u != t ==> OfType(ps + qs, u) == OfType(ps, u)
  {
    assert seq1 == SeqAt(0, |ps|);
    hide Sent, CountedFrom, OfType, AllOf, Readable;
    ReadableJoins(ps, qs);
    SentJoins(ps, qs, 0, [], seq1, o1, seq2, o2);
    CountJoins(ps, qs, seq1);
    forall u: PacketType ensures OfType(ps + qs, u) == OfType(ps, u) + if u == t then qs else [] {
      OfTypeJoins(ps, qs, u);
      OfTypeAll(qs, t, u);
    }
    forall u: PacketType | u != t ensures OfType(ps + qs, u) == OfType(ps, u) { NothingAround(OfType(ps, u)); }
  }

  lemma ReadableJoins(ps: seq<Packet>, qs: seq<Packet>)
    requires Readable(ps) && Readable(qs)
    ensures Readable(ps + qs)
  {
    hide Parsed, FramesFit, Wire;
  }

  lemma TaskTurns(h: seq<Frame>, used: seq<nat>, d: Drain, seq1: Uint32, o1: seq<seq<Byte>>, ps: seq<Packet>,
                  replies: seq<Packet>, mtu: nat, d': Drain, seq2: Uint32, o2: seq<seq<Byte>>)
    requires Clean(h) && InTask(h, used, d, seq1, o1, ps, replies) && Ready(h, d) && d' == After(h, d)
    requires Sent(BatchPackets(h, d, mtu, seq1), seq1, o1, seq2, o2)
    ensures InTask(h, used + [mtu], d', seq2, o2, ps + BatchPackets(h, d, mtu, seq1), replies)
  {
    hide Sent, Packets, At, After, Bare, OfType, CountedFrom, AllOf, BatchPackets, SeqAt, Readable, Clean;
    var batch := BatchPackets(h, d, mtu, seq1);
    var before := Packets(h, used, |used|);
    AtTurn(h, |used|);
    PacketsTurn(h, used, mtu);
    BatchIsBare(h, d, mtu, seq1, SeqAt(0, |before|));
    BatchReadable(h, d, mtu, seq1);
    StreamGrows(ps, batch, seq1, o1, seq2, o2, PacketType.Live);
    BareJoins(OfType(ps, PacketType.Live), batch);
    BareJoins(before, BatchPackets(h, d, mtu, SeqAt(0, |before|)));
  }

  lemma BatchReadable(h: seq<Frame>, d: Drain, mtu: nat, chunkSeq: Uint32)
    requires Clean(h) && Ready(h, d)
    ensures Readable(BatchPackets(h, d, mtu, chunkSeq))
  {
    BatchItemsSmall(h, d);
    LiveOnTheWire(BatchItems(h, d), Budget(mtu), chunkSeq);
    EmptyOnTheWire(EmptyPacket(PacketType.Live, chunkSeq, h[Base(h, d)].relTs, 0));
    hide Parsed, FramesFit, Wire, BatchItems, LivePackets;
  }

  lemma TaskReplays(h: seq<Frame>, used: seq<nat>, d: Drain, seq1: Uint32, o1: seq<seq<Byte>>, ps: seq<Packet>,
                    replies: seq<Packet>, rs: seq<Packet>, seq2: Uint32, o2: seq<seq<Byte>>)
    requires InTask(h, used, d, seq1, o1, ps, replies)
    requires Sent(rs, seq1, o1, seq2, o2) && CountedFrom(rs, seq1) && AllOf(rs, MemoryChunk) && Readable(rs)
    ensures InTask(h, used, d, seq2, o2, ps + rs, replies + rs)
  {
    hide Sent, Packets, At, Bare, OfType, CountedFrom, AllOf, Readable;
    StreamGrows(ps, rs, seq1, o1, seq2, o2, MemoryChunk);
  }

  // ---- Answers ----

  /** What a request got: when it was taken up and when its last packet was offered, the
      write counts its frames were read at, and its packets, the first numbered `first`,
      with the frames of each. */
  datatype Answer = Answer(asked: Mark, done: Mark, seen: seq<nat>, first: Uint32, packets: seq<Packet>,
                           groups: seq<seq<Item>>)

  /** The first frame of the window, the one asked for by the request taken up at this
      write count. */
  function WindowStart(req: Request, w: nat): nat { w - WindowLength(req.seconds, w) }

  /** The answer serves the request: its packets carry, in order, the window's frames that
      were audible, small enough and still there when read, each read while it was under
      way; each is within the budget and the ten slots, under its first frame's time and
      tag; the last of them and no other ends the request; and if no frame was lost the
      packets are filled greedily. */
  ghost predicate Answers(h: seq<Frame>, req: Request, a: Answer) {
    var start, budget := WindowStart(req, a.asked.frames), Budget(req.mtu);
    && a.asked.frames <= a.done.frames <= |h| && start + |a.seen| == a.asked.frames
    && Growing(a.seen, a.asked.frames, a.done.frames)
    && a.packets != [] && SentGroups(a.packets, a.groups, a.first, true, budget)
    && Flatten(a.groups) == KeptItems(h, start, a.seen, |a.seen|, budget)
    && (NoLoss(start, a.seen, 0, |a.seen|) ==>
          NonEmptyGroups(a.groups) == Groups(AudibleItems(h, start, a.asked.frames), budget))
  }

  /** Its packets are what the link was offered meanwhile. */
  ghost predicate OnLink(offered: seq<seq<Byte>>, a: Answer) {
    && a.asked.offered + |a.packets| == a.done.offered <= |offered|
    && forall j :: 0 <= j < |a.packets| ==>
         FramesFit(a.packets[j].frames) && offered[a.asked.offered + j] == Wire(a.packets[j])
  }

  /** The requests were answered, one after the other, between lo and hi. */
  ghost predicate Served(h: seq<Frame>, offered: seq<seq<Byte>>, requests: seq<Request>, answers: seq<Answer>,
                         lo: Mark, hi: Mark) {
    && |answers| == |requests|
    && (forall k :: 0 <= k < |answers| ==>
          && Answers(h, requests[k], answers[k]) && OnLink(offered, answers[k])
          && Upto(lo, answers[k].asked) && Upto(answers[k].done, hi))
    && forall j, k :: 0 <= j < k < |answers| ==> Upto(answers[j].done, answers[k].asked)
  }

  /** All packets of these answers. */
  function Replies(answers: seq<Answer>): seq<Packet> {
    if answers == [] then [] else Replies(answers[..|answers| - 1]) + answers[|answers| - 1].packets
  }

  lemma RepliesMore(answers: seq<Answer>, a: Answer)
    ensures Replies(answers + [a]) == Replies(answers) + a.packets
  {
    assert (answers + [a])[..|answers|] == answers;
  }

  lemma {:induction false} KeptPrefix(h: seq<Frame>, g: seq<Frame>, start: nat, seen: seq<nat>, n: nat, budget: nat)
    requires h <= g && n <= |seen| && start + n <= |h|
    ensures KeptItems(g, start, seen, n, budget) == KeptItems(h, start, seen, n, budget)
  {
    if n > 0 { KeptPrefix(h, g, start, seen, n - 1, budget); }
  }

  lemma {:induction false} AudiblePrefix(h: seq<Frame>, g: seq<Frame>, lo: nat, hi: nat)
    requires h <= g && lo <= hi <= |h|
    ensures AudibleItems(g, lo, hi) == AudibleItems(h, lo, hi)
    decreases hi - lo
  {
    if lo < hi { AudiblePrefix(h, g, lo + 1, hi); }
  }

  lemma AnswersStay(h: seq<Frame>, g: seq<Frame>, req: Request, a: Answer)
    requires h <= g && Answers(h, req, a)
    ensures Answers(g, req, a)
  {
    hide KeptItems, AudibleItems, WindowStart, Growing, NoLoss, SentGroups, Flatten, Groups, NonEmptyGroups;
    var start := WindowStart(req, a.asked.frames);
    KeptPrefix(h, g, start, a.seen, |a.seen|, Budget(req.mtu));
    AudiblePrefix(h, g, start, a.asked.frames);
  }

  lemma OnLinkStays(o1: seq<seq<Byte>>, o2: seq<seq<Byte>>, a: Answer)
    requires o1 <= o2 && OnLink(o1, a)
    ensures OnLink(o2, a)
  {
    hide FramesFit, Wire;
  }

  lemma ServedStays(h: seq<Frame>, g: seq<Frame>, o1: seq<seq<Byte>>, o2: seq<seq<Byte>>, requests: seq<Request>,
                    answers: seq<Answer>, lo: Mark, hi: Mark)
    requires h <= g && o1 <= o2 && Served(h, o1, requests, answers, lo, hi)
    ensures Served(g, o2, requests, answers, lo, hi)
  {
    hide Answers, OnLink, Upto;
    forall k | 0 <= k < |answers| ensures Answers(g, requests[k], answers[k]) && OnLink(o2, answers[k]) {
      AnswersStay(h, g, requests[k], answers[k]);
      OnLinkStays(o1, o2, answers[k]);
    }
  }

  lemma ServedMore(h: seq<Frame>, offered: seq<seq<Byte>>, requests: seq<Request>, answers: seq<Answer>, lo: Mark,
                   mid: Mark, req: Request, a: Answer)
    requires Served(h, offered, requests, answers, lo, mid) && Upto(lo, mid) && Upto(mid, a.asked)
    requires Upto(a.asked, a.done) && Answers(h, req, a) && OnLink(offered, a)
    ensures Served(h, offered, requests + [req], answers + [a], lo, a.done)
  {
    hide Answers, OnLink;
  }

  /** What a replay leaves is an answer. */
  lemma ReplayAnswers(h: seq<Frame>, g: seq<Frame>, req: Request, a: Answer, o1: seq<seq<Byte>>, seq2: Uint32,
                      o2: seq<seq<Byte>>)
    requires h <= g && a.asked == Mark(|h|, |o1|) && a.done == Mark(|g|, |o2|)
    requires var n := WindowLength(req.seconds, |h|);
      Finished(h, |h| - n, n, Budget(req.mtu), a.packets, a.groups, a.seen, |g|, a.first, o1, seq2, o2)
    ensures Answers(g, req, a) && OnLink(o2, a) && Sent(a.packets, a.first, o1, seq2, o2)
  {
    hide KeptItems, AudibleItems, WindowLength, Growing, NoLoss, SentGroups, Sent, Flatten, Groups;
    hide NonEmptyGroups, OnLink;
    var n := WindowLength(req.seconds, |h|);
    KeptPrefix(h, g, |h| - n, a.seen, n, Budget(req.mtu));
    AudiblePrefix(h, g, |h| - n, |h|);
    SentOnLink(o1, seq2, o2, a);
  }

  lemma SentOnLink(o1: seq<seq<Byte>>, seq2: Uint32, o2: seq<seq<Byte>>, a: Answer)
    requires Sent(a.packets, a.first, o1, seq2, o2) && a.asked.offered == |o1| && a.done.offered == |o2|
    ensures OnLink(o2, a)
  {
    hide FramesFit, Wire, SeqAt;
  }

  // ---- What an answer is to the server ----

  ghost predicate EndsRequest(ps: seq<Packet>) {
    forall j :: 0 <= j < |ps| ==> (ps[j].flags == FLAG_LAST_OF_REQ <==> j == |ps| - 1)
  }

  /** Every packet of an answer is read back and, under an ordinary MTU, fits one
      notification; together they carry the kept frames of the window, which are all that
      are audible and fit if the window's first frame was still in the ring at the end. */
  lemma AnswerHeard(h: seq<Frame>, req: Request, a: Answer)
    requires Answers(h, req, a)
    ensures AllOf(a.packets, MemoryChunk) && CountedFrom(a.packets, a.first) && EndsRequest(a.packets)
    ensures Readable(a.packets)
    ensures 23 <= req.mtu ==> forall j :: 0 <= j < |a.packets| ==> Arrives(a.packets[j], req.mtu)
    ensures var start := WindowStart(req, a.asked.frames);
      && Carried(a.packets) == Datas(KeptItems(h, start, a.seen, |a.seen|, Budget(req.mtu)))
      && (a.done.frames - start <= RING_FRAMES ==>
            Carried(a.packets) == Datas(Fitting(AudibleItems(h, start, a.asked.frames), Budget(req.mtu))))
  {
    hide KeptItems, AudibleItems, WindowStart, SentGroups, Flatten, Groups, NonEmptyGroups, Carried, Datas;
    hide Fitting, SeqAt;
    var start, budget := WindowStart(req, a.asked.frames), Budget(req.mtu);
    SentCarries(a.packets, a.groups, a.first, budget);
    GroupsReadable(a, budget);
    if 23 <= req.mtu { ReplayOnTheWire(a.packets, a.groups, a.first, req.mtu); }
    if a.done.frames - start <= RING_FRAMES {
      assert NoLoss(start, a.seen, 0, |a.seen|);
      FlattenNonEmpty(a.groups);
      GroupsPartition(AudibleItems(h, start, a.asked.frames), budget);
    }
  }

  lemma GroupsReadable(a: Answer, budget: nat)
    requires SentGroups(a.packets, a.groups, a.first, true, budget)
    ensures Readable(a.packets)
  {
    forall j | 0 <= j < |a.packets| ensures InRange(a.packets[j]) && Parsed(Wire(a.packets[j])) == Ok(a.packets[j]) {
      assert SentGroup(a.packets[j], a.groups[j], SeqAt(a.first, j), j == |a.packets| - 1, budget);
      PacketOnTheWire(a.packets[j], a.groups[j]);
    }
  }

  lemma {:induction false} FlattenNonEmpty(groups: seq<seq<Item>>)
    ensures Flatten(NonEmptyGroups(groups)) == Flatten(groups)
  {
    if groups != [] {
      var n := |groups| - 1;
      FlattenNonEmpty(groups[..n]);
      FlattenJoin(NonEmptyGroups(groups[..n]), NonEmptyGroup(groups[n]));
      FlattenOne(groups[n]);
      NothingAround(Flatten(groups[..n]));
    }
  }

  // ---- The loop ----

  /** A request that is served within bounds: a validated duration, a budget that the
      scratch buffer holds, and an encoder whose shortest frames fill no eleven slots. */
  predicate Servable(req: Request, shortest: nat) {
    && 1 <= req.seconds <= 60 && Budget(req.mtu) + 0xFF <= SCRATCH_CAP
    && (FRAMES_PER_CHUNK + 1) * (1 + shortest) > Budget(req.mtu)
  }

  /** Serves one request, taken up now. */
  method Serve(d: Drainer, req: Request, scratch: array<Byte>) returns (ghost a: Answer)
    requires d.Valid() && scratch !in d.ring.Repr() && scratch != d.pkt && scratch.Length == SCRATCH_CAP
    requires Servable(req, d.shortest)
    modifies d`chunkSeq, d.ring.Repr(), d.link, d.pkt, scratch
    ensures d.Valid() && old(d.ring.history) <= d.ring.history
    ensures Drain(d.cursor, d.inSpeech) == old(Drain(d.cursor, d.inSpeech))
    ensures a.asked == old(Now(d)) && a.done == Now(d) && a.first == old(d.chunkSeq)
    ensures Answers(d.ring.history, req, a) && OnLink(d.link.offered, a)
    ensures Sent(a.packets, old(d.chunkSeq), old(d.link.offered), d.chunkSeq, d.link.offered)
    ensures Numbered(old(d.link.offered), d.link.offered, old(d.chunkSeq), d.chunkSeq)
  {
    hide *;
    ghost var h, seq0, offered0, asked := d.ring.history, d.chunkSeq, d.link.offered, Now(d);
    NowIs(d);
    SlotsHold(d, req);
    Apart(d);
    ghost var rs, groups, seen;
    rs, groups, seen := DrainReplay(d, req.seconds, req.mtu, scratch);
    NowIs(d);
    a := Answer(asked, Now(d), seen, seq0, rs, groups);
    ReplayAnswers(h, d.ring.history, req, a, offered0, d.chunkSeq, d.link.offered);
    ghost var n := WindowLength(req.seconds, |h|);
    ReplayNumbered(h, |h| - n, n, Budget(req.mtu), rs, groups, seen, |d.ring.history|, seq0, offered0, d.chunkSeq,
                   d.link.offered);
  }

  lemma Apart(d: Drainer)
    ensures d !in d.ring.Repr() && d.link !in d.ring.Repr()
  {
  }

  lemma SlotsHold(d: Drainer, req: Request)
    requires d.Valid() && Servable(req, d.shortest)
    ensures 1 <= req.seconds <= 60 && Budget(req.mtu) + 0xFF <= SCRATCH_CAP
    ensures var h := d.ring.history; ElevenExceed(h, |h| - WindowLength(req.seconds, |h|), Budget(req.mtu))
  {
    var h := d.ring.history;
    d.RingIs();
    hide Drainer.Valid;
    BigFramesExceed(h, |h| - WindowLength(req.seconds, |h|), Budget(req.mtu), d.shortest);
  }

  /** The producer runs before the next request is taken up. */
  method Wait(d: Drainer)
    requires d.Valid()
    modifies d.ring.Repr()
    ensures d.Valid() && old(d.ring.history) <= d.ring.history
    ensures d.chunkSeq == old(d.chunkSeq) && Drain(d.cursor, d.inSpeech) == old(Drain(d.cursor, d.inSpeech))
    ensures d.link.offered == old(d.link.offered)
  {
    hide Ring.Valid, Clean, NoneShorter, Subsequence;
    var _ := Preempt(d.ring, d.shortest);
  }

  /** In step, or some turn was overrun. */
  ghost predicate TaskKeepsUp(h: seq<Frame>, log: seq<Pass>, bad: nat, d: Drain, chunkSeq: Uint32,
                              offered: seq<seq<Byte>>, ps: seq<Packet>, replies: seq<Packet>) {
    || (InTask(h, Used(log), d, chunkSeq, offered, ps, replies) && Timely(h, log))
    || Overran(h, Sizes(log), bad)
  }

  /** All requests found queued. */
  method ServeAll(d: Drainer, requests: seq<Request>, scratch: array<Byte>, ghost log: seq<Pass>, ghost bad: nat,
                  ghost ps0: seq<Packet>, ghost replies0: seq<Packet>)
    returns (ghost ps: seq<Packet>, ghost answers: seq<Answer>)
    requires d.Valid() && scratch !in d.ring.Repr() && scratch != d.pkt && scratch.Length == SCRATCH_CAP
    requires forall k :: 0 <= k < |requests| ==> Servable(requests[k], d.shortest)
    requires TaskKeepsUp(d.ring.history, log, bad, Drain(d.cursor, d.inSpeech), d.chunkSeq, d.link.offered, ps0,
                         replies0)
    modifies d`chunkSeq, d.ring.Repr(), d.link, d.pkt, scratch
    ensures d.Valid() && old(d.ring.history) <= d.ring.history
    ensures Served(d.ring.history, d.link.offered, requests, answers, old(Now(d)), Now(d))
    ensures Numbered(old(d.link.offered), d.link.offered, old(d.chunkSeq), d.chunkSeq)
    ensures TaskKeepsUp(d.ring.history, log, bad, Drain(d.cursor, d.inSpeech), d.chunkSeq, d.link.offered, ps,
                        replies0 + Replies(answers))
  {
    hide *;
    ps, answers := ps0, [];
    ghost var lo, offered0, seq0 := Now(d), d.link.offered, d.chunkSeq;
    NoneServed(d.ring.history, d.link.offered, lo, replies0);
    NumberedNone(offered0, seq0);
    assert requests[..0] == [];
    for k := 0 to |requests|
      invariant d.Valid() && old(d.ring.history) <= d.ring.history
      invariant Served(d.ring.history, d.link.offered, requests[..k], answers, lo, Now(d)) && Upto(lo, Now(d))
      invariant Numbered(offered0, d.link.offered, seq0, d.chunkSeq)
      invariant TaskKeepsUp(d.ring.history, log, bad, Drain(d.cursor, d.inSpeech), d.chunkSeq, d.link.offered, ps,
                            replies0 + Replies(answers))
    {
      ghost var h, d1, seq1, o1 := d.ring.history, Drain(d.cursor, d.inSpeech), d.chunkSeq, d.link.offered;
      ghost var mid := Now(d);
      NowIs(d);
      Wait(d);
      NowIs(d);
      ghost var a := Serve(d, requests[k], scratch);
      NowIs(d);
      NumberedGrows(o1, d.link.offered, seq1, d.chunkSeq);
      NumberedJoins(offered0, o1, d.link.offered, seq0, seq1, d.chunkSeq);
      OneServed(h, d.ring.history, o1, d.link.offered, requests[..k], answers, lo, mid, requests[k], a);
      assert requests[..k] + [requests[k]] == requests[..k + 1];
      AnswerHeard(d.ring.history, requests[k], a);
      ServedKeeps(h, d.ring.history, log, bad, d1, seq1, o1, ps, replies0 + Replies(answers), a.packets, d.chunkSeq,
                  d.link.offered);
      RepliesMore(answers, a);
      Associates(replies0, Replies(answers), a.packets);
      ps, answers := ps + a.packets, answers + [a];
    }
    assert requests[..|requests|] == requests;
  }

  lemma NoneServed(h: seq<Frame>, offered: seq<seq<Byte>>, lo: Mark, replies: seq<Packet>)
    ensures Served(h, offered, [], [], lo, lo) && Upto(lo, lo) && replies + Replies([]) == replies
  {
  }

  lemma OneServed(h: seq<Frame>, g: seq<Frame>, o1: seq<seq<Byte>>, o2: seq<seq<Byte>>, requests: seq<Request>,
                  answers: seq<Answer>, lo: Mark, mid: Mark, req: Request, a: Answer)
    requires h <= g && o1 <= o2 && Served(h, o1, requests, answers, lo, mid) && Upto(lo, mid)
    requires mid == Mark(|h|, |o1|) && |h| <= a.asked.frames <= a.done.frames && a.asked.offered == |o1|
    requires a.done.offered == |o2| && Answers(g, req, a) && OnLink(o2, a)
    ensures Served(g, o2, requests + [req], answers + [a], lo, a.done) && Upto(lo, a.done)
  {
    hide Served, Answers, OnLink;
    ServedStays(h, g, o1, o2, requests, answers, lo, mid);
    ServedMore(g, o2, requests, answers, lo, mid, req, a);
  }

  lemma ServedKeeps(h: seq<Frame>, g: seq<Frame>, log: seq<Pass>, bad: nat, d: Drain, seq1: Uint32,
                    o1: seq<seq<Byte>>, ps: seq<Packet>, replies: seq<Packet>, rs: seq<Packet>, seq2: Uint32,
                    o2: seq<seq<Byte>>)
    requires h <= g && TaskKeepsUp(h, log, bad, d, seq1, o1, ps, replies)
    requires Sent(rs, seq1, o1, seq2, o2) && CountedFrom(rs, seq1) && AllOf(rs, MemoryChunk) && Readable(rs)
    ensures TaskKeepsUp(g, log, bad, d, seq2, o2, ps + rs, replies + rs)
  {
    hide InTask, Overran, Timely, Used, Sizes, Sent, CountedFrom, AllOf, Readable;
    if Overran(h, Sizes(log), bad) {
      OverranGrows(h, g, Sizes(log), Sizes(log), bad);
    } else {
      TaskMeans(h, Used(log), d, seq1, o1, ps, replies);
      TimelyGrows(h, g, log);
      TaskGrows(h, g, Used(log), d, seq1, o1, ps, replies);
      TaskReplays(g, Used(log), d, seq1, o1, ps, replies, rs, seq2, o2);
    }
  }

  lemma TaskMeans(h: seq<Frame>, used: seq<nat>, d: Drain, chunkSeq: Uint32, offered: seq<seq<Byte>>, ps: seq<Packet>,
                  replies: seq<Packet>)
    requires InTask(h, used, d, chunkSeq, offered, ps, replies)
    ensures AllReady(h, |used|) && d == At(h, |used|)
  {
  }

  /** When pass i came to its requests. */
  function Before(log: seq<Pass>, i: nat, lo: Mark): Mark
    requires i <= |log|
  {
    if i == 0 then lo else log[i - 1].end
  }

  /** The requests of each round were answered between the end of the turn before and the
      beginning of the next, each at once after the one before it. */
  ghost predicate AllServed(h: seq<Frame>, offered: seq<seq<Byte>>, rounds: seq<Round>, log: seq<Pass>,
                            answers: seq<seq<Answer>>, lo: Mark) {
    && |answers| == |log| <= |rounds|
    && forall i :: 0 <= i < |log| ==>
         Served(h, offered, rounds[i].requests, answers[i], Before(log, i, lo), log[i].begin)
  }

  function AllReplies(answers: seq<seq<Answer>>): seq<Packet> {
    if answers == [] then [] else AllReplies(answers[..|answers| - 1]) + Replies(answers[|answers| - 1])
  }

  lemma AllRepliesMore(answers: seq<seq<Answer>>, more: seq<Answer>)
    ensures AllReplies(answers + [more]) == AllReplies(answers) + Replies(more)
  {
    assert (answers + [more])[..|answers|] == answers;
  }

  /** drain_task from its start, a pass for every round: the requests found queued, then a
      live turn, the producer running at every read. Every request is answered, in its
      place between the turns, and whatever is offered carries the numbers from 0 on.
      Unless the producer overran a live batch, no turn is left out, the live packets are
      those of the specified run over what was recorded, and the others are the answers in
      order. */
  method RunTask(d: Drainer, rounds: seq<Round>, scratch: array<Byte>)
    returns (ghost log: seq<Pass>, ghost answers: seq<seq<Answer>>, ghost ps: seq<Packet>)
    requires d.Valid() && scratch !in d.ring.Repr() && scratch != d.pkt && scratch.Length == SCRATCH_CAP
    requires Drain(d.cursor, d.inSpeech) == Init && d.chunkSeq == 0 && d.link.offered == []
    requires forall i, k :: 0 <= i < |rounds| && 0 <= k < |rounds[i].requests| ==>
      Servable(rounds[i].requests[k], d.shortest)
    modifies d, d.ring.Repr(), d.link, d.pkt, scratch
    ensures d.Valid() && old(d.ring.history) <= d.ring.history
    ensures |log| == |rounds| && forall i :: 0 <= i < |rounds| ==> log[i].mtu == rounds[i].mtu
    ensures Ordered(log, old(Now(d)), Now(d))
    ensures AllServed(d.ring.history, d.link.offered, rounds, log, answers, old(Now(d)))
    ensures Numbered([], d.link.offered, 0, d.chunkSeq)
    ensures NoOverrun(d.ring.history, Sizes(log)) ==>
      && InTask(d.ring.history, Used(log), Drain(d.cursor, d.inSpeech), d.chunkSeq, d.link.offered, ps,
                AllReplies(answers))
      && Timely(d.ring.history, log)
  {
    hide *;
    log, answers, ps := [], [], [];
    ghost var lo, bad := Now(d), 0;
    TaskLoopStarts(d.ring.history, d.link.offered, rounds, lo);
    for i := 0 to |rounds|
      invariant d.Valid() && old(d.ring.history) <= d.ring.history
      invariant |log| == i && forall k :: 0 <= k < i ==> log[k].mtu == rounds[k].mtu
      invariant Ordered(log, lo, Now(d)) && Upto(lo, Now(d)) && Before(log, i, lo) == Now(d)
      invariant AllServed(d.ring.history, d.link.offered, rounds, log, answers, lo)
      invariant Numbered([], d.link.offered, 0, d.chunkSeq)
      invariant TaskKeepsUp(d.ring.history, log, bad, Drain(d.cursor, d.inSpeech), d.chunkSeq, d.link.offered, ps,
                            AllReplies(answers))
    {
      ghost var h0, o0, seq0, mark0 := d.ring.history, d.link.offered, d.chunkSeq, Now(d);
      NowIs(d);
      ghost var more;
      ps, more := ServeAll(d, rounds[i].requests, scratch, log, bad, ps, AllReplies(answers));
      AllRepliesMore(answers, more);
      ghost var begin := Now(d);
      ghost var h, d1, seq1, o1 := d.ring.history, Drain(d.cursor, d.inSpeech), d.chunkSeq, d.link.offered;
      NowIs(d);
      NumberedGrows(o0, o1, seq0, seq1);
      NumberedJoins([], o0, o1, 0, seq0, seq1);
      var ran := d.Turn(rounds[i].mtu);
      NowIs(d);
      NumberedGrows(o1, d.link.offered, seq1, d.chunkSeq);
      NumberedJoins([], o1, d.link.offered, 0, seq1, d.chunkSeq);
      ghost var p := Pass(rounds[i].mtu, begin, ran, Now(d));
      Later(lo, mark0, begin);
      Later(lo, begin, p.end);
      OrderedMore(log, lo, mark0, p);
      RoundServed(h0, h, d.ring.history, o0, o1, d.link.offered, rounds, log, answers, lo, more, p);
      ps, bad := TurnKeeps(d, h, log, bad, p, d1, seq1, o1, ps, AllReplies(answers + [more]));
      log, answers := log + [p], answers + [more];
      BeforeNext(log, lo);
    }
    TaskKeepsUpIs(d.ring.history, log, bad, Drain(d.cursor, d.inSpeech), d.chunkSeq, d.link.offered, ps,
                  AllReplies(answers));
  }

  lemma BeforeNext(log: seq<Pass>, lo: Mark)
    requires log != []
    ensures Before(log, |log|, lo) == log[|log| - 1].end
  {
  }

  lemma TaskLoopStarts(h: seq<Frame>, offered: seq<seq<Byte>>, rounds: seq<Round>, lo: Mark)
    ensures TaskKeepsUp(h, [], 0, Init, 0, [], [], AllReplies([])) && AllServed(h, offered, rounds, [], [], lo)
    ensures Ordered([], lo, lo) && Upto(lo, lo) && Before([], 0, lo) == lo && Numbered([], [], 0, 0)
  {
    TaskStarts(h);
    NumberedNone([], 0);
  }

  lemma TaskKeepsUpIs(h: seq<Frame>, log: seq<Pass>, bad: nat, d: Drain, chunkSeq: Uint32, offered: seq<seq<Byte>>,
                      ps: seq<Packet>, replies: seq<Packet>)
    requires TaskKeepsUp(h, log, bad, d, chunkSeq, offered, ps, replies)
    ensures NoOverrun(h, Sizes(log)) ==>
      InTask(h, Used(log), d, chunkSeq, offered, ps, replies) && Timely(h, log)
  {
    hide InTask, Overran, NoOverrun, Timely, Used, Sizes;
    if Overran(h, Sizes(log), bad) { OverranIs(h, Sizes(log), bad); }
  }

  lemma RoundServed(h0: seq<Frame>, h: seq<Frame>, g: seq<Frame>, o0: seq<seq<Byte>>, o1: seq<seq<Byte>>,
                    o2: seq<seq<Byte>>, rounds: seq<Round>, log: seq<Pass>, answers: seq<seq<Answer>>, lo: Mark,
                    more: seq<Answer>, p: Pass)
    requires h0 <= h <= g && o0 <= o1 <= o2 && |log| < |rounds|
    requires AllServed(h0, o0, rounds, log, answers, lo)
    requires Served(h, o1, rounds[|log|].requests, more, Before(log, |log|, lo), p.begin)
    ensures AllServed(g, o2, rounds, log + [p], answers + [more], lo)
  {
    hide Served;
    forall i | 0 <= i < |log|
      ensures Served(g, o2, rounds[i].requests, answers[i], Before(log, i, lo), log[i].begin)
    {
      ServedStays(h0, g, o0, o2, rounds[i].requests, answers[i], Before(log, i, lo), log[i].begin);
    }
    ServedStays(h, g, o1, o2, rounds[|log|].requests, more, Before(log, |log|, lo), p.begin);
  }

  lemma OverranNow(g: seq<Frame>, used: seq<nat>, sizes: seq<nat>, d: Drain, size: nat)
    requires |used| == |sizes| && AllReady(g, |used|) && d == At(g, |used|) && Ready(g, d)
    requires !InWindow(Base(g, d), size)
    ensures Overran(g, sizes + [size], |used|)
  {
  }

  /** A pass's turn, run or not, keeps the loop in step or is the first overrun. */
  lemma TurnKeeps(d: Drainer, h: seq<Frame>, log: seq<Pass>, bad0: nat, p: Pass, d0: Drain, seq0: Uint32,
                  offered0: seq<seq<Byte>>, ps0: seq<Packet>, replies: seq<Packet>)
    returns (ps: seq<Packet>, bad: nat)
    requires d.Valid() && h <= d.ring.history
    requires TaskKeepsUp(h, log, bad0, d0, seq0, offered0, ps0, replies)
    requires p.begin.frames == |h| && p.end == Now(d) && (Ready(h, d0) ==> p.ran)
    requires p.ran ==> Ready(d.ring.history, d0)
    requires p.ran && InWindow(Base(d.ring.history, d0), |d.ring.history|) ==> d.Followed(d0, p.mtu, seq0, offered0)
    requires !p.ran ==> Drain(d.cursor, d.inSpeech) == d0 && d.chunkSeq == seq0 && d.link.offered == offered0
    ensures TaskKeepsUp(d.ring.history, log + [p], bad, Drain(d.cursor, d.inSpeech), d.chunkSeq, d.link.offered, ps,
                        replies)
  {
    d.RingIs();
    hide InTask, Overran, Timely, Used, Sizes, Drainer.Valid, Clean, NoneShorter, Sent, BatchPackets;
    hide After, Base, InWindow;
    var g := d.ring.history;
    ps, bad := ps0, bad0;
    PassMore(log, p);
    PassesIn(log, 0);
    if Overran(h, Sizes(log), bad0) {
      OverranGrows(h, g, Sizes(log), Sizes(log + [p]), bad0);
    } else {
      TaskMeans(h, Used(log), d0, seq0, offered0, ps0, replies);
      TimelyTurns(h, g, log, d0, p);
      TaskGrows(h, g, Used(log), d0, seq0, offered0, ps0, replies);
      if p.ran && InWindow(Base(g, d0), |g|) {
        ps := ps0 + BatchPackets(g, d0, p.mtu, seq0);
        TaskTurns(g, Used(log), d0, seq0, offered0, ps0, replies, p.mtu, Drain(d.cursor, d.inSpeech), d.chunkSeq,
                  d.link.offered);
      } else if p.ran {
        bad := |Used(log)|;
        TaskMeans(g, Used(log), d0, seq0, offered0, ps0, replies);
        OverranNow(g, Used(log), Sizes(log), d0, |g|);
      }
    }
  }

  // ---- What the server hears ----

  lemma BareCarries(ps: seq<Packet>, qs: seq<Packet>)
    requires Bare(ps) == Bare(qs)
    ensures Carried(ps) == Carried(qs)
  {
    assert Bodies(Bare(ps)) == Bodies(ps) && Bodies(Bare(qs)) == Bodies(qs);
  }

  /** Replays in between take nothing from the live stream: its packets carry the kept
      frames of the run, and with frames small enough for every MTU in use and no onset at
      frame 10, every audible frame before the cursor once, the rest preroll repeats. */
  lemma LiveAmongReplays(h: seq<Frame>, used: seq<nat>, d: Drain, chunkSeq: Uint32, offered: seq<seq<Byte>>,
                         ps: seq<Packet>, replies: seq<Packet>)
    requires Clean(h) && InTask(h, used, d, chunkSeq, offered, ps, replies)
    requires forall k :: 0 <= k < |used| ==> 23 <= used[k]
    ensures Carried(OfType(ps, PacketType.Live)) == Datas(Kept(h, used, |used|))
    ensures AllSmall(h, used) ==>
      && Indexed(h, Log(h, |used|))
      && Carried(OfType(ps, PacketType.Live)) == Datas(ItemsOf(h, Log(h, |used|)))
    ensures !OnsetAtTen(h) ==>
      && d.cursor <= |h| && Own(Log(h, |used|)) == Collect(h, 0, d.cursor, false)
      && Increasing(Extra(Log(h, |used|)))
  {
    hide Carried, Kept, Bare, OfType, Packets, Sent, CountedFrom, Sound, Readable;
    BareCarries(OfType(ps, PacketType.Live), Packets(h, used, |used|));
    ServerHears(h, used, |used|);
    if !OnsetAtTen(h) { DeliveredOnceThenPreroll(h, |used|); }
    if AllSmall(h, used) { KeptIsLog(h, used, |used|); }
  }

  /** A selection of a mixed stream selects from each kind. */
  lemma {:induction false} SelectsByType(a: seq<Packet>, b: seq<Packet>, t: PacketType)
    requires Subsequence(a, b)
    ensures Subsequence(OfType(a, t), OfType(b, t))
    decreases |b|
  {
    hide Subsequence, OfType;
    if a == [] {
      OfTypeNone(t);
      NothingSelects(OfType(b, t));
    } else {
      SelectionNotEmpty(a, b);
      var m, n := |a| - 1, |b| - 1;
      assert b == b[..n] + [b[n]] && a == a[..m] + [a[m]];
      OfTypeLast(b, n, t);
      OfTypeLast(a, m, t);
      NothingAround(OfType(b[..n], t));
      NothingAround(OfType(a[..m], t));
      SubsequenceCases(a, m, b[..n], b[n]);
      if Subsequence(a, b[..n]) {
        SelectsByType(a, b[..n], t);
        SubsequenceSkip(OfType(a, t), OfType(b[..n], t), b[n]);
      } else {
        SelectsByType(a[..m], b[..n], t);
        SubsequenceTake(OfType(a[..m], t), OfType(b[..n], t), b[n]);
      }
    }
  }

  lemma NothingSelects(b: seq<Packet>)
    ensures Subsequence([], b)
  {
  }

  lemma SelectionNotEmpty(a: seq<Packet>, b: seq<Packet>)
    requires Subsequence(a, b) && a != []
    ensures b != []
  {
  }

  /** What the server reads of the whole task's notifications is a selection of its
      packets, in order and all of them if nothing is lost: of the live ones, which carry
      what a run without requests would, and of the replies. */
  ghost predicate TaskHeard(h: seq<Frame>, used: seq<nat>, d: Drain, offered: seq<seq<Byte>>, delivered: seq<seq<Byte>>,
                            ps: seq<Packet>, replies: seq<Packet>, heard: seq<Packet>) {
    var live := OfType(ps, PacketType.Live);
    && Decoded(delivered) == Reads(heard) && Subsequence(heard, ps) && (delivered == offered ==> heard == ps)
    && (forall j :: 0 <= j < |ps| ==> ps[j].chunkSeq == j % 0x1_0000_0000)
    && Subsequence(OfType(heard, PacketType.Live), live) && Subsequence(OfType(heard, MemoryChunk), replies)
    && (delivered == offered ==> OfType(heard, MemoryChunk) == replies)
    && Carried(live) == Datas(Kept(h, used, |used|))
    && (!OnsetAtTen(h) ==>
          && d.cursor <= |h| && Own(Log(h, |used|)) == Collect(h, 0, d.cursor, false)
          && Increasing(Extra(Log(h, |used|))))
    && (AllSmall(h, used) ==> Indexed(h, Log(h, |used|)) && Carried(live) == Datas(ItemsOf(h, Log(h, |used|))))
  }

  lemma TaskIsHeard(h: seq<Frame>, used: seq<nat>, d: Drain, chunkSeq: Uint32, offered: seq<seq<Byte>>,
                    delivered: seq<seq<Byte>>, ps: seq<Packet>, replies: seq<Packet>) returns (heard: seq<Packet>)
    requires Clean(h) && InTask(h, used, d, chunkSeq, offered, ps, replies) && Subsequence(delivered, offered)
    requires forall k :: 0 <= k < |used| ==> 23 <= used[k]
    ensures TaskHeard(h, used, d, offered, delivered, ps, replies, heard)
  {
    hide Subsequence, OfType, Carried, Kept, Bare, Packets, CountedFrom, Readable, Datas, Wire;
    LiveAmongReplays(h, used, d, chunkSeq, offered, ps, replies);
    CountIs(ps);
    assert offered == Wires(ps);
    heard := DeliveredReads(ps, delivered);
    if delivered == offered { WiresInjective(heard, ps); }
    SelectsByType(heard, ps, PacketType.Live);
    SelectsByType(heard, ps, MemoryChunk);
  }

  /** drain_task from its start to the server's parser, under any loss on the link. */
  method RunTaskAndHear(d: Drainer, rounds: seq<Round>, scratch: array<Byte>)
    returns (ghost log: seq<Pass>, ghost answers: seq<seq<Answer>>, ghost ps: seq<Packet>, ghost heard: seq<Packet>)
    requires d.Valid() && scratch !in d.ring.Repr() && scratch != d.pkt && scratch.Length == SCRATCH_CAP
    requires Drain(d.cursor, d.inSpeech) == Init && d.chunkSeq == 0 && d.link.offered == []
    requires forall i, k :: 0 <= i < |rounds| && 0 <= k < |rounds[i].requests| ==>
      Servable(rounds[i].requests[k], d.shortest)
    requires forall i :: 0 <= i < |rounds| ==> 23 <= rounds[i].mtu
    modifies d, d.ring.Repr(), d.link, d.pkt, scratch
    ensures d.Valid() && old(d.ring.history) <= d.ring.history
    ensures |log| == |rounds| && forall i :: 0 <= i < |rounds| ==> log[i].mtu == rounds[i].mtu
    ensures Ordered(log, old(Now(d)), Now(d))
    ensures AllServed(d.ring.history, d.link.offered, rounds, log, answers, old(Now(d)))
    ensures NoOverrun(d.ring.history, Sizes(log)) ==>
      && TaskHeard(d.ring.history, Used(log), Drain(d.cursor, d.inSpeech), d.link.offered, d.link.delivered, ps,
                   AllReplies(answers), heard)
      && Timely(d.ring.history, log)
  {
    hide *;
    log, answers, ps := RunTask(d, rounds, scratch);
    d.RingIs();
    d.LinkIs();
    heard := [];
    PassesIn(log, 0);
    forall k | 0 <= k < |Used(log)| ensures 23 <= Used(log)[k] { assert Used(log)[k] in Used(log); }
    if NoOverrun(d.ring.history, Sizes(log)) {
      heard := TaskIsHeard(d.ring.history, Used(log), Drain(d.cursor, d.inSpeech), d.chunkSeq, d.link.offered,
                           d.link.delivered, ps, AllReplies(answers));
    }
  }
}
