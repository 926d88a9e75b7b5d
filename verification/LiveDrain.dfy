/** drain_task of ble_drain.c: one turn of the live loop, with the producer running
    between any two ring accesses, and the whole stream of turns as the server decodes
    it. */
module LiveDrain {
  import opened CTypes
  import opened Sequences
  import opened C6Types
  import opened RingBuffer
  import opened AudioTask
  import opened DrainSpec
  import opened AudioPacket
  import opened C6Packet
  import opened Packing
  import opened Link

  const PACKET_BUF_CAP := HEADER_LEN + FRAMES_PER_CHUNK * (1 + MAX_OPUS_BYTES)

  ghost predicate Indexed(h: seq<Frame>, log: seq<Tagged>) {
    forall k :: 0 <= k < |log| ==> log[k].index < |h|
  }

  /** The frames of a log with the header fields they would be sent under. */
  ghost function ItemsOf(h: seq<Frame>, log: seq<Tagged>): seq<Item>
    requires Indexed(h, log)
  {
    seq(|log|, k requires 0 <= k < |log| => Item(h[log[k].index].relTs, log[k].vad, h[log[k].index].data))
  }

  ghost function BatchItems(h: seq<Frame>, d: Drain): seq<Item>
    requires Ready(h, d)
  {
    CollectIncreasing(h, Base(h, d), Base(h, d) + FRAMES_PER_CHUNK, Rewinds(h, d));
    ItemsOf(h, Batch(h, d))
  }

  /** The packets of one turn. */
  ghost function BatchPackets(h: seq<Frame>, d: Drain, mtu: nat, chunkSeq: Uint32): seq<Packet>
    requires Ready(h, d)
  {
    if BatchItems(h, d) == [] then [EmptyPacket(PacketType.Live, chunkSeq, h[Base(h, d)].relTs, 0)]
    else LivePackets(BatchItems(h, d), Budget(mtu), chunkSeq)
  }

  lemma BatchItemsSmall(h: seq<Frame>, d: Drain)
    requires Clean(h) && Ready(h, d)
    ensures |BatchItems(h, d)| <= FRAMES_PER_CHUNK <= 0xFF && Sendable(BatchItems(h, d))
  {
    CollectIncreasing(h, Base(h, d), Base(h, d) + FRAMES_PER_CHUNK, Rewinds(h, d));
    CollectShort(h, Base(h, d), Base(h, d) + FRAMES_PER_CHUNK, Rewinds(h, d));
    forall k | 0 <= k < |Batch(h, d)| ensures |BatchItems(h, d)[k].data| <= 0xFF {
      assert Produced(h[Batch(h, d)[k].index]);
    }
  }

  lemma {:induction false} CollectShort(h: seq<Frame>, lo: nat, hi: nat, prerolled: bool)
    requires lo <= hi <= |h|
    ensures |Collect(h, lo, hi, prerolled)| <= hi - lo
  {
    if lo < hi { CollectShort(h, lo, hi - 1, prerolled); }
  }

  /** Each turn's packets reach the server as they are, within the MTU, carrying the
      batch's fitting frames; a silent batch is one packet without frames. */
  lemma TurnOnTheWire(h: seq<Frame>, d: Drain, mtu: nat, chunkSeq: Uint32)
    requires Clean(h) && Ready(h, d) && 23 <= mtu
    ensures var ps := BatchPackets(h, d, mtu, chunkSeq);
            && Carried(ps) == Datas(Fitting(BatchItems(h, d), Budget(mtu)))
            && (BatchItems(h, d) == [] ==> |ps| == 1 && ps[0].vad == GapMarker)
            && forall j :: 0 <= j < |ps| ==> Arrives(ps[j], mtu) && ps[j].chunkSeq == SeqAt(chunkSeq, j)
  {
    BatchItemsSmall(h, d);
    var items := BatchItems(h, d);
    var budget := Budget(mtu);
    if items == [] {
      SeqAtAdds(chunkSeq, 0, 0);
      EmptyOnTheWire(EmptyPacket(PacketType.Live, chunkSeq, h[Base(h, d)].relTs, 0));
    } else {
      LiveOnTheWire(items, budget, chunkSeq);
      LiveMatches(items, budget, chunkSeq);
    }
  }

  /** Packet j of a turn that has audible frames, in bytes: it carries a piece of the
      batch, from place k, under its first frame's time and tag, and a further frame of
      the batch would not have fitted the notification with it. */
  lemma PacketInBytes(h: seq<Frame>, d: Drain, mtu: nat, chunkSeq: Uint32, j: nat) returns (k: nat)
    requires Clean(h) && Ready(h, d) && Batch(h, d) != [] && j < |BatchPackets(h, d, mtu, chunkSeq)|
    ensures var p, log := BatchPackets(h, d, mtu, chunkSeq)[j], Batch(h, d);
      var m, room := |p.frames|, if mtu >= 23 then mtu - 3 else 244;
      && 0 < m && k + m <= |log| && Indexed(h, log)
      && (forall i :: 0 <= i < m ==> p.frames[i] == h[log[k + i].index].data)
      && p.version == 1 && p.ptype == PacketType.Live && p.flags == 0
      && p.chunkSeq == (chunkSeq + j) % 0x1_0000_0000
      && p.relTs == h[log[k].index].relTs && p.vad == log[k].vad
      && FramesFit(p.frames) && |Wire(p)| <= room
      && (k + m < |log| ==> |Wire(p)| + 1 + |h[log[k + m].index].data| > room)
  {
    hide *;
    BatchItemsSmall(h, d);
    BatchIsItems(h, d, mtu, chunkSeq);
    k := LiveFills(BatchItems(h, d), mtu, chunkSeq, j);
    FillsBatch(h, Batch(h, d), BatchPackets(h, d, mtu, chunkSeq)[j], k, if mtu >= 23 then mtu - 3 else 244);
  }

  lemma BatchIsItems(h: seq<Frame>, d: Drain, mtu: nat, chunkSeq: Uint32)
    requires Ready(h, d) && Batch(h, d) != []
    ensures Indexed(h, Batch(h, d)) && BatchItems(h, d) == ItemsOf(h, Batch(h, d))
    ensures BatchPackets(h, d, mtu, chunkSeq) == LivePackets(BatchItems(h, d), Budget(mtu), chunkSeq)
  {
    CollectIncreasing(h, Base(h, d), Base(h, d) + FRAMES_PER_CHUNK, Rewinds(h, d));
  }

  lemma FillsBatch(h: seq<Frame>, log: seq<Tagged>, p: Packet, k: nat, room: nat)
    requires Indexed(h, log) && Fills(p, ItemsOf(h, log), k, room)
    ensures var m := |p.frames|;
      && 0 < m && k + m <= |log|
      && (forall i :: 0 <= i < m ==> p.frames[i] == h[log[k + i].index].data)
      && p.version == 1 && p.ptype == PacketType.Live && p.flags == 0
      && p.relTs == h[log[k].index].relTs && p.vad == log[k].vad
      && FramesFit(p.frames) && |Wire(p)| <= room
      && (k + m < |log| ==> |Wire(p)| + 1 + |h[log[k + m].index].data| > room)
  {
    hide Wire, FramesFit;
  }

  /** A turn without audible frames is one packet, of the first frame's time. */
  lemma SilentPacket(h: seq<Frame>, d: Drain, mtu: nat, chunkSeq: Uint32)
    requires Ready(h, d) && Batch(h, d) == []
    ensures BatchPackets(h, d, mtu, chunkSeq) ==
      [Packet(1, PacketType.Live, chunkSeq, h[Base(h, d)].relTs, GapMarker, 0, [])]
  {
  }

  /** The packet survives the wire: one notification carries it and the server parses it
      back. */
  ghost predicate Arrives(p: Packet, mtu: nat) {
    InRange(p) && |Wire(p)| <= mtu - 3 && Parsed(Wire(p)) == Ok(p)
  }

  lemma EmptyOnTheWire(p: Packet)
    requires p.version == 1 && p.frames == []
    ensures Carried([p]) == [] && InRange(p) && |Wire(p)| == HEADER_LEN && Parsed(Wire(p)) == Ok(p)
  {
    PacketOnTheWire(p, []);
    assert Bodies([p]) == [[]];
    FlattenOne<seq<Byte>>([]);
  }

  /** The producer's appends during a turn do not change what the turn is. */
  lemma TurnIsSpecified(h: seq<Frame>, h1: seq<Frame>, g: seq<Frame>, d: Drain)
    requires h <= h1 <= g && Ready(h, d)
    ensures Base(g, d) == Base(h, d) && Rewinds(g, d) == Rewinds(h, d)
    ensures Batch(g, d) == Collect(h1, Base(h, d), Base(h, d) + FRAMES_PER_CHUNK, Rewinds(h, d))
    ensures Indexed(h1, Batch(g, d)) && BatchItems(g, d) == ItemsOf(h1, Batch(g, d))
    ensures g[Base(g, d)] == h1[Base(h, d)]
  {
    BatchPrefix(h, g, d);
    BatchPrefix(h, h1, d);
    CollectIncreasing(h1, Base(h, d), Base(h, d) + FRAMES_PER_CHUNK, Rewinds(h, d));
    CollectIncreasing(g, Base(g, d), Base(g, d) + FRAMES_PER_CHUNK, Rewinds(g, d));
  }

  /** One entry of the batch under construction: a pointer into the ring and the tag of
      its would-be header. The C code keeps these in arrays of ten. */
  datatype Entry = Entry(f: RingFrame, vad: VadState)

  /** The pointer stands for frame i of the history. */
  ghost predicate Points(h: seq<Frame>, i: nat, f: RingFrame)
    requires i < |h|
  {
    && f.slot == i % RING_FRAMES && f.len as int == |h[i].data|
    && f.relTs == h[i].relTs && f.vad == h[i].vad
  }

  ghost predicate Gathered(h: seq<Frame>, log: seq<Tagged>, batch: seq<Entry>) {
    && |batch| == |log| && Indexed(h, log)
    && forall k :: 0 <= k < |log| ==>
         batch[k].vad == log[k].vad && batch[k].f.slot == log[k].index % RING_FRAMES
         && batch[k].f.len as int == |h[log[k].index].data| && batch[k].f.relTs == h[log[k].index].relTs
  }

  lemma GatherNone(h: seq<Frame>, lo: nat, prerolled: bool)
    requires lo <= |h|
    ensures Gathered(h, Collect(h, lo, lo, prerolled), [])
  {
  }

  lemma GatherOne(h: seq<Frame>, lo: nat, hi: nat, prerolled: bool, batch: seq<Entry>, f: RingFrame)
    requires lo <= hi < |h| && Points(h, hi, f)
    requires Gathered(h, Collect(h, lo, hi, prerolled), batch)
    ensures Gathered(h, Collect(h, lo, hi + 1, prerolled),
                     if f.vad == GapMarker || f.len == 0 then batch
                     else batch + [Entry(f, if prerolled && hi - lo < VAD_PREROLL_FRAMES then Preroll else f.vad)])
  {
  }

  /** `Fit`, as the index the packing loop stops at. */
  ghost function FitEnd(items: seq<Item>, i: nat, used: nat, budget: nat): nat
    requires i <= |items|
    decreases |items| - i
  {
    if i == |items| || used + Cost(items[i]) > budget then i else FitEnd(items, i + 1, used + Cost(items[i]), budget)
  }

  lemma {:induction false} FitEndIs(items: seq<Item>, i: nat, used: nat, budget: nat)
    requires i <= |items|
    ensures FitEnd(items, i, used, budget) == i + Fit(items[i..], used, budget)
    decreases |items| - i
  {
    if i < |items| && used + Cost(items[i]) <= budget {
      FitEndIs(items, i + 1, used + Cost(items[i]), budget);
      assert items[i..][1..] == items[i + 1..];
    }
  }

  /** The pointers' lengths are those of the items they stand for. */
  ghost predicate SameLengths(items: seq<Item>, batch: seq<Entry>) {
    && |batch| == |items|
    && forall k :: 0 <= k < |items| ==> |items[k].data| == batch[k].f.len as int
  }

  /** The greedy count, against the items the pointers stand for. */
  method CountFitting(batch: seq<Entry>, start: nat, budget: nat, ghost items: seq<Item>) returns (end: nat)
    requires start <= |batch|
    ensures start <= end <= |batch|
    ensures SameLengths(items, batch) ==> end == start + Fit(items[start..], 0, budget)
  {
    end := start;
    var used: nat := 0;
    ghost var same := SameLengths(items, batch);
    while end < |batch| && used + 1 + batch[end].f.len as int <= budget
      invariant start <= end <= |batch|
      invariant same ==> FitEnd(items, start, 0, budget) == FitEnd(items, end, used, budget)
    {
      used := used + 1 + batch[end].f.len as int;
      end := end + 1;
    }
    if same { FitEndIs(items, start, 0, budget); }
  }

  /** The packing loop's progress: the packets sent for the first i items, and those to
      come, make up the batch. */
  ghost predicate Planned(items: seq<Item>, i: nat, budget: nat, seq0: Uint32, sent: seq<Packet>, chunkSeq: Uint32) {
    && i <= |items|
    && chunkSeq == SeqAt(seq0, |sent|)
    && LivePackets(items, budget, seq0) == sent + LivePackets(items[i..], budget, chunkSeq)
  }

  ghost predicate Offered(sent: seq<Packet>, before: seq<seq<Byte>>, now: seq<seq<Byte>>) {
    && (forall j :: 0 <= j < |sent| ==> FramesFit(sent[j].frames))
    && now == before + Wires(sent)
  }

  /** Exactly these packets were offered to the link, one sequence number each. */
  ghost predicate Sent(ps: seq<Packet>, seq0: Uint32, before: seq<seq<Byte>>, chunkSeq: Uint32, now: seq<seq<Byte>>) {
    chunkSeq == SeqAt(seq0, |ps|) && Offered(ps, before, now)
  }

  /** The chunk_seq field of a packet's bytes. */
  function SeqOf(wire: seq<Byte>): int { if |wire| < 5 then -1 else FromLe32(wire[1..5]) }

  /** Whatever was offered since carries consecutive sequence numbers, and the counter
      stands after them. */
  ghost predicate Numbered(before: seq<seq<Byte>>, now: seq<seq<Byte>>, seq0: Uint32, chunkSeq: Uint32) {
    && |before| <= |now| && (forall j :: 0 <= j < |before| ==> now[j] == before[j])
    && chunkSeq == SeqAt(seq0, |now| - |before|)
    && forall j :: |before| <= j < |now| ==> SeqOf(now[j]) == SeqAt(seq0, j - |before|)
  }

  lemma SeqOfBytes(ptype: Byte, chunkSeq: Uint32, relTs: Uint32, vad: Byte, flags: Byte, frames: seq<seq<Byte>>)
    requires FramesFit(frames)
    ensures SeqOf(Bytes(ptype, chunkSeq, relTs, vad, flags, frames)) == chunkSeq
  {
    var wire := Bytes(ptype, chunkSeq, relTs, vad, flags, frames);
    assert wire[1..5] == Le32(chunkSeq);
    Le32RoundTrip(chunkSeq);
  }

  lemma NumberedNone(offered: seq<seq<Byte>>, seq0: Uint32)
    ensures Numbered(offered, offered, seq0, seq0)
  {
  }

  lemma NumberedOne(before: seq<seq<Byte>>, now: seq<seq<Byte>>, wire: seq<Byte>, seq0: Uint32, chunkSeq: Uint32)
    requires Numbered(before, now, seq0, chunkSeq) && SeqOf(wire) == chunkSeq
    ensures Numbered(before, now + [wire], seq0, NextSeq(chunkSeq))
  {
    hide SeqOf;
  }

  /** Turns and replays in any sequence number their packets in one unbroken count. */
  lemma NumberedJoins(a: seq<seq<Byte>>, b: seq<seq<Byte>>, c: seq<seq<Byte>>, seq0: Uint32, seq1: Uint32, seq2: Uint32)
    requires Numbered(a, b, seq0, seq1) && Numbered(b, c, seq1, seq2)
    ensures Numbered(a, c, seq0, seq2)
  {
    hide SeqOf, SeqAt;
    SeqAtAdds(seq0, |b| - |a|, |c| - |b|);
    forall j | |a| <= j < |c| ensures SeqOf(c[j]) == SeqAt(seq0, j - |a|) {
      if j < |b| {
        assert c[j] == b[j];
      } else {
        SeqAtAdds(seq0, |b| - |a|, j - |b|);
      }
    }
  }

  lemma PlanStart(items: seq<Item>, budget: nat, seq0: Uint32, offered0: seq<seq<Byte>>)
    ensures Planned(items, 0, budget, seq0, [], seq0) && Offered([], offered0, offered0)
  {
    SeqAtAdds(seq0, 0, 0);
    assert items[0..] == items;
    assert [] + LivePackets(items, budget, seq0) == LivePackets(items, budget, seq0);
    assert offered0 + [] == offered0;
  }

  lemma GatheredLengths(h: seq<Frame>, log: seq<Tagged>, batch: seq<Entry>)
    requires Indexed(h, log)
    ensures Gathered(h, log, batch) ==> |log| == |batch| && SameLengths(ItemsOf(h, log), batch)
  {
  }

  /** The bytes written for entries start..end are their packet's wire form. */
  lemma GroupBytes(h: seq<Frame>, log: seq<Tagged>, batch: seq<Entry>, start: nat, end: nat, datas: seq<seq<Byte>>,
                   chunkSeq: Uint32)
    requires Gathered(h, log, batch) && start < end <= |batch| <= FRAMES_PER_CHUNK && EachFits(datas)
    requires datas == Datas(ItemsOf(h, log)[start..end])
    ensures var p := PacketOf(PacketType.Live, ItemsOf(h, log)[start..end], chunkSeq, 0);
      FramesFit(p.frames) &&
      Wire(p) == Bytes(TypeCode(PacketType.Live), chunkSeq, batch[start].f.relTs, VadCode(batch[start].vad), 0, datas)
  {
    var group := ItemsOf(h, log)[start..end];
    assert group[0] == ItemsOf(h, log)[start];
    MirrorsEncode(PacketOf(PacketType.Live, group, chunkSeq, 0));
  }

  lemma PlanOneMore(items: seq<Item>, start: nat, i: nat, budget: nat, seq0: Uint32, sent: seq<Packet>, p: Packet,
                    chunkSeq: Uint32)
    requires Planned(items, start, budget, seq0, sent, chunkSeq) && start < i <= |items|
    requires i == start + Fit(items[start..], 0, budget)
    requires p == PacketOf(PacketType.Live, items[start..i], chunkSeq, 0)
    ensures Planned(items, i, budget, seq0, sent + [p], NextSeq(chunkSeq))
  {
    hide LivePackets, Fit, PacketOf, SeqAt;
    LiveStep(items, start, i, budget, chunkSeq);
    SeqAtAdds(seq0, |sent|, 1);
    Associates(sent, [p], LivePackets(items[i..], budget, NextSeq(chunkSeq)));
  }

  lemma PlanSkip(items: seq<Item>, start: nat, budget: nat, seq0: Uint32, sent: seq<Packet>, chunkSeq: Uint32)
    requires Planned(items, start, budget, seq0, sent, chunkSeq) && start < |items|
    requires Fit(items[start..], 0, budget) == 0
    ensures Planned(items, start + 1, budget, seq0, sent, chunkSeq)
  {
    LiveStep(items, start, start, budget, chunkSeq);
  }

  lemma PlanDone(items: seq<Item>, budget: nat, seq0: Uint32, sent: seq<Packet>, chunkSeq: Uint32)
    ensures Planned(items, |items|, budget, seq0, sent, chunkSeq) ==>
      sent == LivePackets(items, budget, seq0) && chunkSeq == SeqAt(seq0, |sent|)
  {
    assert items[|items|..] == [];
    assert sent + [] == sent;
  }

  lemma EmptyOffered(chunkSeq: Uint32, relTs: Uint32, before: seq<seq<Byte>>)
    ensures Offered([EmptyPacket(PacketType.Live, chunkSeq, relTs, 0)], before,
                    before + [Bytes(TypeCode(PacketType.Live), chunkSeq, relTs, VadCode(GapMarker), 0, [])])
  {
    var p := EmptyPacket(PacketType.Live, chunkSeq, relTs, 0);
    OfferOneMore([], p, before, before);
    assert [] + [p] == [p];
  }

  lemma OfferOneMore(sent: seq<Packet>, p: Packet, before: seq<seq<Byte>>, now: seq<seq<Byte>>)
    requires Offered(sent, before, now) || (sent == [] && now == before)
    requires FramesFit(p.frames)
    ensures Offered(sent + [p], before, now + [Wire(p)])
  {
    assert Wires(sent + [p]) == Wires(sent) + [Wire(p)];
  }

  /** The packets of the ten frames from lo. */
  ghost function ChunkPackets(h: seq<Frame>, lo: nat, prerolled: bool, mtu: nat, chunkSeq: Uint32): seq<Packet>
    requires lo + FRAMES_PER_CHUNK <= |h|
  {
    CollectIncreasing(h, lo, lo + FRAMES_PER_CHUNK, prerolled);
    var items := ItemsOf(h, Collect(h, lo, lo + FRAMES_PER_CHUNK, prerolled));
    if items == [] then [EmptyPacket(PacketType.Live, chunkSeq, h[lo].relTs, 0)]
    else LivePackets(items, Budget(mtu), chunkSeq)
  }

  /** A turn is its chunk's packets and last tag, whatever was appended meanwhile. */
  lemma FinishTurn(h: seq<Frame>, h1: seq<Frame>, g: seq<Frame>, d: Drain, mtu: nat, chunkSeq: Uint32)
    requires h <= h1 <= g && Ready(h, d)
    ensures Ready(g, d) && Base(g, d) == Base(h, d) && Base(h, d) + FRAMES_PER_CHUNK <= |h1|
    ensures After(g, d).inSpeech ==
      EndsInSpeech(Collect(h1, Base(h, d), Base(h, d) + FRAMES_PER_CHUNK, Rewinds(h, d)))
    ensures BatchPackets(g, d, mtu, chunkSeq) == ChunkPackets(h1, Base(h, d), Rewinds(h, d), mtu, chunkSeq)
  {
    TurnIsSpecified(h, h1, g, d);
  }

  lemma LiveStep(items: seq<Item>, i: nat, end: nat, budget: nat, chunkSeq: Uint32)
    requires i < |items| && end == i + Fit(items[i..], 0, budget)
    ensures LivePackets(items[i..], budget, chunkSeq) ==
      if end == i then LivePackets(items[i + 1..], budget, chunkSeq)
      else
        [PacketOf(PacketType.Live, items[i..end], chunkSeq, 0)] +
        LivePackets(items[end..], budget, NextSeq(chunkSeq))
  {
    assert items[i..][1..] == items[i + 1..];
    assert items[i..][..end - i] == items[i..end];
    assert items[i..][end - i..] == items[end..];
  }

  lemma {:induction false} BodyLengthBound(datas: seq<seq<Byte>>)
    requires EachFits(datas)
    ensures BodyLength(datas) <= |datas| * 0x100
  {
    if datas != [] { BodyLengthBound(datas[..|datas| - 1]); }
  }

  /** The frame a rewind would go back to has left the ring. */
  predicate PrerollLost(h: seq<Frame>, cursor: nat) { |h| > RewindTo(cursor) + RING_FRAMES }

  class Drainer {
    const ring: Ring
    const link: Link
    const pkt: array<Byte>
    /** The producer's encoder writes nothing shorter; 0 says nothing of it. */
    const shortest: nat
    var cursor: nat
    var chunkSeq: Uint32
    var inSpeech: bool

    ghost predicate RingOk()
      reads ring.Repr()
    {
      ring.Valid() && Clean(ring.history) && NoneShorter(ring.history, shortest)
    }

    ghost predicate Valid()
      reads this, ring.Repr(), link
    {
      && RingOk() && link.Valid()
      && pkt.Length == PACKET_BUF_CAP && pkt !in ring.Repr()
      && cursor <= |ring.history|
    }

    lemma RingIs()
      requires Valid()
      ensures ring.writeIndex == |ring.history| && Clean(ring.history) && NoneShorter(ring.history, shortest)
    {
    }

    lemma LinkIs()
      requires Valid()
      ensures Subsequence(link.delivered, link.offered)
    {
    }

    constructor (ring: Ring, link: Link, shortest: nat)
      requires ring.Valid() && Clean(ring.history) && NoneShorter(ring.history, shortest) && link.Valid()
      ensures Valid() && this.ring == ring && this.link == link && this.shortest == shortest && fresh(pkt)
      ensures Drain(cursor, inSpeech) == Init && chunkSeq == 0
    {
      this.ring, this.link, this.shortest := ring, link, shortest;
      pkt := new Byte[PACKET_BUF_CAP](_ => 0);
      cursor, chunkSeq, inSpeech := 0, 0, false;
    }

    /** Overtaken by the producer, the drainer passes over ten frames with one empty packet
        of time 0. */
    ghost predicate Skipped(cursor0: nat, seq0: Uint32, offered0: seq<seq<Byte>>)
      reads this, link
    {
      && cursor == cursor0 + FRAMES_PER_CHUNK && !inSpeech
      && Sent([EmptyPacket(PacketType.Live, seq0, 0, 0)], seq0, offered0, chunkSeq, link.offered)
    }

    lemma SkippedIs(cursor0: nat, seq0: Uint32, offered0: seq<seq<Byte>>)
      requires Skipped(cursor0, seq0, offered0)
      ensures cursor == cursor0 + 10 && !inSpeech && chunkSeq == (seq0 + 1) % 0x1_0000_0000
      ensures link.offered == offered0 + [Wire(Packet(1, PacketType.Live, seq0, 0, GapMarker, 0, []))]
    {
      assert Wires([EmptyPacket(PacketType.Live, seq0, 0, 0)]) == [Wire(EmptyPacket(PacketType.Live, seq0, 0, 0))];
      hide Wire;
    }

    /** The drainer has made the specified turn from d: its state, and exactly its packets. */
    ghost predicate Followed(d: Drain, mtu: nat, seq0: Uint32, offered0: seq<seq<Byte>>)
      reads this, ring, link
    {
      var h := ring.history;
      && Ready(h, d) && Drain(cursor, inSpeech) == After(h, d)
      && Sent(BatchPackets(h, d, mtu, seq0), seq0, offered0, chunkSeq, link.offered)
    }

    /** One turn. If the batch's first frame is still in the ring when the turn ends (no
        overrun), the turn is exactly the one specified over the history, whatever the
        producer did meanwhile. If only the preroll is lost, it is the turn of a drainer
        already in speech, which does not rewind. In any case the cursor moves on from
        where it was or from the preroll's start, and sequence numbers have no gap. */
    method Turn(mtu: nat) returns (ran: bool)
      requires Valid()
      modifies this, ring.Repr(), link, pkt
      ensures Valid() && old(ring.history) <= ring.history
      ensures !ran ==> cursor == old(cursor) && inSpeech == old(inSpeech) && chunkSeq == old(chunkSeq)
      ensures !ran ==> link.offered == old(link.offered)
      ensures Ready(old(ring.history), old(Drain(cursor, inSpeech))) ==> ran
      ensures ran ==> Ready(ring.history, old(Drain(cursor, inSpeech)))
      ensures Numbered(old(link.offered), link.offered, old(chunkSeq), chunkSeq)
      ensures ran ==> cursor in {old(cursor) + FRAMES_PER_CHUNK, RewindTo(old(cursor)) + FRAMES_PER_CHUNK}
      ensures ran && old(|ring.history|) > old(cursor) + RING_FRAMES ==>
        Skipped(old(cursor), old(chunkSeq), old(link.offered))
      ensures ran && old(|ring.history|) > RewindTo(old(cursor)) + 3000 && InWindow(old(cursor), |ring.history|) ==>
        Followed(Drain(old(cursor), true), mtu, old(chunkSeq), old(link.offered))
      ensures ran && InWindow(Base(ring.history, old(Drain(cursor, inSpeech))), |ring.history|) ==>
        Followed(old(Drain(cursor, inSpeech)), mtu, old(chunkSeq), old(link.offered))
    {
      NumberedNone(link.offered, chunkSeq);
      var _ := Preempt(ring, shortest);
      var available := ring.writeIndex - cursor;
      if available < FRAMES_PER_CHUNK {
        return false;
      }
      ran := true;
      ghost var d, h := Drain(cursor, inSpeech), ring.history;
      RunBatch(mtu);
      BatchPrefix(h, ring.history, d);
    }

    /** The rest of a turn, a chunk being available. */
    method RunBatch(mtu: nat)
      requires Valid() && Ready(ring.history, Drain(cursor, inSpeech))
      modifies this, ring.Repr(), link, pkt
      ensures Valid() && old(ring.history) <= ring.history
      ensures Numbered(old(link.offered), link.offered, old(chunkSeq), chunkSeq)
      ensures cursor in {old(cursor) + FRAMES_PER_CHUNK, RewindTo(old(cursor)) + FRAMES_PER_CHUNK}
      ensures old(|ring.history|) > old(cursor) + RING_FRAMES ==> Skipped(old(cursor), old(chunkSeq), old(link.offered))
      ensures PrerollLost(old(ring.history), old(cursor)) && InWindow(old(cursor), |ring.history|) ==>
        Followed(Drain(old(cursor), true), mtu, old(chunkSeq), old(link.offered))
      ensures InWindow(Base(old(ring.history), old(Drain(cursor, inSpeech))), |ring.history|) ==>
        Followed(old(Drain(cursor, inSpeech)), mtu, old(chunkSeq), old(link.offered))
    {
      hide Ring.Valid, Clean, NoneShorter, Collect, Sent, BatchPackets, ChunkPackets, Numbered;
      ghost var d, h, seq0 := Drain(cursor, inSpeech), ring.history, chunkSeq;
      var prerolled := Rewind();
      // A rewind only adds frames, so the second availability test of the C code holds.
      assert ring.writeIndex - cursor >= FRAMES_PER_CHUNK;
      ghost var h1 := ring.history;
      RunChunk(mtu, prerolled);
      FinishTurn(h, h1, ring.history, d, mtu, seq0);
      FinishTurn(h, h1, ring.history, Drain(d.cursor, true), mtu, seq0);
    }

    /** Collects, packs and sends the ten frames from the cursor. */
    method RunChunk(mtu: nat, prerolled: bool)
      requires Valid() && cursor + FRAMES_PER_CHUNK <= |ring.history|
      modifies this, ring.Repr(), link, pkt
      ensures Valid() && old(ring.history) <= ring.history && cursor == old(cursor) + FRAMES_PER_CHUNK
      ensures Numbered(old(link.offered), link.offered, old(chunkSeq), chunkSeq)
      ensures !InWindow(old(cursor), old(|ring.history|)) ==> Skipped(old(cursor), old(chunkSeq), old(link.offered))
      ensures InWindow(old(cursor), |ring.history|) ==>
        var h, lo := old(ring.history), old(cursor);
        && inSpeech == EndsInSpeech(Collect(h, lo, lo + FRAMES_PER_CHUNK, prerolled))
        && Sent(ChunkPackets(h, lo, prerolled, mtu, old(chunkSeq)), old(chunkSeq), old(link.offered), chunkSeq,
                link.offered)
    {
      hide Ring.Valid, Clean, NoneShorter, LivePackets, Collect, Sent, Numbered;
      ghost var h := ring.history;
      ghost var log := Collect(h, cursor, cursor + FRAMES_PER_CHUNK, prerolled);
      CollectIncreasing(h, cursor, cursor + FRAMES_PER_CHUNK, prerolled);
      var batch, firstRelTs := CollectBatch(prerolled);
      SendBatch(mtu, batch, firstRelTs, h, log);
      cursor := cursor + FRAMES_PER_CHUNK;
      inSpeech := batch != [] && SpeechTag(batch[|batch| - 1].vad);
    }

    /** Back to the preroll base when the batch opens with speech, if the ring still has
        it. */
    method Rewind() returns (prerolled: bool)
      requires Valid() && Ready(ring.history, Drain(cursor, inSpeech))
      modifies `cursor, ring.Repr()
      ensures Valid() && old(ring.history) <= ring.history && cursor <= old(cursor)
      ensures ring.writeIndex == |ring.history|
      ensures cursor == old(cursor) || cursor == RewindTo(old(cursor))
      ensures old(|ring.history|) > RewindTo(old(cursor)) + RING_FRAMES ==> cursor == old(cursor) && !prerolled
      ensures var h, d := old(ring.history), old(Drain(cursor, inSpeech));
        InWindow(Base(h, d), |ring.history|) ==> cursor == Base(h, d) && prerolled == Rewinds(h, d)
    {
      prerolled := false;
      if !inSpeech {
        ghost var h := ring.history;
        var ok, head := Read(h, cursor);
        if ok && SpeechTag(head.vad) {
          var rewindTo := if cursor >= VAD_PREROLL_FRAMES then cursor - VAD_PREROLL_FRAMES else 0;
          var okThere, check := Read(h, rewindTo);
          if okThere && cursor - rewindTo > 0 {
            cursor := rewindTo;
            prerolled := true;
          }
        }
      }
    }

    /** A ring read, after the producer ran for a while. */
    method Read(ghost h: seq<Frame>, idx: nat) returns (ok: bool, f: RingFrame)
      requires RingOk() && h <= ring.history && idx < |h|
      modifies ring.Repr()
      ensures RingOk() && old(ring.history) <= ring.history
      ensures ok <==> InWindow(idx, |ring.history|)
      ensures ok ==> Points(h, idx, f)
    {
      var _ := Preempt(ring, shortest);
      ok, f := ring.Get(idx);
    }

    /** The batch's audible frames, as pointers into the ring with their header fields. */
    method CollectBatch(prerolled: bool) returns (batch: seq<Entry>, firstRelTs: Uint32)
      requires RingOk() && cursor + FRAMES_PER_CHUNK <= |ring.history|
      modifies ring.Repr()
      ensures RingOk() && old(ring.history) <= ring.history
      ensures |batch| <= FRAMES_PER_CHUNK && forall k :: 0 <= k < |batch| ==> batch[k].f.slot < RING_FRAMES
      ensures !InWindow(cursor, old(|ring.history|)) ==> batch == [] && firstRelTs == 0
      ensures InWindow(cursor, |ring.history|) ==>
        && firstRelTs == old(ring.history[cursor].relTs)
        && Gathered(old(ring.history), Collect(old(ring.history), cursor, cursor + FRAMES_PER_CHUNK, prerolled), batch)
    {
      hide Ring.Valid, Clean, NoneShorter, Collect, Gathered;
      ghost var h := ring.history;
      batch, firstRelTs := [], 0;
      GatherNone(h, cursor, prerolled);
      for i := 0 to FRAMES_PER_CHUNK
        invariant RingOk() && h <= ring.history && |batch| <= i
        invariant !InWindow(cursor, |h|) ==> i == 0 && batch == [] && firstRelTs == 0
        invariant forall k :: 0 <= k < |batch| ==> batch[k].f.slot < RING_FRAMES
        invariant InWindow(cursor, |ring.history|) && 0 < i ==> firstRelTs == h[cursor].relTs
        invariant InWindow(cursor, |ring.history|) ==> Gathered(h, Collect(h, cursor, cursor + i, prerolled), batch)
      {
        var idx := cursor + i;
        var ok, f := Read(h, idx);
        if !ok {
          break;
        }
        if InWindow(cursor, |ring.history|) {
          GatherOne(h, cursor, idx, prerolled, batch, f);
        }
        if i == 0 {
          firstRelTs := f.relTs;
        }
        if f.vad == GapMarker || f.len == 0 {
          continue;
        }
        batch := batch + [Entry(f, if prerolled && idx - cursor < VAD_PREROLL_FRAMES then Preroll else f.vad)];
      }
    }

    /** The packets of a gathered batch. */
    method SendBatch(mtu: nat, batch: seq<Entry>, firstRelTs: Uint32, ghost h: seq<Frame>, ghost log: seq<Tagged>)
      requires Valid() && h <= ring.history
      requires |batch| <= FRAMES_PER_CHUNK && forall k :: 0 <= k < |batch| ==> batch[k].f.slot < RING_FRAMES
      requires cursor < |h| && Indexed(h, log) && forall k :: 0 <= k < |log| ==> cursor <= log[k].index
      requires InWindow(cursor, |ring.history|) ==> Gathered(h, log, batch)
      modifies `chunkSeq, ring.Repr(), link, pkt
      ensures Valid() && old(ring.history) <= ring.history
      ensures Numbered(old(link.offered), link.offered, old(chunkSeq), chunkSeq)
      ensures batch == [] || InWindow(cursor, |ring.history|) ==>
        var ps := if batch == [] then [EmptyPacket(PacketType.Live, old(chunkSeq), firstRelTs, 0)]
                  else LivePackets(ItemsOf(h, log), Budget(mtu), old(chunkSeq));
        Sent(ps, old(chunkSeq), old(link.offered), chunkSeq, link.offered)
    {
      if batch == [] {
        EmptyOffered(chunkSeq, firstRelTs, link.offered);
        SendPacket(firstRelTs, VadCode(GapMarker), []);
      } else {
        SendFrames(mtu, batch, h, log);
      }
    }

    /** Packs the batch into MTU-sized packets, advancing chunk_seq with each. */
    method SendFrames(mtu: nat, batch: seq<Entry>, ghost h: seq<Frame>, ghost log: seq<Tagged>)
      requires Valid() && h <= ring.history
      requires |batch| <= FRAMES_PER_CHUNK && forall k :: 0 <= k < |batch| ==> batch[k].f.slot < RING_FRAMES
      requires cursor < |h| && Indexed(h, log) && forall k :: 0 <= k < |log| ==> cursor <= log[k].index
      requires InWindow(cursor, |ring.history|) ==> Gathered(h, log, batch)
      modifies `chunkSeq, ring.Repr(), link, pkt
      ensures Valid() && old(ring.history) <= ring.history
      ensures InWindow(cursor, |ring.history|) ==>
        var ps := LivePackets(ItemsOf(h, log), Budget(mtu), old(chunkSeq));
        Sent(ps, old(chunkSeq), old(link.offered), chunkSeq, link.offered)
      ensures Numbered(old(link.offered), link.offered, old(chunkSeq), chunkSeq)
    {
      hide Ring.Valid, Clean, NoneShorter, LivePackets, Fit, Offered, Planned, Gathered, SameLengths, Numbered;
      ghost var items, seq0, offered0 := ItemsOf(h, log), chunkSeq, link.offered;
      ghost var sent: seq<Packet> := [];
      var budget := Budget(mtu);
      var i := 0;
      ghost var inTime := InWindow(cursor, |ring.history|);
      PlanStart(items, budget, seq0, offered0);
      NumberedNone(offered0, seq0);
      GatheredLengths(h, log, batch);
      while i < |batch|
        invariant i <= |batch| && Valid() && old(ring.history) <= ring.history
        invariant InWindow(cursor, |ring.history|) ==> inTime
        invariant Numbered(offered0, link.offered, seq0, chunkSeq)
        invariant InWindow(cursor, |ring.history|) ==> Planned(items, i, budget, seq0, sent, chunkSeq)
        invariant InWindow(cursor, |ring.history|) ==> Offered(sent, offered0, link.offered)
        decreases |batch| - i
      {
        var start := i;
        i := CountFitting(batch, start, budget, items);
        if i == start {
          if InWindow(cursor, |ring.history|) { PlanSkip(items, start, budget, seq0, sent, chunkSeq); }
          i := i + 1;
          continue;
        }
        ghost var p := if inTime then PacketOf(PacketType.Live, items[start..i], chunkSeq, 0)
                       else EmptyPacket(PacketType.Live, chunkSeq, 0, 0);
        ghost var seqBefore, offeredBefore := chunkSeq, link.offered;
        SendGroup(batch, start, i, h, log);
        NumberedJoins(offered0, offeredBefore, link.offered, seq0, seqBefore, chunkSeq);
        if InWindow(cursor, |ring.history|) {
          PlanOneMore(items, start, i, budget, seq0, sent, p, seqBefore);
          OfferOneMore(sent, p, offered0, offeredBefore);
          sent := sent + [p];
        }
      }
      if inTime { PlanDone(items, budget, seq0, sent, chunkSeq); }
    }

    /** One packet of the batch. Its frames are read through their ring pointers only now. */
    method SendGroup(batch: seq<Entry>, start: nat, end: nat, ghost h: seq<Frame>, ghost log: seq<Tagged>)
      requires Valid() && h <= ring.history && start < end <= |batch|
      requires |batch| <= FRAMES_PER_CHUNK && forall k :: 0 <= k < |batch| ==> batch[k].f.slot < RING_FRAMES
      requires cursor < |h| && Indexed(h, log) && forall k :: 0 <= k < |log| ==> cursor <= log[k].index
      requires InWindow(cursor, |ring.history|) ==> Gathered(h, log, batch)
      modifies `chunkSeq, ring.Repr(), link, pkt
      ensures Valid() && old(ring.history) <= ring.history
      ensures chunkSeq == NextSeq(old(chunkSeq)) && Numbered(old(link.offered), link.offered, old(chunkSeq), chunkSeq)
      ensures InWindow(cursor, |ring.history|) && |log| == |batch| ==>
        var p := PacketOf(PacketType.Live, ItemsOf(h, log)[start..end], old(chunkSeq), 0);
        FramesFit(p.frames) && link.offered == old(link.offered) + [Wire(p)]
    {
      var _ := Preempt(ring, shortest);
      var datas := Pointees(batch[start..end]);
      if InWindow(cursor, |ring.history|) {
        PointeesAre(h, log, batch, start, end, datas);
        GroupBytes(h, log, batch, start, end, datas, chunkSeq);
      }
      SendPacket(batch[start].f.relTs, VadCode(batch[start].vad), datas);
    }

    /** What the pointers read now. */
    method Pointees(entries: seq<Entry>) returns (datas: seq<seq<Byte>>)
      requires ring.Shaped() && forall k :: 0 <= k < |entries| ==> entries[k].f.slot < RING_FRAMES
      ensures |datas| == |entries| && EachFits(datas)
      ensures forall k :: 0 <= k < |entries| ==> datas[k] == ring.Deref(entries[k].f.slot, entries[k].f.len)
    {
      datas := [];
      for k := 0 to |entries|
        invariant |datas| == k && EachFits(datas)
        invariant forall m :: 0 <= m < k ==> datas[m] == ring.Deref(entries[m].f.slot, entries[m].f.len)
      {
        datas := datas + [ring.Deref(entries[k].f.slot, entries[k].f.len)];
      }
    }

    /** While the batch is in the window its pointers still read the recorded frames. */
    lemma PointeesAre(h: seq<Frame>, log: seq<Tagged>, batch: seq<Entry>, lo: nat, hi: nat, datas: seq<seq<Byte>>)
      requires ring.Valid() && h <= ring.history && Gathered(h, log, batch) && lo <= hi <= |batch|
      requires forall k :: 0 <= k < |batch| ==> batch[k].f.slot < RING_FRAMES && InWindow(log[k].index, |ring.history|)
      requires |datas| == hi - lo
      requires forall k :: 0 <= k < hi - lo ==> datas[k] == ring.Deref(batch[lo..hi][k].f.slot, batch[lo..hi][k].f.len)
      ensures datas == Datas(ItemsOf(h, log)[lo..hi])
    {
      forall k | 0 <= k < hi - lo ensures datas[k] == Datas(ItemsOf(h, log)[lo..hi])[k] {
        ring.PointerLasts(log[lo + k].index);
      }
    }

    /** Writes one live packet and hands it to the link. An empty packet is not retried. */
    method SendPacket(relTs: Uint32, vad: Byte, datas: seq<seq<Byte>>)
      requires Valid() && |datas| <= FRAMES_PER_CHUNK && EachFits(datas)
      modifies `chunkSeq, link, pkt
      ensures Valid() && chunkSeq == NextSeq(old(chunkSeq))
      ensures old(link.answers) <= link.answers
      ensures if datas == [] then |link.answers| == |old(link.answers)| + 1
              else Retried(old(link.answers), link.answers)
      ensures link.offered == old(link.offered) +
        [Bytes(TypeCode(PacketType.Live), old(chunkSeq), relTs, vad, 0, datas)]
      ensures Numbered(old(link.offered), link.offered, old(chunkSeq), chunkSeq)
    {
      BodyLengthBound(datas);
      SeqOfBytes(TypeCode(PacketType.Live), chunkSeq, relTs, vad, 0, datas);
      NumberedNone(link.offered, chunkSeq);
      ghost var wire := Bytes(TypeCode(PacketType.Live), chunkSeq, relTs, vad, 0, datas);
      NumberedOne(link.offered, link.offered, wire, chunkSeq, chunkSeq);
      hide Numbered;
      var n := WritePacket(pkt, pkt.Length, TypeCode(PacketType.Live), chunkSeq, relTs, vad, 0, datas);
      // Ten frames always fit the scratch buffer, so the writer never refuses.
      assert n > 0;
      if datas == [] {
        link.SendOnce(pkt[..n]);
      } else {
        link.Send(pkt[..n]);
      }
      chunkSeq := NextSeq(chunkSeq);
    }
  }
}
