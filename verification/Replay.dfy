/** drain_replay of ble_drain.c: the retrospective "remember that" request. The last
    `seconds` of ring frames go out as MEMORY_CHUNK packets while the producer keeps
    overwriting the oldest of them. */
module Replay {
  import opened CTypes
  import opened C6Types
  import opened RingBuffer
  import opened AudioTask
  import opened DrainSpec
  import opened AudioPacket
  import opened C6Packet
  import opened Packing
  import opened Link
  import opened LiveDrain
  import opened ReplaySlots
  import opened Sequences

  const SCRATCH_CAP := PACKET_BUF_CAP - HEADER_LEN

  /** replay_window of executor_core.c: how many of the latest frames are asked for, at
      fifty to the second. */
  function WindowLength(seconds: nat, w: nat): (n: nat)
    ensures n <= w && n <= RING_FRAMES && n <= seconds * 50
    ensures n == w || n == RING_FRAMES || n == seconds * 50
    ensures n <= 3000 && (n < w && n < seconds * 50 ==> n == 3000)
  {
    var want := seconds * 50;
    var n := if want > RING_FRAMES then RING_FRAMES else want;
    if n > w then w else n
  }

  /** The scratch buffer takes a whole budget up to an MTU of 2585, and a further frame
      copied behind it, before its size is checked, up to 2330. */
  lemma ScratchHoldsIff(mtu: nat)
    ensures Budget(mtu) <= SCRATCH_CAP <==> mtu <= 2585
    ensures Budget(mtu) + 0xFF <= SCRATCH_CAP <==> mtu <= 2330
  {
  }

  /** The frames that reach a packet: of the first n in the window, those still in the
      ring when last read (seen[i] frames had been written then), audible, and small
      enough for one notification. */
  ghost function KeptItems(h: seq<Frame>, start: nat, seen: seq<nat>, n: nat, budget: nat): seq<Item>
    requires n <= |seen| && start + n <= |h|
  {
    if n == 0 then []
    else
      var f := h[start + n - 1];
      KeptItems(h, start, seen, n - 1, budget) +
      if InWindow(start + n - 1, seen[n - 1]) && Audible(f) && 1 + |f.data| <= budget
      then [Item(f.relTs, f.vad, f.data)] else []
  }

  lemma {:induction false} KeptExtends(h: seq<Frame>, start: nat, seen: seq<nat>, more: seq<nat>, n: nat, budget: nat)
    requires n <= |seen| && start + n <= |h|
    ensures KeptItems(h, start, seen, n, budget) == KeptItems(h, start, seen + more, n, budget)
  {
    if n > 0 { KeptExtends(h, start, seen, more, n - 1, budget); }
  }

  // ---- The replay itself ----

  /** One frame copied out of the ring: where its bytes lie in the scratch buffer. */
  datatype Copied = Copied(at: nat, len: Byte, vad: VadState, relTs: Uint32)

  /** The scratch buffer holds the frames of a packet under construction. */
  ghost predicate Holds(scratch: array<Byte>, filled: nat, entries: seq<Copied>, group: seq<Item>)
    reads scratch
  {
    && |entries| == |group| && filled <= scratch.Length
    && forall k :: 0 <= k < |group| ==>
         && entries[k].at + entries[k].len as int <= filled
         && scratch[entries[k].at..entries[k].at + entries[k].len as int] == group[k].data
         && entries[k].vad == group[k].vad && entries[k].relTs == group[k].relTs
  }

  /** A replay packet, its frames, and whether it ends the request. */
  ghost predicate SentGroup(p: Packet, group: seq<Item>, chunkSeq: Uint32, last: bool, budget: nat) {
    && p.version == 1 && p.ptype == MemoryChunk && p.chunkSeq == chunkSeq && p.frames == Datas(group)
    && p.flags == (if last then FLAG_LAST_OF_REQ else 0)
    && (if group == [] then p.vad == GapMarker else p.relTs == group[0].relTs && p.vad == group[0].vad)
    && Sendable(group) && |group| <= FRAMES_PER_CHUNK && TotalCost(group) <= budget
  }

  /** Everything sent so far: consecutive sequence numbers, and the end of the request on
      the last packet once it is sent, and on no other. */
  ghost predicate SentGroups(packets: seq<Packet>, groups: seq<seq<Item>>, seq0: Uint32, finished: bool, budget: nat) {
    && |packets| == |groups|
    && forall j :: 0 <= j < |packets| ==>
         SentGroup(packets[j], groups[j], SeqAt(seq0, j), finished && j == |packets| - 1, budget)
  }

  lemma SentGroupsOneMore(packets: seq<Packet>, groups: seq<seq<Item>>, seq0: Uint32, budget: nat,
                          p: Packet, group: seq<Item>, last: bool)
    requires SentGroups(packets, groups, seq0, false, budget)
    requires SentGroup(p, group, SeqAt(seq0, |packets|), last, budget)
    ensures SentGroups(packets + [p], groups + [group], seq0, last, budget)
  {
    hide SentGroup, SeqAt;
  }

  /** What a finished replay carries, and in which packets. */
  lemma SentCarries(packets: seq<Packet>, groups: seq<seq<Item>>, seq0: Uint32, budget: nat)
    requires SentGroups(packets, groups, seq0, true, budget)
    ensures Carried(packets) == Datas(Flatten(groups))
    ensures forall j :: 0 <= j < |packets| ==>
      && packets[j].ptype == MemoryChunk && packets[j].chunkSeq == SeqAt(seq0, j)
      && (packets[j].flags == FLAG_LAST_OF_REQ <==> j == |packets| - 1)
  {
    assert Matches(packets, groups, MemoryChunk, seq0);
    CarriedIsGroups(packets, groups, MemoryChunk, seq0);
  }

  /** What the server makes of a finished replay. */
  lemma ReplayOnTheWire(packets: seq<Packet>, groups: seq<seq<Item>>, seq0: Uint32, mtu: nat)
    requires SentGroups(packets, groups, seq0, true, Budget(mtu)) && 23 <= mtu
    ensures Carried(packets) == Datas(Flatten(groups))
    ensures forall j :: 0 <= j < |packets| ==>
      && Arrives(packets[j], mtu) && packets[j].chunkSeq == SeqAt(seq0, j)
      && (packets[j].flags == FLAG_LAST_OF_REQ <==> j == |packets| - 1)
  {
    SentCarries(packets, groups, seq0, Budget(mtu));
    forall j | 0 <= j < |packets| ensures Arrives(packets[j], mtu) {
      assert SentGroup(packets[j], groups[j], SeqAt(seq0, j), j == |packets| - 1, Budget(mtu));
      PacketOnTheWire(packets[j], groups[j]);
    }
  }

  /** The inner loop so far: the kept frames up to i are those before this packet and its
      group, which obeys the slot hypothesis. */
  ghost predicate Progress(h: seq<Frame>, start: nat, seen0: seq<nat>, first: nat, seen: seq<nat>, i: nat, budget: nat,
                           group: seq<Item>, w: nat) {
    && start + i <= |h| && |seen| == i && first <= i && |seen0| == first && seen0 <= seen && Growing(seen, |h|, w)
    && KeptItems(h, start, seen, i, budget) == KeptItems(h, start, seen0, first, budget) + group
    && Packetful(h, start, start + i, group, budget)
  }

  /** A group of the audible frames from lo to hi that fits one packet and its ten slots. */
  ghost predicate Packetful(h: seq<Frame>, lo: nat, hi: nat, group: seq<Item>, budget: nat) {
    && Sendable(group) && |group| <= FRAMES_PER_CHUNK && TotalCost(group) <= budget
    && exists at :: Chosen(h, lo, hi, at) && group == ItemsAt(h, at)
  }

  /** By the slot hypothesis a tenth item is the last that fits. */
  lemma SlotFree(h: seq<Frame>, start: nat, i: nat, at: seq<nat>, budget: nat)
    requires Chosen(h, start, i, at) && start <= i < |h| && Audible(h[i]) && ElevenExceed(h, start, budget)
    requires TotalCost(ItemsAt(h, at)) + Cost(ItemAt(h[i])) <= budget && |at| <= FRAMES_PER_CHUNK
    ensures |at| < FRAMES_PER_CHUNK && Chosen(h, start, i + 1, at + [i])
    ensures ItemsAt(h, at + [i]) == ItemsAt(h, at) + [ItemAt(h[i])]
    ensures TotalCost(ItemsAt(h, at + [i])) == TotalCost(ItemsAt(h, at)) + Cost(ItemAt(h[i]))
  {
    ChosenSnoc(h, start, i, at);
    CostJoin(ItemsAt(h, at), ItemAt(h[i]));
    hide TotalCost, Cost;
    assert Chosen(h, start, |h|, at + [i]);
  }

  lemma PacketfulTakes(h: seq<Frame>, start: nat, i: nat, group: seq<Item>, it: Item, budget: nat)
    requires Packetful(h, start, i, group, budget) && TotalCost(group) + Cost(it) <= budget
    requires start <= i < |h| && Audible(h[i]) && it == ItemAt(h[i]) && |it.data| <= 0xFF
    requires ElevenExceed(h, start, budget)
    ensures |group| < FRAMES_PER_CHUNK && Packetful(h, start, i + 1, group + [it], budget)
    ensures TotalCost(group + [it]) == TotalCost(group) + Cost(it)
  {
    var at :| Chosen(h, start, i, at) && group == ItemsAt(h, at);
    hide TotalCost, Cost, ElevenExceed, Chosen;
    SlotFree(h, start, i, at, budget);
    SendableTakes(group, it);
    hide Sendable, ItemsAt;
    assert Chosen(h, start, i + 1, at + [i]);
  }

  lemma SendableTakes(group: seq<Item>, it: Item)
    requires Sendable(group) && |it.data| <= 0xFF
    ensures Sendable(group + [it])
  {
  }

  lemma PacketfulSkips(h: seq<Frame>, start: nat, i: nat, group: seq<Item>, budget: nat)
    requires Packetful(h, start, i, group, budget) && start <= i < |h|
    ensures Packetful(h, start, i + 1, group, budget)
  {
    var at :| Chosen(h, start, i, at) && group == ItemsAt(h, at);
    hide TotalCost;
    assert Chosen(h, start, i + 1, at);
  }

  lemma GrowingTakes(seen: seq<nat>, lo: nat, w: nat)
    requires Growing(seen, lo, w) && lo <= w
    ensures Growing(seen + [w], lo, w)
  {
  }

  lemma ProgressStart(h: seq<Frame>, start: nat, seen0: seq<nat>, first: nat, budget: nat, w: nat)
    requires start + first <= |h| && |seen0| == first && Growing(seen0, |h|, w)
    ensures Progress(h, start, seen0, first, seen0, first, budget, [], w) && TotalCost([]) == 0
  {
    assert KeptItems(h, start, seen0, first, budget) + [] == KeptItems(h, start, seen0, first, budget);
    assert Chosen(h, start, start + first, []) && ItemsAt(h, []) == [];
  }

  /** A later write count does no harm, and what the loop has at its end. */
  lemma ProgressMeans(h: seq<Frame>, start: nat, seen0: seq<nat>, first: nat, seen: seq<nat>, i: nat, budget: nat,
                      group: seq<Item>, v: nat, w: nat)
    requires v <= w && Progress(h, start, seen0, first, seen, i, budget, group, v)
    ensures Progress(h, start, seen0, first, seen, i, budget, group, w)
    ensures |seen| == i && seen0 <= seen && Growing(seen, |h|, w) && Sendable(group)
    ensures |group| <= FRAMES_PER_CHUNK && TotalCost(group) <= budget
    ensures KeptItems(h, start, seen, i, budget) == KeptItems(h, start, seen0, first, budget) + group
  {
  }

  lemma ProgressSkip(h: seq<Frame>, start: nat, seen0: seq<nat>, first: nat, seen: seq<nat>, i: nat, budget: nat,
                     group: seq<Item>, w: nat)
    requires i < |h| - start && |h| <= w
    requires Progress(h, start, seen0, first, seen, i, budget, group, w)
    requires !(InWindow(start + i, w) && Audible(h[start + i]) && 1 + |h[start + i].data| <= budget)
    ensures Progress(h, start, seen0, first, seen + [w], i + 1, budget, group, w)
  {
    hide KeptItems, Packetful, Growing, Progress;
    ProgressParts(h, start, seen0, first, seen, i, budget, group, w);
    KeptSkips(h, start, seen, i, budget, w);
    GrowingTakes(seen, |h|, w);
    PacketfulSkips(h, start, start + i, group, budget);
    ProgressIs(h, start, seen0, first, seen + [w], i + 1, budget, group, w);
  }

  lemma KeptSkips(h: seq<Frame>, start: nat, seen: seq<nat>, i: nat, budget: nat, w: nat)
    requires |seen| == i && start + i < |h|
    requires !(InWindow(start + i, w) && Audible(h[start + i]) && 1 + |h[start + i].data| <= budget)
    ensures KeptItems(h, start, seen + [w], i + 1, budget) == KeptItems(h, start, seen, i, budget)
  {
    KeptExtends(h, start, seen, [w], i, budget);
    NothingAround(KeptItems(h, start, seen, i, budget));
  }

  lemma ProgressTake(h: seq<Frame>, start: nat, seen0: seq<nat>, first: nat, seen: seq<nat>, i: nat, budget: nat,
                     group: seq<Item>, w: nat, it: Item)
    requires i < |h| - start && |h| <= w && Clean(h) && ElevenExceed(h, start, budget)
    requires Progress(h, start, seen0, first, seen, i, budget, group, w)
    requires InWindow(start + i, w) && Audible(h[start + i])
    requires it == ItemAt(h[start + i])
    requires TotalCost(group) + Cost(it) <= budget
    ensures |group| < FRAMES_PER_CHUNK
    ensures Progress(h, start, seen0, first, seen + [w], i + 1, budget, group + [it], w)
  {
    hide KeptItems, TotalCost, Packetful, Growing, Progress, ElevenExceed;
    ProgressParts(h, start, seen0, first, seen, i, budget, group, w);
    assert Produced(h[start + i]);
    PacketfulTakes(h, start, start + i, group, it, budget);
    GrowingTakes(seen, |h|, w);
    KeptTakes(h, start, seen, i, budget, w, it);
    Associates(KeptItems(h, start, seen0, first, budget), group, [it]);
    ProgressIs(h, start, seen0, first, seen + [w], i + 1, budget, group + [it], w);
  }

  lemma ProgressParts(h: seq<Frame>, start: nat, seen0: seq<nat>, first: nat, seen: seq<nat>, i: nat, budget: nat,
                      group: seq<Item>, w: nat)
    requires Progress(h, start, seen0, first, seen, i, budget, group, w)
    ensures start + i <= |h| && |seen| == i && first <= i && |seen0| == first && seen0 <= seen && Growing(seen, |h|, w)
    ensures KeptItems(h, start, seen, i, budget) == KeptItems(h, start, seen0, first, budget) + group
    ensures Packetful(h, start, start + i, group, budget)
  {
    hide KeptItems, Packetful, Growing;
  }

  lemma ProgressIs(h: seq<Frame>, start: nat, seen0: seq<nat>, first: nat, seen: seq<nat>, i: nat, budget: nat,
                   group: seq<Item>, w: nat)
    requires start + i <= |h| && |seen| == i && first <= i && |seen0| == first && seen0 <= seen && Growing(seen, |h|, w)
    requires KeptItems(h, start, seen, i, budget) == KeptItems(h, start, seen0, first, budget) + group
    requires Packetful(h, start, start + i, group, budget)
    ensures Progress(h, start, seen0, first, seen, i, budget, group, w)
  {
    hide KeptItems, Packetful, Growing;
  }

  lemma KeptTakes(h: seq<Frame>, start: nat, seen: seq<nat>, i: nat, budget: nat, w: nat, it: Item)
    requires |seen| == i && start + i < |h| && InWindow(start + i, w) && Audible(h[start + i])
    requires it == ItemAt(h[start + i]) && Cost(it) <= budget
    ensures KeptItems(h, start, seen + [w], i + 1, budget) == KeptItems(h, start, seen, i, budget) + [it]
  {
    KeptExtends(h, start, seen, [w], i, budget);
  }

  /** While nothing is lost, the group is every audible frame read for this packet. */
  ghost predicate Tracked(h: seq<Frame>, start: nat, first: nat, i: nat, seen: seq<nat>, group: seq<Item>) {
    && first <= i && start + i <= |h|
    && (NoLoss(start, seen, first, i) ==> AudibleItems(h, start + first, start + i) == group)
  }

  lemma AudibleIs(f: Frame)
    ensures Audible(f) <==> f.vad != GapMarker && |f.data| != 0
    ensures ItemAt(f).data == f.data && ItemAt(f).vad == f.vad && ItemAt(f).relTs == f.relTs
    ensures Cost(ItemAt(f)) == 1 + |f.data|
  {
  }

  lemma TrackStart(h: seq<Frame>, start: nat, first: nat, seen: seq<nat>)
    requires start + first <= |h|
    ensures Tracked(h, start, first, first, seen, [])
  {
  }

  lemma TrackOne(h: seq<Frame>, start: nat, first: nat, i: nat, seen: seq<nat>, group: seq<Item>, w: nat)
    requires Tracked(h, start, first, i, seen, group) && |seen| == i && start + i < |h|
    ensures InWindow(start + i, w) && Audible(h[start + i]) ==>
      Tracked(h, start, first, i + 1, seen + [w], group + [ItemAt(h[start + i])])
    ensures !(InWindow(start + i, w) && Audible(h[start + i])) ==> Tracked(h, start, first, i + 1, seen + [w], group)
  {
    hide AudibleItems, Audible, InWindow;
    AudibleJoins(h, start + first, start + i, start + i + 1);
    AudibleOne(h, start + i);
    if NoLoss(start, seen + [w], first, i + 1) {
      assert (seen + [w])[i] == w;
      assert forall k :: first <= k < i ==> (seen + [w])[k] == seen[k];
    }
  }

  /** Why the inner loop stopped, if nothing was lost. */
  ghost predicate Reason(h: seq<Frame>, start: nat, n: nat, first: nat, i: nat, budget: nat, seen: seq<nat>,
                         group: seq<Item>) {
    && first < i <= n && start + n <= |h|
    && (NoLoss(start, seen, first, i) ==>
          TookAll(h, start, n, first, i, budget, group) || PassedOver(h, start, n, first, i, budget, group))
  }

  lemma StopsAfter(h: seq<Frame>, start: nat, n: nat, first: nat, i: nat, budget: nat, seen: seq<nat>, group: seq<Item>)
    requires Tracked(h, start, first, i, seen, group) && first < i <= n && start + n <= |h|
    requires TotalCost(group) <= budget
    requires i < n ==> group != [] && Audible(h[start + i]) && TotalCost(group) + Cost(ItemAt(h[start + i])) > budget
    ensures Reason(h, start, n, first, i, budget, seen, group)
  {
  }

  lemma PassesOver(h: seq<Frame>, start: nat, n: nat, first: nat, i: nat, budget: nat, seen: seq<nat>, w: nat)
    requires Tracked(h, start, first, i, seen, []) && |seen| == i && first <= i < n && start + n <= |h|
    requires Audible(h[start + i]) && Cost(ItemAt(h[start + i])) > budget
    ensures Reason(h, start, n, first, i + 1, budget, seen + [w], [])
  {
    if NoLoss(start, seen + [w], first, i + 1) {
      assert forall k :: first <= k < i ==> (seen + [w])[k] == seen[k];
    }
  }

  /** A ring read by copy behind the bytes already gathered, after the producer ran for a
      while. */
  method ReadCopy(d: Drainer, ghost h: seq<Frame>, idx: nat, scratch: array<Byte>, at: nat,
                  ghost entries: seq<Copied>, ghost group: seq<Item>)
    returns (ok: bool, f: RingFrame)
    requires d.Valid() && scratch !in d.ring.Repr() && h <= d.ring.history && idx < |h|
    requires at + 0xFF <= scratch.Length && Holds(scratch, at, entries, group)
    modifies d.ring.Repr(), scratch
    ensures d.Valid() && old(d.ring.history) <= d.ring.history
    ensures Holds(scratch, at, entries, group)
    ensures ok <==> InWindow(idx, |d.ring.history|)
    ensures ok ==> f.relTs == h[idx].relTs && f.vad == h[idx].vad && f.len as int == |h[idx].data|
    ensures ok ==> scratch[at..at + f.len as int] == h[idx].data
  {
    var _ := Preempt(d.ring, d.shortest);
    assert Storable(d.ring.history[idx]);
    ok, f := d.ring.GetCopy(idx, scratch, at);
    forall k | 0 <= k < |group|
      ensures scratch[entries[k].at..entries[k].at + entries[k].len as int] == group[k].data
    {
      assert old(scratch[entries[k].at..entries[k].at + entries[k].len as int]) == group[k].data;
      assert forall j :: entries[k].at <= j < at ==> scratch[j] == old(scratch[j]);
    }
  }

  lemma HoldsNothing(scratch: array<Byte>)
    ensures Holds(scratch, 0, [], [])
  {
  }

  lemma HoldsTakes(scratch: array<Byte>, filled: nat, entries: seq<Copied>, group: seq<Item>, c: Copied, it: Item)
    requires Holds(scratch, filled, entries, group) && c.at == filled && filled + c.len as int <= scratch.Length
    requires scratch[filled..filled + c.len as int] == it.data && c.vad == it.vad && c.relTs == it.relTs
    ensures |entries| == |group| && Holds(scratch, filled + c.len as int, entries + [c], group + [it])
  {
  }

  lemma HoldsMeans(scratch: array<Byte>, filled: nat, entries: seq<Copied>, group: seq<Item>)
    requires Holds(scratch, filled, entries, group)
    ensures |entries| == |group| && Holds(scratch, scratch.Length, entries, group)
  {
  }

  /** The inner loop: copies frames from window position i on until the packet is full,
      the window ends, or a lone frame proves too big. `seen` records how many frames had
      been written at each frame's last read. */
  method FillPacket(d: Drainer, start: nat, n: nat, first: nat, scratch: array<Byte>, budget: nat,
                    ghost h: seq<Frame>, ghost seen0: seq<nat>)
    returns (i: nat, entries: seq<Copied>, firstRelTs: Uint32, ghost group: seq<Item>, ghost seen: seq<nat>)
    requires d.Valid() && scratch !in d.ring.Repr() && h <= d.ring.history && Clean(h)
    requires first < n && start + n <= |h| && |seen0| == first && Growing(seen0, |h|, |d.ring.history|)
    requires budget + 0xFF <= scratch.Length && ElevenExceed(h, start, budget)
    modifies d.ring.Repr(), scratch
    ensures d.Valid() && old(d.ring.history) <= d.ring.history
    ensures first < i <= n && |seen| == i && seen0 <= seen && Growing(seen, |h|, |d.ring.history|)
    ensures KeptItems(h, start, seen, i, budget) == KeptItems(h, start, seen0, first, budget) + group
    ensures Holds(scratch, scratch.Length, entries, group)
    ensures Sendable(group) && |group| <= FRAMES_PER_CHUNK && TotalCost(group) <= budget
    ensures Reason(h, start, n, first, i, budget, seen, group)
  {
    hide *;
    TrackStart(h, start, first, seen0);
    HoldsNothing(scratch);
    i, entries, firstRelTs := first, [], 0;
    group, seen := [], seen0;
    ProgressStart(h, start, seen0, first, budget, |d.ring.history|);
    var used: nat, filled: nat := 0, 0;
    ghost var stopped := false;
    while i < n
      invariant first <= i <= n && d.Valid() && old(d.ring.history) <= d.ring.history
      invariant Progress(h, start, seen0, first, seen, i, budget, group, |d.ring.history|)
      invariant used == TotalCost(group) && filled <= used <= budget
      invariant Holds(scratch, filled, entries, group)
      invariant i > first || entries == []
      invariant !stopped && Tracked(h, start, first, i, seen, group)
      decreases n - i
    {
      var idx := start + i;
      ghost var v := |d.ring.history|;
      var ok, f := ReadCopy(d, h, idx, scratch, filled, entries, group);
      ghost var w := |d.ring.history|;
      ProgressMeans(h, start, seen0, first, seen, i, budget, group, v, w);
      TrackOne(h, start, first, i, seen, group, w);
      AudibleIs(h[idx]);
      if !ok {
        ProgressSkip(h, start, seen0, first, seen, i, budget, group, w);
        seen := seen + [w];
        i := i + 1;
        continue;
      }
      if entries == [] {
        firstRelTs := f.relTs;
      }
      if f.vad == GapMarker || f.len == 0 {
        ProgressSkip(h, start, seen0, first, seen, i, budget, group, w);
        seen := seen + [w];
        i := i + 1;
        continue;
      }
      if used + 1 + f.len as int > budget {
        stopped := true;
        if entries == [] {
          ProgressSkip(h, start, seen0, first, seen, i, budget, group, w);
          PassesOver(h, start, n, first, i, budget, seen, w);
          seen := seen + [w];
          i := i + 1;
        } else {
          StopsAfter(h, start, n, first, i, budget, seen, group);
        }
        break;
      }
      ghost var it := ItemAt(h[idx]);
      ProgressTake(h, start, seen0, first, seen, i, budget, group, w, it);
      CostJoin(group, it);
      HoldsTakes(scratch, filled, entries, group, Copied(filled, f.len, f.vad, f.relTs), it);
      // The C code stores into slot `count` of arrays of ten without a test of its own.
      assert |entries| < FRAMES_PER_CHUNK;
      entries := entries + [Copied(filled, f.len, f.vad, f.relTs)];
      group := group + [it];
      seen := seen + [w];
      used := used + 1 + f.len as int;
      filled := filled + f.len as int;
      i := i + 1;
    }
    ProgressMeans(h, start, seen0, first, seen, i, budget, group, |d.ring.history|, |d.ring.history|);
    HoldsMeans(scratch, filled, entries, group);
    if !stopped { StopsAfter(h, start, n, first, i, budget, seen, group); }
  }

  /** The bytes of the copied frames. */
  method Bodies0(entries: seq<Copied>, scratch: array<Byte>, ghost group: seq<Item>) returns (datas: seq<seq<Byte>>)
    requires Holds(scratch, scratch.Length, entries, group)
    ensures datas == Datas(group)
  {
    datas := [];
    for k := 0 to |entries|
      invariant |datas| == k && forall m :: 0 <= m < k ==> datas[m] == group[m].data
    {
      datas := datas + [scratch[entries[k].at..entries[k].at + entries[k].len as int]];
    }
  }

  /** One MEMORY_CHUNK packet, written and notified without retry. */
  method SendChunk(d: Drainer, relTs: Uint32, vad: VadState, flags: Byte, datas: seq<seq<Byte>>)
    returns (ghost p: Packet)
    requires d.Valid() && |datas| <= FRAMES_PER_CHUNK && EachFits(datas)
    modifies d`chunkSeq, d.link, d.pkt
    ensures d.Valid() && d.chunkSeq == NextSeq(old(d.chunkSeq))
    ensures p == Packet(1, MemoryChunk, old(d.chunkSeq), relTs, vad, flags, datas) && FramesFit(p.frames)
    ensures d.link.offered == old(d.link.offered) + [Wire(p)]
  {
    p := Packet(1, MemoryChunk, d.chunkSeq, relTs, vad, flags, datas);
    BodyLengthBound(datas);
    MirrorsEncode(p);
    var n := WritePacket(d.pkt, d.pkt.Length, TypeCode(MemoryChunk), d.chunkSeq, relTs, VadCode(vad), flags, datas);
    // Ten frames always fit the packet buffer, so the writer never refuses.
    assert n > 0;
    d.link.SendOnce(d.pkt[..n]);
    d.chunkSeq := NextSeq(d.chunkSeq);
  }

  lemma HoldsLengths(scratch: array<Byte>, entries: seq<Copied>, group: seq<Item>)
    requires Holds(scratch, scratch.Length, entries, group)
    ensures |entries| == |group| && forall k :: 0 <= k < |group| ==> |group[k].data| == entries[k].len as int
  {
  }

  lemma FitsWhole(group: seq<Item>, budget: nat)
    requires TotalCost(group) <= budget
    ensures FitEnd(group, 0, 0, budget) == |group|
  {
    FitEndIs(group, 0, 0, budget);
    FitAll(group, 0, budget);
    assert group[0..] == group;
  }

  /** The second packing pass, which takes everything. */
  method PackAgain(entries: seq<Copied>, scratch: array<Byte>, budget: nat, ghost group: seq<Item>) returns (end: nat)
    requires Holds(scratch, scratch.Length, entries, group) && TotalCost(group) <= budget
    ensures end == |entries|
  {
    hide Holds, TotalCost, Fit, FitEnd;
    end := 0;
    var used: nat := 0;
    HoldsLengths(scratch, entries, group);
    FitsWhole(group, budget);
    while end < |entries| && used + 1 + entries[end].len as int <= budget
      invariant end <= |entries|
      invariant FitEnd(group, 0, 0, budget) == FitEnd(group, end, used, budget)
    {
      FitEndStep(group, end, used, budget);
      used := used + 1 + entries[end].len as int;
      end := end + 1;
    }
    FitEndStep(group, end, used, budget);
  }

  lemma FitEndStep(items: seq<Item>, i: nat, used: nat, budget: nat)
    requires i <= |items|
    ensures FitEnd(items, i, used, budget) ==
      if i < |items| && used + 1 + |items[i].data| <= budget
      then FitEnd(items, i + 1, used + 1 + |items[i].data|, budget) else i
  {
  }

  /** Sends what the inner loop gathered. The C code packs it a second time; it always
      fits the one packet it was gathered for. */
  method Ship(d: Drainer, entries: seq<Copied>, firstRelTs: Uint32, last: bool, budget: nat, scratch: array<Byte>,
              ghost group: seq<Item>)
    returns (ghost p: Packet)
    requires d.Valid() && Holds(scratch, scratch.Length, entries, group)
    requires Sendable(group) && |group| <= FRAMES_PER_CHUNK && TotalCost(group) <= budget
    modifies d`chunkSeq, d.link, d.pkt
    ensures d.Valid() && d.chunkSeq == NextSeq(old(d.chunkSeq))
    ensures SentGroup(p, group, old(d.chunkSeq), last, budget) && FramesFit(p.frames)
    ensures d.link.offered == old(d.link.offered) + [Wire(p)]
  {
    var flags := if last then FLAG_LAST_OF_REQ else 0;
    if entries == [] {
      p := SendChunk(d, firstRelTs, GapMarker, flags, []);
    } else {
      var datas := Bodies0(entries, scratch, group);
      var end := PackAgain(entries, scratch, budget, group);
      assert end == |entries|;
      p := SendChunk(d, entries[0].relTs, entries[0].vad, flags, datas);
    }
  }

  /** The outer loop after i frames. */
  ghost predicate Replayed(h: seq<Frame>, start: nat, n: nat, i: nat, budget: nat, packets: seq<Packet>,
                           groups: seq<seq<Item>>,
                           seen: seq<nat>, w: nat, seq0: Uint32, offered0: seq<seq<Byte>>,
                           chunkSeq: Uint32, offered: seq<seq<Byte>>) {
    && i <= n && start + n <= |h| && |seen| == i && Growing(seen, |h|, w)
    && Flatten(groups) == KeptItems(h, start, seen, i, budget)
    && (i > 0 <==> packets != [])
    && SentGroups(packets, groups, seq0, i == n && packets != [], budget)
    && Sent(packets, seq0, offered0, chunkSeq, offered)
    && GroupedSoFar(h, start, n, i, budget, groups, seen)
  }

  /** If nothing was lost, the packets so far took the window's first groups, greedily. */
  ghost predicate GroupedSoFar(h: seq<Frame>, start: nat, n: nat, i: nat, budget: nat, groups: seq<seq<Item>>,
                               seen: seq<nat>) {
    && i <= n && start + n <= |h|
    && (NoLoss(start, seen, 0, i) ==>
          Groups(AudibleItems(h, start, start + n), budget) ==
          NonEmptyGroups(groups) + Groups(AudibleItems(h, start + i, start + n), budget))
  }

  lemma GroupedMore(h: seq<Frame>, start: nat, n: nat, i: nat, budget: nat, groups: seq<seq<Item>>, seen: seq<nat>,
                    i': nat, seen': seq<nat>, group: seq<Item>)
    requires GroupedSoFar(h, start, n, i, budget, groups, seen) && |seen| == i && seen <= seen'
    requires Reason(h, start, n, i, i', budget, seen', group)
    ensures GroupedSoFar(h, start, n, i', budget, groups + [group], seen')
  {
    if NoLoss(start, seen', 0, i') {
      assert NoLoss(start, seen, 0, i) by { assert forall k :: 0 <= k < i ==> seen'[k] == seen[k]; }
      assert NoLoss(start, seen', i, i');
      StopsAtGroup(h, start, n, i, i', budget, group);
      NonEmptyMore(groups, group);
      hide AudibleItems, Groups, NonEmptyGroups, NonEmptyGroup, NoLoss;
      Associates(NonEmptyGroups(groups), NonEmptyGroup(group), Groups(AudibleItems(h, start + i', start + n), budget));
    }
  }

  lemma NonEmptyMore(groups: seq<seq<Item>>, group: seq<Item>)
    ensures NonEmptyGroups(groups + [group]) == NonEmptyGroups(groups) + NonEmptyGroup(group)
  {
    assert (groups + [group])[..|groups|] == groups;
  }

  lemma GroupedStart(h: seq<Frame>, start: nat, n: nat, budget: nat)
    requires start + n <= |h|
    ensures GroupedSoFar(h, start, n, 0, budget, [], [])
  {
    var all := Groups(AudibleItems(h, start, start + n), budget);
    assert NonEmptyGroups([]) + all == all;
  }

  /** At the end, if nothing was lost. */
  lemma GroupedAll(h: seq<Frame>, start: nat, n: nat, budget: nat, groups: seq<seq<Item>>, seen: seq<nat>)
    requires GroupedSoFar(h, start, n, n, budget, groups, seen)
    ensures NoLoss(start, seen, 0, n) ==> NonEmptyGroups(groups) == Groups(AudibleItems(h, start, start + n), budget)
  {
    var done := NonEmptyGroups(groups);
    assert Groups([], budget) == [] && done + [] == done;
    assert AudibleItems(h, start + n, start + n) == [];
  }

  lemma ReplayStart(h: seq<Frame>, start: nat, n: nat, budget: nat, seq0: Uint32, offered0: seq<seq<Byte>>, w: nat)
    requires start + n <= |h|
    ensures Replayed(h, start, n, 0, budget, [], [], [], w, seq0, offered0, seq0, offered0)
  {
    SeqAtAdds(seq0, 0, 0);
    assert offered0 + [] == offered0;
    GroupedStart(h, start, n, budget);
  }

  /** One more packet offered. */
  lemma ReplayOneMore(packets: seq<Packet>, groups: seq<seq<Item>>, seq0: Uint32, budget: nat, p: Packet,
                      group: seq<Item>,
                      last: bool, offered0: seq<seq<Byte>>, chunkSeq: Uint32, offered: seq<seq<Byte>>)
    requires SentGroups(packets, groups, seq0, false, budget) && Sent(packets, seq0, offered0, chunkSeq, offered)
    requires SentGroup(p, group, chunkSeq, last, budget) && FramesFit(p.frames)
    ensures SentGroups(packets + [p], groups + [group], seq0, last, budget)
    ensures Sent(packets + [p], seq0, offered0, NextSeq(chunkSeq), offered + [Wire(p)])
    ensures Flatten(groups + [group]) == Flatten(groups) + group
  {
    SentGroupsOneMore(packets, groups, seq0, budget, p, group, last);
    OfferOneMore(packets, p, offered0, offered);
    SeqAtAdds(seq0, |packets|, 1);
    FlattenJoin(groups, [group]);
    FlattenOne(group);
  }

  lemma ReplayTurn(h: seq<Frame>, start: nat, n: nat, i: nat, budget: nat, packets: seq<Packet>, groups: seq<seq<Item>>,
                   seen: seq<nat>, w: nat, seq0: Uint32, offered0: seq<seq<Byte>>,
                   chunkSeq: Uint32, offered: seq<seq<Byte>>,
                   i': nat, seen': seq<nat>, w': nat, p: Packet, group: seq<Item>)
    requires Replayed(h, start, n, i, budget, packets, groups, seen, w, seq0, offered0, chunkSeq, offered)
    requires i < i' <= n && |seen'| == i' && Growing(seen', |h|, w')
    requires KeptItems(h, start, seen', i', budget) == KeptItems(h, start, seen, i, budget) + group
    requires SentGroup(p, group, chunkSeq, i' >= n, budget) && FramesFit(p.frames)
    requires seen <= seen' && Reason(h, start, n, i, i', budget, seen', group)
    ensures Replayed(h, start, n, i', budget, packets + [p], groups + [group], seen', w', seq0, offered0,
                     NextSeq(chunkSeq), offered + [Wire(p)])
  {
    hide SentGroup, SentGroups, Sent, FramesFit, Flatten, KeptItems, Growing, GroupedSoFar, Reason;
    GroupedMore(h, start, n, i, budget, groups, seen, i', seen', group);
    ReplayOneMore(packets, groups, seq0, budget, p, group, i' >= n, offered0, chunkSeq, offered);
  }

  lemma ReplayedGrowing(h: seq<Frame>, start: nat, n: nat, i: nat, budget: nat, packets: seq<Packet>,
                        groups: seq<seq<Item>>,
                        seen: seq<nat>, w: nat, seq0: Uint32, offered0: seq<seq<Byte>>,
                        chunkSeq: Uint32, offered: seq<seq<Byte>>)
    requires Replayed(h, start, n, i, budget, packets, groups, seen, w, seq0, offered0, chunkSeq, offered)
    ensures |seen| == i && Growing(seen, |h|, w)
  {
  }

  /** A finished loop; an empty window still gets one packet, `boundary`. */
  lemma ReplayFinish(h: seq<Frame>, start: nat, n: nat, budget: nat, packets: seq<Packet>, groups: seq<seq<Item>>,
                     seen: seq<nat>, w: nat, seq0: Uint32, offered0: seq<seq<Byte>>,
                     chunkSeq: Uint32, offered: seq<seq<Byte>>,
                     boundary: Packet)
    requires Replayed(h, start, n, n, budget, packets, groups, seen, w, seq0, offered0, chunkSeq, offered)
    requires boundary == Packet(1, MemoryChunk, chunkSeq, 0, GapMarker, FLAG_LAST_OF_REQ, [])
    ensures n > 0 ==> Finished(h, start, n, budget, packets, groups, seen, w, seq0, offered0, chunkSeq, offered)
    ensures FramesFit(boundary.frames)
    ensures n == 0 ==>
      Finished(h, start, n, budget, [boundary], [[]], seen, w, seq0, offered0,
               NextSeq(chunkSeq), offered + [Wire(boundary)])
  {
    assert FramesFit(boundary.frames);
    GroupedAll(h, start, n, budget, groups, seen);
    NonEmptyMore([], []);
    hide AudibleItems, GroupedSoFar, Groups;
    if n == 0 {
      assert SentGroup(boundary, [], chunkSeq, true, budget) && FramesFit(boundary.frames);
      hide SentGroup, Sent, FramesFit, Flatten;
      ReplayOneMore(packets, groups, seq0, budget, boundary, [], true, offered0, chunkSeq, offered);
      assert packets + [boundary] == [boundary] && groups + [[]] == [[]];
      assert Flatten(groups) + [] == Flatten(groups);
    }
  }

  /** One pass of the outer loop. */
  method OnePacket(d: Drainer, start: nat, n: nat, first: nat, scratch: array<Byte>, budget: nat,
                   ghost h: seq<Frame>, ghost seen0: seq<nat>)
    returns (i: nat, ghost p: Packet, ghost group: seq<Item>, ghost seen: seq<nat>)
    requires d.Valid() && scratch !in d.ring.Repr() && scratch != d.pkt && h <= d.ring.history && Clean(h)
    requires first < n && start + n <= |h| && |seen0| == first && Growing(seen0, |h|, |d.ring.history|)
    requires budget + 0xFF <= scratch.Length && ElevenExceed(h, start, budget)
    modifies d`chunkSeq, d.ring.Repr(), d.link, d.pkt, scratch
    ensures d.Valid() && old(d.ring.history) <= d.ring.history
    ensures first < i <= n && |seen| == i && Growing(seen, |h|, |d.ring.history|)
    ensures KeptItems(h, start, seen, i, budget) == KeptItems(h, start, seen0, first, budget) + group
    ensures d.chunkSeq == NextSeq(old(d.chunkSeq))
    ensures SentGroup(p, group, old(d.chunkSeq), i >= n, budget) && FramesFit(p.frames)
    ensures d.link.offered == old(d.link.offered) + [Wire(p)]
    ensures seen0 <= seen && Reason(h, start, n, first, i, budget, seen, group)
  {
    hide KeptItems, Growing, SentGroup, FramesFit, ElevenExceed, Clean, TotalCost, Holds, Reason;
    var entries, firstRelTs;
    i, entries, firstRelTs, group, seen := FillPacket(d, start, n, first, scratch, budget, h, seen0);
    p := Ship(d, entries, firstRelTs, i >= n, budget, scratch, group);
  }

  /** A finished replay: the frames kept, the packets that carry them and what was offered
      to the link. */
  ghost predicate Finished(h: seq<Frame>, start: nat, n: nat, budget: nat, packets: seq<Packet>, groups: seq<seq<Item>>,
                           seen: seq<nat>, w: nat, seq0: Uint32, offered0: seq<seq<Byte>>,
                           chunkSeq: Uint32, offered: seq<seq<Byte>>) {
    && start + n <= |h| && |seen| == n && Growing(seen, |h|, w)
    && Flatten(groups) == KeptItems(h, start, seen, n, budget)
    && packets != [] && SentGroups(packets, groups, seq0, true, budget)
    && Sent(packets, seq0, offered0, chunkSeq, offered)
    && (NoLoss(start, seen, 0, n) ==> NonEmptyGroups(groups) == Groups(AudibleItems(h, start, start + n), budget))
  }

  /** The outer loop. */
  method SendWindow(d: Drainer, start: nat, n: nat, scratch: array<Byte>, budget: nat)
    returns (emittedAny: bool, ghost packets: seq<Packet>, ghost groups: seq<seq<Item>>, ghost seen: seq<nat>)
    requires d.Valid() && scratch !in d.ring.Repr() && scratch != d.pkt
    requires start + n <= |d.ring.history| && budget + 0xFF <= scratch.Length
    requires ElevenExceed(d.ring.history, start, budget) && Clean(d.ring.history)
    modifies d`chunkSeq, d.ring.Repr(), d.link, d.pkt, scratch
    ensures d.Valid() && old(d.ring.history) <= d.ring.history && (emittedAny <==> n > 0)
    ensures Replayed(old(d.ring.history), start, n, n, budget, packets, groups, seen, |d.ring.history|,
                     old(d.chunkSeq), old(d.link.offered), d.chunkSeq, d.link.offered)
  {
    ghost var h, seq0, offered0 := d.ring.history, d.chunkSeq, d.link.offered;
    packets, groups, seen := [], [], [];
    ReplayStart(h, start, n, budget, seq0, offered0, |h|);
    hide Drainer.Valid, Replayed, KeptItems, Growing, SentGroup, ElevenExceed, Clean;
    var i := 0;
    emittedAny := false;
    while i < n
      invariant i <= n && (emittedAny <==> i > 0) && d.Valid() && h <= d.ring.history
      invariant Replayed(h, start, n, i, budget, packets, groups, seen, |d.ring.history|, seq0, offered0,
                         d.chunkSeq, d.link.offered)
      decreases n - i
    {
      ghost var i0, seen0, w0, seqBefore, offeredBefore := i, seen, |d.ring.history|, d.chunkSeq, d.link.offered;
      ReplayedGrowing(h, start, n, i, budget, packets, groups, seen, w0, seq0, offered0, seqBefore, offeredBefore);
      ghost var p, group;
      i, p, group, seen := OnePacket(d, start, n, i, scratch, budget, h, seen);
      ReplayTurn(h, start, n, i0, budget, packets, groups, seen0, w0, seq0, offered0, seqBefore, offeredBefore,
                 i, seen, |d.ring.history|, p, group);
      packets, groups := packets + [p], groups + [group];
      emittedAny := true;
    }
  }

  /** The request: every kept frame of the window, in order, in packets within the MTU,
      consecutive sequence numbers, at least one packet, the end marked on the last. */
  method DrainReplay(d: Drainer, seconds: nat, mtu: nat, scratch: array<Byte>)
    returns (ghost packets: seq<Packet>, ghost groups: seq<seq<Item>>, ghost seen: seq<nat>)
    requires d.Valid() && scratch !in d.ring.Repr() && scratch != d.pkt && scratch.Length == SCRATCH_CAP
    requires 1 <= seconds <= 60 && Budget(mtu) + 0xFF <= SCRATCH_CAP
    requires ElevenExceed(d.ring.history, |d.ring.history| - WindowLength(seconds, |d.ring.history|), Budget(mtu))
    modifies d`chunkSeq, d.ring.Repr(), d.link, d.pkt, scratch
    ensures d.Valid() && old(d.ring.history) <= d.ring.history
    ensures var h := old(d.ring.history);
      var n := WindowLength(seconds, |h|);
      Finished(h, |h| - n, n, Budget(mtu), packets, groups, seen, |d.ring.history|,
               old(d.chunkSeq), old(d.link.offered), d.chunkSeq, d.link.offered)
  {
    hide *;
    ghost var h, seq0, offered0 := d.ring.history, d.chunkSeq, d.link.offered;
    d.RingIs();
    var writeIdx := d.ring.writeIndex;
    var n := WindowLength(seconds, writeIdx);
    var start := writeIdx - n;
    var budget := Budget(mtu);
    var emittedAny;
    emittedAny, packets, groups, seen := SendWindow(d, start, n, scratch, budget);
    packets, groups := SendBoundary(d, emittedAny, h, start, n, budget, packets, groups, seen, seq0, offered0);
  }

  /** An empty window still gets one packet, which ends the request. */
  method SendBoundary(d: Drainer, emittedAny: bool, ghost h: seq<Frame>, ghost start: nat, ghost n: nat,
                      ghost budget: nat,
                      ghost packets0: seq<Packet>, ghost groups0: seq<seq<Item>>, ghost seen: seq<nat>,
                      ghost seq0: Uint32, ghost offered0: seq<seq<Byte>>)
    returns (ghost packets: seq<Packet>, ghost groups: seq<seq<Item>>)
    requires d.Valid() && (emittedAny <==> n > 0)
    requires Replayed(h, start, n, n, budget, packets0, groups0, seen, |d.ring.history|, seq0, offered0,
                      d.chunkSeq, d.link.offered)
    modifies d`chunkSeq, d.link, d.pkt
    ensures d.Valid()
    ensures Finished(h, start, n, budget, packets, groups, seen, |d.ring.history|, seq0, offered0,
                     d.chunkSeq, d.link.offered)
  {
    ReplayFinish(h, start, n, budget, packets0, groups0, seen, |d.ring.history|, seq0, offered0,
                 d.chunkSeq, d.link.offered,
                 Packet(1, MemoryChunk, d.chunkSeq, 0, GapMarker, FLAG_LAST_OF_REQ, []));
    hide Drainer.Valid, Replayed, Finished;
    packets, groups := packets0, groups0;
    if !emittedAny {
      ghost var p := SendChunk(d, 0, GapMarker, FLAG_LAST_OF_REQ, []);
      packets, groups := [p], [[]];
    }
  }

  /** The replay as the server decodes it: the kept frames in order, each packet within
      the MTU, numbered consecutively, LAST_OF_REQ on the final packet and no other. */
  lemma ReplayHeard(h: seq<Frame>, start: nat, n: nat, mtu: nat, packets: seq<Packet>, groups: seq<seq<Item>>,
                    seen: seq<nat>, w: nat, seq0: Uint32, offered0: seq<seq<Byte>>,
                    chunkSeq: Uint32, offered: seq<seq<Byte>>)
    requires Finished(h, start, n, Budget(mtu), packets, groups, seen, w, seq0, offered0, chunkSeq, offered)
    requires 23 <= mtu
    ensures packets != [] && Carried(packets) == Datas(KeptItems(h, start, seen, n, Budget(mtu)))
    ensures forall j :: 0 <= j < |packets| ==>
      && Arrives(packets[j], mtu) && packets[j].chunkSeq == SeqAt(seq0, j)
      && (packets[j].flags == FLAG_LAST_OF_REQ <==> j == |packets| - 1)
  {
    ReplayOnTheWire(packets, groups, seq0, mtu);
  }

  /** A replay's packets continue the drainer's count without a gap. */
  lemma ReplayNumbered(h: seq<Frame>, start: nat, n: nat, budget: nat, packets: seq<Packet>, groups: seq<seq<Item>>,
                       seen: seq<nat>, w: nat, seq0: Uint32, offered0: seq<seq<Byte>>,
                       chunkSeq: Uint32, offered: seq<seq<Byte>>)
    requires Finished(h, start, n, budget, packets, groups, seen, w, seq0, offered0, chunkSeq, offered)
    ensures Numbered(offered0, offered, seq0, chunkSeq)
  {
    hide KeptItems, Growing, Flatten, SeqAt;
    forall j | |offered0| <= j < |offered| ensures SeqOf(offered[j]) == SeqAt(seq0, j - |offered0|) {
      var p := packets[j - |offered0|];
      assert SentGroup(p, groups[j - |offered0|], SeqAt(seq0, j - |offered0|), j - |offered0| == |packets| - 1, budget);
      hide SentGroups, SeqOf;
      assert offered[j] == Wire(p);
      WireSeq(p);
    }
  }

  lemma WireSeq(p: Packet)
    requires FramesFit(p.frames)
    ensures SeqOf(Wire(p)) == p.chunkSeq
  {
    assert Wire(p)[1..5] == Le32(p.chunkSeq);
    Le32RoundTrip(p.chunkSeq);
  }

  /** If the window's first frame is still in the ring at the end, no frame was lost: the
      kept ones are all that are audible and fit. */
  lemma {:induction false} NothingOverwritten(h: seq<Frame>, start: nat, seen: seq<nat>, n: nat, budget: nat, w: nat)
    requires n <= |seen| && start + n <= |h| && Growing(seen, |h|, w) && w - start <= RING_FRAMES
    ensures NoLoss(start, seen, 0, n)
    ensures KeptItems(h, start, seen, n, budget) == KeptItems(h, start, seq(n, _ => |h|), n, budget)
    decreases n
  {
    if n > 0 {
      NothingOverwritten(h, start, seen, n - 1, budget, w);
      KeptExtends(h, start, seq(n - 1, _ => |h|), [|h|], n - 1, budget);
      assert seq(n - 1, _ => |h|) + [|h|] == seq(n, _ => |h|);
    }
  }

  // ---- The kept frames, one by one ----

  /** These items are the frames of the window at these places, and a frame is among them
      exactly when it is kept: it was at most 3000 frames behind when read, is no gap
      marker, has data and fits a notification. */
  ghost predicate KeptAt(h: seq<Frame>, start: nat, seen: seq<nat>, n: nat, mtu: nat, items: seq<Item>, at: seq<nat>)
    requires n <= |seen| && start + n <= |h|
  {
    && |at| == |items| && (forall j, k :: 0 <= j < k < |at| ==> at[j] < at[k])
    && (forall k :: 0 <= k < |at| ==>
          at[k] < n && items[k] == Item(h[start + at[k]].relTs, h[start + at[k]].vad, h[start + at[k]].data))
    && forall i :: 0 <= i < n ==>
         (i in at <==> Keeps(h, start, seen, i, mtu))
  }

  /** Frame i of the window is kept. */
  ghost predicate Keeps(h: seq<Frame>, start: nat, seen: seq<nat>, i: nat, mtu: nat)
    requires i < |seen| && start + i < |h|
  {
    && start + i < seen[i] <= start + i + 3000 && h[start + i].vad != GapMarker && h[start + i].data != []
    && 12 + 1 + |h[start + i].data| <= if mtu >= 23 then mtu - 3 else 244
  }

  lemma KeepsIs(h: seq<Frame>, start: nat, seen: seq<nat>, i: nat, mtu: nat)
    requires i < |seen| && start + i < |h|
    ensures var f := h[start + i];
      Keeps(h, start, seen, i, mtu) <==> InWindow(start + i, seen[i]) && Audible(f) && 1 + |f.data| <= Budget(mtu)
  {
    FitsInBytes(mtu, Item(0, GapMarker, h[start + i].data));
  }

  lemma KeptAtNext(h: seq<Frame>, start: nat, seen: seq<nat>, n: nat, mtu: nat, items: seq<Item>, at: seq<nat>)
    returns (more: seq<nat>)
    requires n < |seen| && start + n < |h| && KeptAt(h, start, seen, n, mtu, items, at)
    ensures var f := h[start + n];
      KeptAt(h, start, seen, n + 1, mtu,
             items + if InWindow(start + n, seen[n]) && Audible(f) && 1 + |f.data| <= Budget(mtu)
                     then [Item(f.relTs, f.vad, f.data)] else [], more)
  {
    hide *;
    KeepsIs(h, start, seen, n, mtu);
    var f := h[start + n];
    NothingAround(items);
    more := if Keeps(h, start, seen, n, mtu) then at + [n] else at;
    KeptAtStep(h, start, seen, n, mtu, items, at);
  }

  lemma KeptAtStep(h: seq<Frame>, start: nat, seen: seq<nat>, n: nat, mtu: nat, items: seq<Item>, at: seq<nat>)
    requires n < |seen| && start + n < |h| && KeptAt(h, start, seen, n, mtu, items, at)
    ensures var f := h[start + n];
      && (Keeps(h, start, seen, n, mtu) ==>
            KeptAt(h, start, seen, n + 1, mtu, items + [Item(f.relTs, f.vad, f.data)], at + [n]))
      && (!Keeps(h, start, seen, n, mtu) ==> KeptAt(h, start, seen, n + 1, mtu, items, at))
  {
    hide Keeps;
    assert n !in at;
    assert forall i :: i in at + [n] <==> i in at || i == n;
  }

  lemma KeptNext(h: seq<Frame>, start: nat, seen: seq<nat>, n: nat, budget: nat)
    requires n < |seen| && start + n < |h|
    ensures var f := h[start + n];
      KeptItems(h, start, seen, n + 1, budget) == KeptItems(h, start, seen, n, budget) +
        if InWindow(start + n, seen[n]) && Audible(f) && 1 + |f.data| <= budget
        then [Item(f.relTs, f.vad, f.data)] else []
  {
  }

  lemma NoneKept(h: seq<Frame>, start: nat, seen: seq<nat>, mtu: nat)
    requires start <= |h|
    ensures KeptAt(h, start, seen, 0, mtu, KeptItems(h, start, seen, 0, Budget(mtu)), [])
  {
  }

  lemma {:induction false} KeptAre(h: seq<Frame>, start: nat, seen: seq<nat>, n: nat, mtu: nat) returns (at: seq<nat>)
    requires n <= |seen| && start + n <= |h|
    ensures KeptAt(h, start, seen, n, mtu, KeptItems(h, start, seen, n, Budget(mtu)), at)
  {
    hide *;
    if n == 0 {
      at := [];
      NoneKept(h, start, seen, mtu);
    } else {
      at := KeptAre(h, start, seen, n - 1, mtu);
      KeptNext(h, start, seen, n - 1, Budget(mtu));
      at := KeptAtNext(h, start, seen, n - 1, mtu, KeptItems(h, start, seen, n - 1, Budget(mtu)), at);
    }
  }

  lemma {:induction false} FlattenAt<T>(xss: seq<seq<T>>, j: nat) returns (k: nat)
    requires j < |xss|
    ensures k + |xss[j]| <= |Flatten(xss)| && forall i :: 0 <= i < |xss[j]| ==> Flatten(xss)[k + i] == xss[j][i]
  {
    var n := |xss| - 1;
    if j == n {
      k := |Flatten(xss[..n])|;
    } else {
      k := FlattenAt(xss[..n], j);
    }
  }

  /** Packet j of a replay, in bytes: a piece of the kept frames from place k, under the
      first one's time and tag, of at most ten, within the notification. */
  lemma ReplayPacket(h: seq<Frame>, start: nat, n: nat, mtu: nat, packets: seq<Packet>, groups: seq<seq<Item>>,
                     seen: seq<nat>, seq0: Uint32, j: nat) returns (k: nat)
    requires n <= |seen| && start + n <= |h| && SentGroups(packets, groups, seq0, true, Budget(mtu))
    requires Flatten(groups) == KeptItems(h, start, seen, n, Budget(mtu)) && j < |packets|
    ensures var p, kept := packets[j], KeptItems(h, start, seen, n, Budget(mtu));
      var m := |p.frames|;
      && k + m <= |kept| && m <= 10 && (forall i :: 0 <= i < m ==> p.frames[i] == kept[k + i].data)
      && p.version == 1 && p.ptype == MemoryChunk && p.chunkSeq == (seq0 + j) % 0x1_0000_0000
      && p.flags == (if j == |packets| - 1 then 2 else 0)
      && (if m == 0 then p.vad == GapMarker else p.relTs == kept[k].relTs && p.vad == kept[k].vad)
      && FramesFit(p.frames) && |Wire(p)| <= if mtu >= 23 then mtu - 3 else 244
  {
    var p, g := packets[j], groups[j];
    assert SentGroup(p, g, SeqAt(seq0, j), j == |packets| - 1, Budget(mtu));
    SeqAtIs(seq0, j);
    k := FlattenAt(groups, j);
    PacketOnTheWire(p, g);
    FitsInBytes(mtu, Item(0, GapMarker, []));
    hide Budget, Wire, KeptItems, Flatten, SeqAt, TotalCost, Parsed;
  }
}
