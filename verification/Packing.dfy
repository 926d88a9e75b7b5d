/** Bin packing of frames into MTU-sized packets, as drain_task and drain_replay do it:
    greedy, in order, dropping a frame that could not fit even alone. */
module Packing {
  import opened CTypes
  import opened C6Types
  import opened AudioPacket

  /** One frame with the metadata its packet header would take. */
  datatype Item = Item(relTs: Uint32, vad: VadState, data: seq<Byte>)

  /** Room for length-prefixed frames in one notification; 244 is the fallback used
      before the MTU is known. */
  function MaxPayload(mtu: nat): nat { if mtu >= 23 then mtu - 3 else 244 }

  function Budget(mtu: nat): nat {
    if MaxPayload(mtu) > HEADER_LEN then MaxPayload(mtu) - HEADER_LEN else 0
  }

  /** chunk_seq after n packets; the C counter is a uint32 and wraps. */
  function SeqAt(s: Uint32, n: nat): Uint32 { (s + n) % 0x1_0000_0000 }

  function NextSeq(s: Uint32): Uint32 { SeqAt(s, 1) }

  lemma SeqAtAdds(s: Uint32, m: nat, n: nat)
    ensures SeqAt(SeqAt(s, m), n) == SeqAt(s, m + n)
    ensures SeqAt(s, 0) == s
  {
  }

  function Cost(it: Item): nat { 1 + |it.data| }

  function TotalCost(items: seq<Item>): nat {
    if items == [] then 0 else Cost(items[0]) + TotalCost(items[1..])
  }

  /** How many leading items fit, added one by one to what is already used. */
  function Fit(items: seq<Item>, used: nat, budget: nat): (k: nat)
    ensures k <= |items|
    ensures k > 0 ==> used + TotalCost(items[..k]) <= budget
    ensures k < |items| ==> used + TotalCost(items[..k]) + Cost(items[k]) > budget
  {
    if items == [] || used + Cost(items[0]) > budget then 0
    else
      var k := Fit(items[1..], used + Cost(items[0]), budget);
      assert items[..k + 1][1..] == items[1..][..k];
      k + 1
  }

  /** The runs of frames that share a packet. */
  function Groups(items: seq<Item>, budget: nat): seq<seq<Item>>
    decreases |items|
  {
    if items == [] then []
    else
      var k := Fit(items, 0, budget);
      if k == 0 then Groups(items[1..], budget)
      else [items[..k]] + Groups(items[k..], budget)
  }

  function Datas(items: seq<Item>): seq<seq<Byte>> {
    seq(|items|, i requires 0 <= i < |items| => items[i].data)
  }

  function PacketOf(ptype: PacketType, group: seq<Item>, chunkSeq: Uint32, flags: Byte): Packet
    requires group != []
  {
    Packet(1, ptype, chunkSeq, group[0].relTs, group[0].vad, flags, Datas(group))
  }

  /** A packet without frames: silence, or the end of an empty request. */
  function EmptyPacket(ptype: PacketType, chunkSeq: Uint32, relTs: Uint32, flags: Byte): Packet {
    Packet(1, ptype, chunkSeq, relTs, GapMarker, flags, [])
  }

  /** The packets of one live batch. */
  function LivePackets(items: seq<Item>, budget: nat, chunkSeq: Uint32): seq<Packet>
    decreases |items|
  {
    if items == [] then []
    else
      var k := Fit(items, 0, budget);
      if k == 0 then LivePackets(items[1..], budget, chunkSeq)
      else [PacketOf(PacketType.Live, items[..k], chunkSeq, 0)] + LivePackets(items[k..], budget, NextSeq(chunkSeq))
  }

  // ---- What greedy packing preserves ----

  predicate Fits(budget: nat, it: Item) { Cost(it) <= budget }

  function Fitting(items: seq<Item>, budget: nat): seq<Item> {
    if items == [] then []
    else (if Fits(budget, items[0]) then [items[0]] else []) + Fitting(items[1..], budget)
  }

  function Flatten<T>(xss: seq<seq<T>>): seq<T> {
    if xss == [] then [] else Flatten(xss[..|xss| - 1]) + xss[|xss| - 1]
  }

  function Bodies(packets: seq<Packet>): seq<seq<seq<Byte>>> {
    seq(|packets|, i requires 0 <= i < |packets| => packets[i].frames)
  }

  /** All frames carried, in the order the packets carry them. */
  function Carried(packets: seq<Packet>): seq<seq<Byte>> { Flatten(Bodies(packets)) }

  /** Packet j carries group j under the header of the group's first frame, and the
      sequence numbers are consecutive. */
  ghost predicate Matches(packets: seq<Packet>, groups: seq<seq<Item>>, ptype: PacketType, chunkSeq: Uint32) {
    && |packets| == |groups|
    && forall j :: 0 <= j < |packets| ==>
         && packets[j].version == 1 && packets[j].ptype == ptype
         && packets[j].chunkSeq == SeqAt(chunkSeq, j)
         && packets[j].frames == Datas(groups[j])
         && (if groups[j] == [] then packets[j].vad == GapMarker
             else packets[j].relTs == groups[j][0].relTs && packets[j].vad == groups[j][0].vad)
  }

  lemma {:induction false} FlattenJoin<T>(xss: seq<seq<T>>, yss: seq<seq<T>>)
    ensures Flatten(xss + yss) == Flatten(xss) + Flatten(yss)
  {
    if yss == [] {
      assert xss + yss == xss;
    } else {
      var n := |yss| - 1;
      assert (xss + yss)[..|xss| + n] == xss + yss[..n];
      FlattenJoin(xss, yss[..n]);
      assert Flatten(xss) + Flatten(yss[..n]) + yss[n] == Flatten(xss) + (Flatten(yss[..n]) + yss[n]);
    }
  }

  lemma FlattenOne<T>(xs: seq<T>)
    ensures Flatten([xs]) == xs
  {
    assert [xs][..0] == [];
  }

  lemma DatasJoin(xs: seq<Item>, ys: seq<Item>)
    ensures Datas(xs + ys) == Datas(xs) + Datas(ys)
  {
  }

  lemma {:induction false} CarriedIsGroups(packets: seq<Packet>, groups: seq<seq<Item>>, ptype: PacketType,
                                           chunkSeq: Uint32)
    requires Matches(packets, groups, ptype, chunkSeq)
    ensures Carried(packets) == Datas(Flatten(groups))
  {
    if packets != [] {
      var n := |packets| - 1;
      CarriedIsGroups(packets[..n], groups[..n], ptype, chunkSeq);
      assert Bodies(packets)[..n] == Bodies(packets[..n]);
      DatasJoin(Flatten(groups[..n]), groups[n]);
    }
  }

  lemma {:induction false} FittingJoin(xs: seq<Item>, ys: seq<Item>, budget: nat)
    ensures Fitting(xs + ys, budget) == Fitting(xs, budget) + Fitting(ys, budget)
  {
    if xs == [] {
      assert xs + ys == ys;
    } else {
      assert (xs + ys)[1..] == xs[1..] + ys;
      FittingJoin(xs[1..], ys, budget);
    }
  }

  lemma {:induction false} AllFit(items: seq<Item>, budget: nat)
    requires TotalCost(items) <= budget
    ensures Fitting(items, budget) == items
  {
    if items != [] { AllFit(items[1..], budget); }
  }

  /** Nothing is lost, duplicated or reordered except the frames that fit no packet. */
  lemma {:induction false} GroupsPartition(items: seq<Item>, budget: nat)
    ensures Flatten(Groups(items, budget)) == Fitting(items, budget)
    decreases |items|
  {
    if items != [] {
      var k := Fit(items, 0, budget);
      if k == 0 {
        GroupsPartition(items[1..], budget);
      } else {
        var group, rest := items[..k], items[k..];
        assert group + rest == items;
        GroupsPartition(rest, budget);
        AllFit(group, budget);
        FittingJoin(group, rest, budget);
        FlattenJoin([group], Groups(rest, budget));
        FlattenOne(group);
      }
    }
  }

  /** The item that follows group j in the batch, if any. */
  function Following(items: seq<Item>, budget: nat, j: nat): seq<Item>
    decreases |items|
  {
    if items == [] then []
    else
      var k := Fit(items, 0, budget);
      if k == 0 then Following(items[1..], budget, j)
      else if j > 0 then Following(items[k..], budget, j - 1)
      else if k < |items| then [items[k]] else []
  }

  /** Every group is a packetful: it fits, and it ends where the batch does or where the
      next item would not fit. */
  lemma {:induction false} GroupsGreedy(items: seq<Item>, budget: nat, j: nat)
    requires j < |Groups(items, budget)|
    ensures var g, next := Groups(items, budget)[j], Following(items, budget, j);
            && g != [] && TotalCost(g) <= budget
            && (next != [] ==> TotalCost(g) + Cost(next[0]) > budget)
    decreases |items|
  {
    var k := Fit(items, 0, budget);
    if k == 0 {
      GroupsGreedy(items[1..], budget, j);
    } else if j > 0 {
      GroupsGreedy(items[k..], budget, j - 1);
    }
  }

  lemma {:induction false} LiveMatches(items: seq<Item>, budget: nat, chunkSeq: Uint32)
    ensures Matches(LivePackets(items, budget, chunkSeq), Groups(items, budget), PacketType.Live, chunkSeq)
    decreases |items|
  {
    if items != [] {
      var k := Fit(items, 0, budget);
      if k == 0 {
        LiveMatches(items[1..], budget, chunkSeq);
      } else {
        LiveMatches(items[k..], budget, NextSeq(chunkSeq));
        MatchesPrepend(PacketOf(PacketType.Live, items[..k], chunkSeq, 0), items[..k],
                       LivePackets(items[k..], budget, NextSeq(chunkSeq)), Groups(items[k..], budget),
                       PacketType.Live, chunkSeq);
      }
    }
  }

  lemma MatchesPrepend(p: Packet, g: seq<Item>, ps: seq<Packet>, gs: seq<seq<Item>>, ptype: PacketType,
                       chunkSeq: Uint32)
    requires g != [] && p == PacketOf(ptype, g, chunkSeq, p.flags)
    requires Matches(ps, gs, ptype, NextSeq(chunkSeq))
    ensures Matches([p] + ps, [g] + gs, ptype, chunkSeq)
  {
    forall j | 0 <= j < |[p] + ps|
      ensures ([p] + ps)[j].chunkSeq == SeqAt(chunkSeq, j)
    {
      if j > 0 { assert ([p] + ps)[j] == ps[j - 1]; SeqAtAdds(chunkSeq, 1, j - 1); } else { SeqAtAdds(chunkSeq, 0, 0); }
    }
  }

  // ---- On the wire ----

  /** Frames a ring slot can hold: their lengths are bytes. */
  ghost predicate Sendable(items: seq<Item>) {
    forall i :: 0 <= i < |items| ==> |items[i].data| <= 0xFF
  }

  lemma {:induction false} BodyOfDatas(items: seq<Item>)
    requires Sendable(items)
    ensures EachFits(Datas(items)) && |Body(Datas(items))| == TotalCost(items)
  {
    if items != [] {
      BodyOfDatas(items[1..]);
      assert Datas(items)[1..] == Datas(items[1..]);
    }
  }

  lemma {:induction false} GroupsSendable(items: seq<Item>, budget: nat, j: nat)
    requires Sendable(items) && j < |Groups(items, budget)|
    ensures Sendable(Groups(items, budget)[j]) && |Groups(items, budget)[j]| <= |items|
    decreases |items|
  {
    var k := Fit(items, 0, budget);
    if k == 0 { GroupsSendable(items[1..], budget, j); }
    else if j > 0 { GroupsSendable(items[k..], budget, j - 1); }
  }

  function Wires(packets: seq<Packet>): seq<seq<Byte>>
    requires forall i :: 0 <= i < |packets| ==> FramesFit(packets[i].frames)
  {
    seq(|packets|, i requires 0 <= i < |packets| => Wire(packets[i]))
  }

  /** What the server makes of the notifications. */
  function Decoded(wires: seq<seq<Byte>>): seq<Result<Packet>> {
    seq(|wires|, i requires 0 <= i < |wires| => Parsed(wires[i]))
  }

  /** One live batch, end to end: every packet is one notification of at most `limit`
      bytes, the server parses each back, and the frames it gets are the fitting frames,
      in order. */
  lemma LiveOnTheWire(items: seq<Item>, budget: nat, chunkSeq: Uint32)
    requires Sendable(items) && |items| <= 0xFF
    ensures var ps := LivePackets(items, budget, chunkSeq);
            && Carried(ps) == Datas(Fitting(items, budget))
            && forall j :: 0 <= j < |ps| ==>
                 InRange(ps[j]) && |Wire(ps[j])| <= HEADER_LEN + budget && Parsed(Wire(ps[j])) == Ok(ps[j])
  {
    var ps, gs := LivePackets(items, budget, chunkSeq), Groups(items, budget);
    LiveMatches(items, budget, chunkSeq);
    GroupsPartition(items, budget);
    CarriedIsGroups(ps, gs, PacketType.Live, chunkSeq);
    forall j | 0 <= j < |ps|
      ensures InRange(ps[j]) && |Wire(ps[j])| <= HEADER_LEN + budget && Parsed(Wire(ps[j])) == Ok(ps[j])
    {
      GroupsSendable(items, budget, j);
      GroupsGreedy(items, budget, j);
      PacketOnTheWire(ps[j], gs[j]);
    }
  }

  lemma PacketOnTheWire(p: Packet, group: seq<Item>)
    requires p.version == 1 && p.frames == Datas(group) && Sendable(group) && |group| <= 0xFF
    ensures InRange(p) && |Wire(p)| == HEADER_LEN + TotalCost(group) && Parsed(Wire(p)) == Ok(p)
  {
    BodyOfDatas(group);
    ParseInvertsEncode(p, []);
    assert Wire(p) + [] == Wire(p);
  }

  // ---- In bytes of a notification ----

  /** What the room for frames comes to: a frame fits when header, length byte and data
      fit a notification's value, three bytes short of the MTU, or 244 bytes before the
      MTU is known. */
  lemma FitsInBytes(mtu: nat, it: Item)
    ensures Fits(Budget(mtu), it) <==> 12 + 1 + |it.data| <= if mtu >= 23 then mtu - 3 else 244
    ensures Budget(mtu) == (if mtu >= 23 then mtu - 3 else 244) - 12
  {
  }

  /** The fitting items are those, in order. */
  lemma {:induction false} FittingAre(items: seq<Item>, mtu: nat) returns (at: seq<nat>)
    ensures FittingAt(items, mtu, Fitting(items, Budget(mtu)), at)
  {
    hide *;
    if items == [] {
      at := [];
      NothingFits(mtu);
    } else {
      var n := |items| - 1;
      at := FittingAre(items[..n], mtu);
      assert items == items[..n] + [items[n]];
      FittingJoin(items[..n], [items[n]], Budget(mtu));
      FittingOne(items[n], Budget(mtu));
      at := FittingMore(items[..n], items[n], mtu, Fitting(items[..n], Budget(mtu)), at);
    }
  }

  /** These are the items that fit a notification in bytes, in order. */
  ghost predicate FittingAt(items: seq<Item>, mtu: nat, kept: seq<Item>, at: seq<nat>) {
    && |at| == |kept| && (forall j, k :: 0 <= j < k < |at| ==> at[j] < at[k])
    && (forall k :: 0 <= k < |at| ==> at[k] < |items| && kept[k] == items[at[k]])
    && forall i :: 0 <= i < |items| ==>
         (i in at <==> 12 + 1 + |items[i].data| <= if mtu >= 23 then mtu - 3 else 244)
  }

  lemma NothingFits(mtu: nat)
    ensures FittingAt([], mtu, Fitting([], Budget(mtu)), [])
  {
  }

  lemma FittingMore(items: seq<Item>, it: Item, mtu: nat, kept: seq<Item>, at: seq<nat>) returns (more: seq<nat>)
    requires FittingAt(items, mtu, kept, at)
    ensures FittingAt(items + [it], mtu, kept + if Fits(Budget(mtu), it) then [it] else [], more)
  {
    FitsInBytes(mtu, it);
    hide Fits, Budget;
    if Fits(Budget(mtu), it) {
      more := at + [|items|];
      assert forall i :: i in more <==> i in at || i == |items|;
    } else {
      more := at;
      assert kept + [] == kept && |items| !in at;
    }
  }

  lemma FittingOne(it: Item, budget: nat)
    ensures Fitting([it], budget) == if Fits(budget, it) then [it] else []
  {
    assert [it][1..] == [];
  }

  /** The group lies in one piece among the items, from place k, and is as long as fits. */
  ghost predicate Piece(items: seq<Item>, budget: nat, g: seq<Item>, k: nat) {
    && g != [] && k + |g| <= |items| && g == items[k..k + |g|] && TotalCost(g) <= budget
    && (k + |g| < |items| ==> TotalCost(g) + Cost(items[k + |g|]) > budget)
  }

  lemma {:induction false} GroupAt(items: seq<Item>, budget: nat, j: nat) returns (k: nat)
    requires j < |Groups(items, budget)|
    ensures Piece(items, budget, Groups(items, budget)[j], k)
    decreases |items|
  {
    hide *;
    var m := Fit(items, 0, budget);
    GroupsUnfold(items, budget);
    if m == 0 {
      var inner := GroupAt(items[1..], budget, j);
      k := 1 + inner;
      PieceShifts(items, 1, budget, Groups(items, budget)[j], inner);
    } else if j > 0 {
      var inner := GroupAt(items[m..], budget, j - 1);
      k := m + inner;
      PieceShifts(items, m, budget, Groups(items, budget)[j], inner);
    } else {
      k := 0;
      PieceAtFront(items, budget);
    }
  }

  lemma GroupsUnfold(items: seq<Item>, budget: nat)
    ensures items == [] ==> Groups(items, budget) == []
    ensures items != [] ==>
      var k := Fit(items, 0, budget);
      Groups(items, budget) == if k == 0 then Groups(items[1..], budget) else [items[..k]] + Groups(items[k..], budget)
  {
  }

  lemma PieceAtFront(items: seq<Item>, budget: nat)
    requires Fit(items, 0, budget) > 0
    ensures Piece(items, budget, items[..Fit(items, 0, budget)], 0)
  {
    hide Fit, TotalCost, Cost;
  }

  lemma PieceShifts(items: seq<Item>, m: nat, budget: nat, g: seq<Item>, k: nat)
    requires m <= |items| && Piece(items[m..], budget, g, k)
    ensures Piece(items, budget, g, m + k)
  {
    hide TotalCost, Cost;
    var rest := items[m..];
    assert rest[k..k + |g|] == items[m + k..m + k + |g|];
  }

  lemma {:induction false} LiveUnflagged(items: seq<Item>, budget: nat, chunkSeq: Uint32)
    ensures forall j :: 0 <= j < |LivePackets(items, budget, chunkSeq)| ==>
      LivePackets(items, budget, chunkSeq)[j].flags == 0
    decreases |items|
  {
    if items != [] {
      var k := Fit(items, 0, budget);
      if k == 0 {
        LiveUnflagged(items[1..], budget, chunkSeq);
      } else {
        LiveUnflagged(items[k..], budget, NextSeq(chunkSeq));
      }
    }
  }

  /** A live packet, in bytes: it carries a piece of the items, from place k, under its
      first item's time and tag, and the next item would not have fitted with it. */
  ghost predicate Fills(p: Packet, items: seq<Item>, k: nat, room: nat) {
    var m := |p.frames|;
    && 0 < m && k + m <= |items| && (forall i :: 0 <= i < m ==> p.frames[i] == items[k + i].data)
    && p.version == 1 && p.ptype == PacketType.Live && p.flags == 0
    && p.relTs == items[k].relTs && p.vad == items[k].vad
    && FramesFit(p.frames) && |Wire(p)| <= room
    && (k + m < |items| ==> |Wire(p)| + 1 + |items[k + m].data| > room)
  }

  lemma SeqAtIs(s: Uint32, n: nat)
    ensures SeqAt(s, n) == (s + n) % 0x1_0000_0000
    ensures s + n < 0x1_0000_0000 ==> SeqAt(s, n) == s + n
  {
  }

  lemma LiveFills(items: seq<Item>, mtu: nat, chunkSeq: Uint32, j: nat) returns (k: nat)
    requires Sendable(items) && |items| <= 0xFF && j < |LivePackets(items, Budget(mtu), chunkSeq)|
    ensures Fills(LivePackets(items, Budget(mtu), chunkSeq)[j], items, k, if mtu >= 23 then mtu - 3 else 244)
    ensures LivePackets(items, Budget(mtu), chunkSeq)[j].chunkSeq == (chunkSeq + j) % 0x1_0000_0000
  {
    hide *;
    var budget, p := Budget(mtu), LivePackets(items, Budget(mtu), chunkSeq)[j];
    LiveMatches(items, budget, chunkSeq);
    LiveUnflagged(items, budget, chunkSeq);
    MatchesAt(LivePackets(items, budget, chunkSeq), Groups(items, budget), PacketType.Live, chunkSeq, j);
    var g := Groups(items, budget)[j];
    k := GroupAt(items, budget, j);
    GroupsSendable(items, budget, j);
    SeqAtIs(chunkSeq, j);
    PieceFills(items, mtu, g, k, p);
  }

  lemma MatchesAt(packets: seq<Packet>, groups: seq<seq<Item>>, ptype: PacketType, chunkSeq: Uint32, j: nat)
    requires Matches(packets, groups, ptype, chunkSeq) && j < |packets|
    ensures j < |groups| == |packets| && packets[j].version == 1 && packets[j].ptype == ptype
    ensures packets[j].chunkSeq == SeqAt(chunkSeq, j) && packets[j].frames == Datas(groups[j])
    ensures groups[j] != [] ==> packets[j].relTs == groups[j][0].relTs && packets[j].vad == groups[j][0].vad
  {
  }

  lemma PieceFills(items: seq<Item>, mtu: nat, g: seq<Item>, k: nat, p: Packet)
    requires Piece(items, Budget(mtu), g, k) && Sendable(g) && |g| <= |items| <= 0xFF
    requires p.version == 1 && p.ptype == PacketType.Live && p.flags == 0 && p.frames == Datas(g)
    requires g != [] ==> p.relTs == g[0].relTs && p.vad == g[0].vad
    ensures Fills(p, items, k, if mtu >= 23 then mtu - 3 else 244)
  {
    PacketOnTheWire(p, g);
    FitsInBytes(mtu, items[0]);
    hide Budget, Wire, TotalCost, Parsed, FramesFit;
    assert forall i :: 0 <= i < |g| ==> g[i] == items[k + i];
  }
}
