/** The live path end to end: whole runs of the drainer as the server decodes them. */
module Stream {
  import opened C6Types
  import opened RingBuffer
  import opened AudioTask
  import opened DrainSpec
  import opened AudioPacket
  import opened Packing
  import opened LiveDrain

  /** The packets of the first n turns; turn k runs under mtus[k], which the phone may
      renegotiate at any time. */
  ghost function Packets(h: seq<Frame>, mtus: seq<nat>, n: nat): seq<Packet>
    requires n <= |mtus|
  {
    if n == 0 then []
    else
      var before := Packets(h, mtus, n - 1);
      before + if Ready(h, At(h, n - 1)) then BatchPackets(h, At(h, n - 1), mtus[n - 1], SeqAt(0, |before|)) else []
  }

  /** The frames of those turns that fit a notification. */
  ghost function Kept(h: seq<Frame>, mtus: seq<nat>, n: nat): seq<Item>
    requires n <= |mtus|
  {
    if n == 0 then []
    else
      Kept(h, mtus, n - 1) +
      if Ready(h, At(h, n - 1)) then Fitting(BatchItems(h, At(h, n - 1)), Budget(mtus[n - 1])) else []
  }

  lemma CarriedJoin(ps: seq<Packet>, qs: seq<Packet>)
    ensures Carried(ps + qs) == Carried(ps) + Carried(qs)
  {
    assert Bodies(ps + qs) == Bodies(ps) + Bodies(qs);
    FlattenJoin(Bodies(ps), Bodies(qs));
  }

  /** Sequence numbers count up from 0 without a gap, and every packet arrives under one
      of the MTUs in use. */
  ghost predicate Sound(ps: seq<Packet>, mtus: seq<nat>) {
    forall j :: 0 <= j < |ps| ==> ps[j].chunkSeq == SeqAt(0, j) && exists m :: m in mtus && Arrives(ps[j], m)
  }

  lemma SoundJoin(ps: seq<Packet>, qs: seq<Packet>, mtus: seq<nat>, mtu: nat)
    requires Sound(ps, mtus) && mtu in mtus
    requires forall j :: 0 <= j < |qs| ==> Arrives(qs[j], mtu) && qs[j].chunkSeq == SeqAt(SeqAt(0, |ps|), j)
    ensures Sound(ps + qs, mtus)
  {
    forall j | 0 <= j < |ps + qs|
      ensures (ps + qs)[j].chunkSeq == SeqAt(0, j) && exists m :: m in mtus && Arrives((ps + qs)[j], m)
    {
      if j < |ps| {
        assert (ps + qs)[j] == ps[j];
      } else {
        assert (ps + qs)[j] == qs[j - |ps|];
        SeqAtAdds(0, |ps|, j - |ps|);
      }
    }
  }

  /** Every packet of every run arrives, in sequence, and the frames the server gets are
      exactly the kept ones, in order. */
  lemma {:induction false} ServerHears(h: seq<Frame>, mtus: seq<nat>, n: nat)
    requires Clean(h) && n <= |mtus| && forall k :: 0 <= k < |mtus| ==> 23 <= mtus[k]
    ensures Carried(Packets(h, mtus, n)) == Datas(Kept(h, mtus, n))
    ensures Sound(Packets(h, mtus, n), mtus)
  {
    hide Sound, Arrives, BatchPackets, BatchItems, Fitting, Carried, At, SeqAt;
    if n > 0 {
      ServerHears(h, mtus, n - 1);
      var before, kept, d := Packets(h, mtus, n - 1), Kept(h, mtus, n - 1), At(h, n - 1);
      if Ready(h, d) {
        var batch := BatchPackets(h, d, mtus[n - 1], SeqAt(0, |before|));
        TurnOnTheWire(h, d, mtus[n - 1], SeqAt(0, |before|));
        CarriedJoin(before, batch);
        DatasJoin(kept, Fitting(BatchItems(h, d), Budget(mtus[n - 1])));
        SoundJoin(before, batch, mtus, mtus[n - 1]);
      } else {
        assert before + [] == before;
        assert kept + [] == kept;
      }
    } else {
      NothingSent(mtus);
    }
  }

  lemma NothingSent(mtus: seq<nat>)
    ensures Carried([]) == Datas([]) && Sound([], mtus)
  {
  }

  /** Every recorded frame is small enough for every MTU in use. */
  ghost predicate AllSmall(h: seq<Frame>, mtus: seq<nat>) {
    forall i, k :: 0 <= i < |h| && 0 <= k < |mtus| ==> 1 + |h[i].data| <= Budget(mtus[k])
  }

  lemma {:induction false} FittingAll(items: seq<Item>, budget: nat)
    requires forall i :: 0 <= i < |items| ==> Fits(budget, items[i])
    ensures Fitting(items, budget) == items
  {
    if items != [] { FittingAll(items[1..], budget); }
  }

  lemma {:induction false} LogIndexed(h: seq<Frame>, n: nat)
    ensures Indexed(h, Log(h, n))
  {
    if n > 0 {
      LogIndexed(h, n - 1);
      var d := At(h, n - 1);
      hide Audible, At, After;
      if Ready(h, d) { CollectIncreasing(h, Base(h, d), Base(h, d) + FRAMES_PER_CHUNK, Rewinds(h, d)); }
    }
  }

  lemma ItemsJoin(h: seq<Frame>, xs: seq<Tagged>, ys: seq<Tagged>)
    requires Indexed(h, xs) && Indexed(h, ys)
    ensures Indexed(h, xs + ys) && ItemsOf(h, xs + ys) == ItemsOf(h, xs) + ItemsOf(h, ys)
  {
  }

  lemma BatchFits(h: seq<Frame>, mtus: seq<nat>, d: Drain, k: nat)
    requires k < |mtus| && AllSmall(h, mtus) && Ready(h, d)
    ensures Indexed(h, Batch(h, d)) && BatchItems(h, d) == ItemsOf(h, Batch(h, d))
    ensures Fitting(BatchItems(h, d), Budget(mtus[k])) == BatchItems(h, d)
  {
    CollectIncreasing(h, Base(h, d), Base(h, d) + FRAMES_PER_CHUNK, Rewinds(h, d));
    hide Collect, Fitting;
    var items := BatchItems(h, d);
    forall i | 0 <= i < |items| ensures Fits(Budget(mtus[k]), items[i]) {
      assert items[i].data == h[Batch(h, d)[i].index].data;
    }
    FittingAll(items, Budget(mtus[k]));
  }

  lemma KeptUnfolds(h: seq<Frame>, mtus: seq<nat>, n: nat)
    requires 0 < n <= |mtus|
    ensures var d := At(h, n - 1);
      && (Ready(h, d) ==> Kept(h, mtus, n) == Kept(h, mtus, n - 1) + Fitting(BatchItems(h, d), Budget(mtus[n - 1])))
      && (Ready(h, d) ==> Log(h, n) == Log(h, n - 1) + Batch(h, d))
      && (!Ready(h, d) ==> Kept(h, mtus, n) == Kept(h, mtus, n - 1) && Log(h, n) == Log(h, n - 1))
  {
    hide Fitting, BatchItems, Batch, At;
    assert Kept(h, mtus, n - 1) + [] == Kept(h, mtus, n - 1) && Log(h, n - 1) + [] == Log(h, n - 1);
  }

  lemma KeptStep(h: seq<Frame>, mtus: seq<nat>, n: nat)
    requires 0 < n <= |mtus| && AllSmall(h, mtus)
    requires Indexed(h, Log(h, n - 1)) && Indexed(h, Log(h, n)) && Kept(h, mtus, n - 1) == ItemsOf(h, Log(h, n - 1))
    ensures Kept(h, mtus, n) == ItemsOf(h, Log(h, n))
  {
    hide *;
    KeptUnfolds(h, mtus, n);
    if Ready(h, At(h, n - 1)) {
      BatchFits(h, mtus, At(h, n - 1), n - 1);
      ItemsJoin(h, Log(h, n - 1), Batch(h, At(h, n - 1)));
    }
  }

  lemma {:induction false} KeptIsLog(h: seq<Frame>, mtus: seq<nat>, n: nat)
    requires n <= |mtus| && AllSmall(h, mtus)
    ensures Indexed(h, Log(h, n)) && Kept(h, mtus, n) == ItemsOf(h, Log(h, n))
  {
    LogIndexed(h, n);
    if n > 0 {
      KeptIsLog(h, mtus, n - 1);
      KeptStep(h, mtus, n);
    }
  }

  /** From the microphone's ring to the server's parser: for every produced history but
      the one stuck at frame 10, running the drainer once per frame leaves less than one
      chunk unread, and the server has received the data of a log whose own entries are
      every audible frame before the cursor, once and in order, the rest being preroll
      repeats of frames already received. */
  lemma EndToEnd(h: seq<Frame>, mtus: seq<nat>)
    requires Clean(h) && !OnsetAtTen(h)
    requires |mtus| == |h| && AllSmall(h, mtus) && forall k :: 0 <= k < |mtus| ==> 23 <= mtus[k]
    ensures |h| - FRAMES_PER_CHUNK < At(h, |h|).cursor <= |h|
    ensures Indexed(h, Log(h, |h|))
    ensures Carried(Packets(h, mtus, |h|)) == Datas(ItemsOf(h, Log(h, |h|)))
    ensures Own(Log(h, |h|)) == Collect(h, 0, At(h, |h|).cursor, false)
    ensures Increasing(Extra(Log(h, |h|)))
  {
    DrainsIff(h);
    DeliveredOnceThenPreroll(h, |h|);
    ServerHears(h, mtus, |h|);
    KeptIsLog(h, mtus, |h|);
  }
}
