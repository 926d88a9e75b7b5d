/** The ten frame slots of drain_replay, which its packing loop fills without counting:
    when they suffice, for one window and for every way the producer may interfere. */
module ReplaySlots {
  import opened C6Types
  import opened RingBuffer
  import opened AudioTask
  import opened DrainSpec
  import opened Packing
  import opened Sequences

  function ItemAt(f: Frame): Item { Item(f.relTs, f.vad, f.data) }

  /** Positions of audible frames from lo to hi, in order. */
  ghost predicate Chosen(h: seq<Frame>, lo: nat, hi: nat, at: seq<nat>) {
    && hi <= |h| && (forall k :: 0 <= k < |at| ==> lo <= at[k] < hi && Audible(h[at[k]]))
    && forall j, k :: 0 <= j < k < |at| ==> at[j] < at[k]
  }

  ghost function ItemsAt(h: seq<Frame>, at: seq<nat>): seq<Item>
    requires forall k :: 0 <= k < |at| ==> at[k] < |h|
  {
    seq(|at|, k requires 0 <= k < |at| => ItemAt(h[at[k]]))
  }

  /** Any eleven audible frames from start on are together too big for one packet. */
  ghost predicate ElevenExceed(h: seq<Frame>, start: nat, budget: nat) {
    forall at :: Chosen(h, start, |h|, at) && |at| == FRAMES_PER_CHUNK + 1 ==> TotalCost(ItemsAt(h, at)) > budget
  }

  // ---- Costs ----

  lemma {:induction false} CostJoin(xs: seq<Item>, it: Item)
    ensures TotalCost(xs + [it]) == TotalCost(xs) + Cost(it)
  {
    if xs == [] {
      assert xs + [it] == [it];
      assert [it][1..] == [];
    } else {
      assert (xs + [it])[1..] == xs[1..] + [it];
      CostJoin(xs[1..], it);
    }
  }

  lemma {:induction false} CostAtLeast(items: seq<Item>, len: nat)
    requires forall i :: 0 <= i < |items| ==> |items[i].data| >= len
    ensures TotalCost(items) >= |items| * (1 + len)
  {
    if items != [] {
      CostAtLeast(items[1..], len);
      assert |items| * (1 + len) == (|items| - 1) * (1 + len) + (1 + len);
    }
  }

  lemma {:induction false} CostOfPrefix(items: seq<Item>, n: nat)
    requires n <= |items|
    ensures TotalCost(items[..n]) <= TotalCost(items)
    decreases |items|
  {
    if n < |items| {
      var m := |items| - 1;
      CostOfPrefix(items[..m], n);
      assert items[..m][..n] == items[..n];
      CostJoin(items[..m], items[m]);
      assert items[..m] + [items[m]] == items;
    } else {
      assert items[..n] == items;
    }
  }

  lemma {:induction false} FitAll(items: seq<Item>, used: nat, budget: nat)
    requires used + TotalCost(items) <= budget
    ensures Fit(items, used, budget) == |items|
  {
    if items != [] { FitAll(items[1..], used + Cost(items[0]), budget); }
  }

  /** The count stops where the next item does not fit. */
  lemma {:induction false} FitStops(xs: seq<Item>, ys: seq<Item>, used: nat, budget: nat)
    requires used + TotalCost(xs) <= budget && (ys != [] ==> used + TotalCost(xs) + Cost(ys[0]) > budget)
    ensures Fit(xs + ys, used, budget) == |xs|
    decreases |xs|
  {
    if xs == [] {
      assert xs + ys == ys;
    } else {
      FitStops(xs[1..], ys, used + Cost(xs[0]), budget);
      hide Fit;
      FitStep(xs[0], xs[1..] + ys, used, budget);
      HeadJoins(xs, ys);
    }
  }

  lemma FitStep(it: Item, rest: seq<Item>, used: nat, budget: nat)
    requires used + Cost(it) <= budget
    ensures Fit([it] + rest, used, budget) == 1 + Fit(rest, used + Cost(it), budget)
  {
    assert ([it] + rest)[1..] == rest;
  }

  // ---- Frames of one size class ----

  function Copies(it: Item, n: nat): seq<Item> { seq(n, _ => it) }

  lemma {:induction false} CostOfCopies(it: Item, n: nat)
    ensures TotalCost(Copies(it, n)) == n * Cost(it)
  {
    if n > 0 {
      CostOfCopies(it, n - 1);
      assert Copies(it, n)[1..] == Copies(it, n - 1);
    }
  }

  lemma SlotsTaken(k: nat, len: nat)
    ensures k > FRAMES_PER_CHUNK ==> k * (1 + len) >= (FRAMES_PER_CHUNK + 1) * (1 + len)
  {
  }

  /** For frames of at least `len` bytes, one packet never takes more than its ten slots,
      whatever the frames, exactly when eleven of the smallest exceed the budget. */
  lemma SlotsSufficeIff(len: nat, budget: nat)
    ensures (forall items: seq<Item> :: (forall i :: 0 <= i < |items| ==> |items[i].data| >= len) ==>
               Fit(items, 0, budget) <= FRAMES_PER_CHUNK)
       <==> (FRAMES_PER_CHUNK + 1) * (1 + len) > budget
  {
    if (FRAMES_PER_CHUNK + 1) * (1 + len) > budget {
      forall items: seq<Item> | forall i :: 0 <= i < |items| ==> |items[i].data| >= len
        ensures Fit(items, 0, budget) <= FRAMES_PER_CHUNK
      {
        var k := Fit(items, 0, budget);
        CostAtLeast(items[..k], len);
        SlotsTaken(k, len);
      }
    } else {
      var items := Copies(Item(0, Speech, seq(len, _ => 0)), FRAMES_PER_CHUNK + 1);
      CostOfCopies(Item(0, Speech, seq(len, _ => 0)), FRAMES_PER_CHUNK + 1);
      FitAll(items, 0, budget);
    }
  }

  /** At the usual MTU of 247 that minimum is 21 bytes. */
  lemma SlotsAtUsualMtu(len: nat)
    ensures (FRAMES_PER_CHUNK + 1) * (1 + len) > Budget(247) <==> len >= 21
  {
  }

  /** It is enough that every audible frame is of such a size. */
  lemma BigFramesExceed(h: seq<Frame>, start: nat, budget: nat, len: nat)
    requires forall i :: start <= i < |h| && Audible(h[i]) ==> |h[i].data| >= len
    requires (FRAMES_PER_CHUNK + 1) * (1 + len) > budget
    ensures ElevenExceed(h, start, budget)
  {
    forall at | Chosen(h, start, |h|, at) && |at| == FRAMES_PER_CHUNK + 1 ensures TotalCost(ItemsAt(h, at)) > budget {
      CostAtLeast(ItemsAt(h, at), len);
    }
  }

  // ---- Every schedule of the producer ----

  /** Non-decreasing write counts, one per frame. */
  ghost predicate Growing(seen: seq<nat>, lo: nat, hi: nat) {
    && (forall i :: 0 <= i < |seen| ==> lo <= seen[i] <= hi)
    && forall i, j :: 0 <= i < j < |seen| ==> seen[i] <= seen[j]
  }

  /** Of the first n frames in the window, the audible ones still in the ring when read,
      seen[i] frames having been written when frame i was. */
  ghost function Lasting(h: seq<Frame>, start: nat, seen: seq<nat>, n: nat): seq<Item>
    requires n <= |seen| && start + n <= |h|
  {
    if n == 0 then []
    else
      Lasting(h, start, seen, n - 1) +
      if InWindow(start + n - 1, seen[n - 1]) && Audible(h[start + n - 1]) then [ItemAt(h[start + n - 1])] else []
  }

  lemma LastingUnfolds(h: seq<Frame>, start: nat, seen: seq<nat>, n: nat)
    requires 0 < n <= |seen| && start + n <= |h|
    ensures var kept := InWindow(start + n - 1, seen[n - 1]) && Audible(h[start + n - 1]);
      && (kept ==> Lasting(h, start, seen, n) == Lasting(h, start, seen, n - 1) + [ItemAt(h[start + n - 1])])
      && (!kept ==> Lasting(h, start, seen, n) == Lasting(h, start, seen, n - 1))
  {
  }

  lemma ChosenSnoc(h: seq<Frame>, lo: nat, hi: nat, at: seq<nat>)
    requires Chosen(h, lo, hi, at) && lo <= hi < |h|
    ensures Chosen(h, lo, hi + 1, at)
    ensures Audible(h[hi]) ==>
      Chosen(h, lo, hi + 1, at + [hi]) && ItemsAt(h, at + [hi]) == ItemsAt(h, at) + [ItemAt(h[hi])]
  {
  }

  lemma ItemsAtFits(h: seq<Frame>, lo: nat, hi: nat, at: seq<nat>)
    requires Chosen(h, lo, hi, at)
    ensures forall k :: 0 <= k < |at| ==> at[k] < |h|
  {
  }

  /** The write counts under which exactly the frames at these positions are still there
      when they are read. */
  ghost function ScheduleFor(start: nat, n: nat, at: seq<nat>): seq<nat> {
    seq(n, d requires 0 <= d < n => start + d + RING_FRAMES + if start + d in at then 0 else 1)
  }

  lemma {:induction false} ScheduleKeeps(h: seq<Frame>, start: nat, n: nat, at: seq<nat>, m: nat, c: nat)
    requires Chosen(h, start, start + n, at) && m <= n && c <= |at|
    requires forall k :: 0 <= k < |at| ==> (at[k] < start + m <==> k < c)
    ensures Lasting(h, start, ScheduleFor(start, n, at), m) == ItemsAt(h, at[..c])
  {
    if m == 0 {
      assert 0 < |at| ==> !(at[0] < start + m);
      assert at[..c] == [];
    } else {
      var f, seen := start + m - 1, ScheduleFor(start, n, at);
      LastingUnfolds(h, start, seen, m);
      if k :| 0 <= k < |at| && at[k] == f {
        assert k + 1 < |at| ==> at[k] < at[k + 1];
        ScheduleKeeps(h, start, n, at, m - 1, k);
        ItemsSnoc(h, at, k);
      } else {
        ScheduleKeeps(h, start, n, at, m - 1, c);
      }
    }
  }

  lemma ItemsSnoc(h: seq<Frame>, at: seq<nat>, k: nat)
    requires k < |at| && forall j :: 0 <= j < |at| ==> at[j] < |h|
    ensures ItemsAt(h, at[..k + 1]) == ItemsAt(h, at[..k]) + [ItemAt(h[at[k]])]
  {
  }

  /** Of frames first to i of the window, those that last, when they fit one packet, are
      not more than its ten slots. A pass of the inner loop that begins at `first` takes
      just such a stretch, up to where it stops. */
  ghost predicate FillsTen(h: seq<Frame>, start: nat, seen: seq<nat>, first: nat, i: nat, budget: nat) {
    first <= i <= |seen| && start + i <= |h| ==>
      var stretch := LastingBetween(h, start, seen, first, i);
      TotalCost(stretch) <= budget ==> |stretch| <= FRAMES_PER_CHUNK
  }

  ghost function LastingBetween(h: seq<Frame>, start: nat, seen: seq<nat>, first: nat, i: nat): seq<Item>
    requires first <= i <= |seen| && start + i <= |h|
  {
    if i == first then []
    else
      LastingBetween(h, start, seen, first, i - 1) +
      if InWindow(start + i - 1, seen[i - 1]) && Audible(h[start + i - 1]) then [ItemAt(h[start + i - 1])] else []
  }

  lemma {:induction false} LastingFromStart(h: seq<Frame>, start: nat, seen: seq<nat>, i: nat)
    requires i <= |seen| && start + i <= |h|
    ensures LastingBetween(h, start, seen, 0, i) == Lasting(h, start, seen, i)
  {
    if i > 0 { LastingFromStart(h, start, seen, i - 1); }
  }

  lemma {:induction false} BetweenIsChosen(h: seq<Frame>, start: nat, seen: seq<nat>, first: nat, i: nat)
    returns (at: seq<nat>)
    requires first <= i <= |seen| && start + i <= |h|
    ensures Chosen(h, start, start + i, at) && LastingBetween(h, start, seen, first, i) == ItemsAt(h, at)
    decreases i
  {
    if i == first {
      at := [];
    } else {
      hide *;
      var before := BetweenIsChosen(h, start, seen, first, i - 1);
      at := BetweenMore(h, start, seen, first, i, before);
    }
  }

  lemma BetweenMore(h: seq<Frame>, start: nat, seen: seq<nat>, first: nat, i: nat, before: seq<nat>)
    returns (at: seq<nat>)
    requires first < i <= |seen| && start + i <= |h|
    requires Chosen(h, start, start + i - 1, before)
    requires LastingBetween(h, start, seen, first, i - 1) == ItemsAt(h, before)
    ensures Chosen(h, start, start + i, at) && LastingBetween(h, start, seen, first, i) == ItemsAt(h, at)
  {
    hide *;
    BetweenUnfolds(h, start, seen, first, i);
    ItemsAtFits(h, start, start + i - 1, before);
    ChosenSnoc(h, start, start + i - 1, before);
    var lasts := InWindow(start + i - 1, seen[i - 1]) && Audible(h[start + i - 1]);
    at := if lasts then before + [start + i - 1] else before;
  }

  lemma BetweenUnfolds(h: seq<Frame>, start: nat, seen: seq<nat>, first: nat, i: nat)
    requires first < i <= |seen| && start + i <= |h|
    ensures var lasts := InWindow(start + i - 1, seen[i - 1]) && Audible(h[start + i - 1]);
      var before := LastingBetween(h, start, seen, first, i - 1);
      && (lasts ==> LastingBetween(h, start, seen, first, i) == before + [ItemAt(h[start + i - 1])])
      && (!lasts ==> LastingBetween(h, start, seen, first, i) == before)
  {
    NothingAround(LastingBetween(h, start, seen, first, i - 1));
  }

  /** For a window that is in the ring when the replay starts: under no schedule of the
      producer does any stretch of its frames, and so any packet, fit one packet with more
      than ten, exactly when any eleven of its audible frames are too big for one. */
  lemma SlotsSafeIff(h: seq<Frame>, start: nat, budget: nat)
    requires start <= |h| && |h| - start <= RING_FRAMES
    ensures ElevenExceed(h, start, budget) <==>
      forall seen, hi, first, i :: |seen| == |h| - start && Growing(seen, |h|, hi) ==>
        FillsTen(h, start, seen, first, i, budget)
  {
    hide *;
    var n := |h| - start;
    if ElevenExceed(h, start, budget) {
      forall seen, hi, first, i | |seen| == n && Growing(seen, |h|, hi)
        ensures FillsTen(h, start, seen, first, i, budget)
      {
        NoScheduleOverfills(h, start, seen, first, i, budget);
      }
    } else {
      var at := ElevenThatFit(h, start, budget);
      var seen := ScheduleFor(start, n, at);
      ScheduleOverfills(h, start, at, budget);
      assert Growing(seen, |h|, |h| + RING_FRAMES + 1) && !FillsTen(h, start, seen, 0, n, budget);
    }
  }

  lemma ElevenThatFit(h: seq<Frame>, start: nat, budget: nat) returns (at: seq<nat>)
    requires !ElevenExceed(h, start, budget)
    ensures Chosen(h, start, |h|, at) && |at| == FRAMES_PER_CHUNK + 1 && TotalCost(ItemsAt(h, at)) <= budget
  {
    hide TotalCost;
    at :| Chosen(h, start, |h|, at) && |at| == FRAMES_PER_CHUNK + 1 && TotalCost(ItemsAt(h, at)) <= budget;
  }

  /** The first packet of this schedule overfills. */
  lemma ScheduleOverfills(h: seq<Frame>, start: nat, at: seq<nat>, budget: nat)
    requires start <= |h| && |h| - start <= RING_FRAMES && Chosen(h, start, |h|, at)
    requires |at| == FRAMES_PER_CHUNK + 1 && TotalCost(ItemsAt(h, at)) <= budget
    ensures var n := |h| - start;
      var seen := ScheduleFor(start, n, at);
      |seen| == n && Growing(seen, |h|, |h| + RING_FRAMES + 1) && !FillsTen(h, start, seen, 0, n, budget)
  {
    hide TotalCost, Lasting, LastingBetween;
    var n := |h| - start;
    assert at[..|at|] == at;
    ScheduleKeeps(h, start, n, at, n, |at|);
    LastingFromStart(h, start, ScheduleFor(start, n, at), n);
  }

  lemma NoScheduleOverfills(h: seq<Frame>, start: nat, seen: seq<nat>, first: nat, i: nat, budget: nat)
    requires start + |seen| == |h| && ElevenExceed(h, start, budget)
    ensures FillsTen(h, start, seen, first, i, budget)
  {
    hide LastingBetween, TotalCost;
    if first <= i <= |seen| {
      var at := BetweenIsChosen(h, start, seen, first, i);
      var m := FRAMES_PER_CHUNK + 1;
      if |at| >= m {
        CostOfPrefix(ItemsAt(h, at), m);
        assert ItemsAt(h, at)[..m] == ItemsAt(h, at[..m]);
        assert Chosen(h, start, |h|, at[..m]);
      }
    }
  }

  // ---- A window that is not overwritten ----

  /** The audible frames from lo to hi. */
  ghost function AudibleItems(h: seq<Frame>, lo: nat, hi: nat): seq<Item>
    requires lo <= hi <= |h|
    decreases hi - lo
  {
    if lo == hi then []
    else (if Audible(h[lo]) then [ItemAt(h[lo])] else []) + AudibleItems(h, lo + 1, hi)
  }

  lemma {:induction false} AudibleJoins(h: seq<Frame>, lo: nat, mid: nat, hi: nat)
    requires lo <= mid <= hi <= |h|
    ensures AudibleItems(h, lo, hi) == AudibleItems(h, lo, mid) + AudibleItems(h, mid, hi)
    decreases mid - lo
  {
    if lo < mid { AudibleJoins(h, lo + 1, mid, hi); }
  }

  lemma AudibleOne(h: seq<Frame>, i: nat)
    requires i < |h|
    ensures AudibleItems(h, i, i + 1) == if Audible(h[i]) then [ItemAt(h[i])] else []
  {
  }

  /** A packet may begin with item i: packets are filled in turn, and an item too big for
      any is passed over. */
  ghost predicate Opens(items: seq<Item>, budget: nat, i: nat)
    decreases |items|
  {
    if i == 0 || items == [] then i == 0
    else
      var k := Fit(items, 0, budget);
      var step := if k == 0 then 1 else k;
      i >= step && Opens(items[step..], budget, i - step)
  }

  /** Eleven items from i on fit one packet. */
  predicate ElevenFit(items: seq<Item>, budget: nat, i: nat) {
    i + FRAMES_PER_CHUNK + 1 <= |items| && TotalCost(items[i..i + FRAMES_PER_CHUNK + 1]) <= budget
  }

  ghost predicate NoElevenFit(items: seq<Item>, budget: nat) {
    forall i: nat :: Opens(items, budget, i) ==> !ElevenFit(items, budget, i)
  }

  ghost predicate TenAtMost(groups: seq<seq<Item>>) {
    forall j :: 0 <= j < |groups| ==> |groups[j]| <= FRAMES_PER_CHUNK
  }

  /** For one window, exactly: no packet takes more than ten frames when no eleven in a row
      fit from where a packet begins. */
  lemma {:induction false} TenPerPacketIff(items: seq<Item>, budget: nat)
    ensures TenAtMost(Groups(items, budget)) <==> NoElevenFit(items, budget)
    decreases |items|
  {
    if items != [] {
      var k := Fit(items, 0, budget);
      var step := if k == 0 then 1 else k;
      TenPerPacketIff(items[step..], budget);
      FirstPacketIff(items, budget);
      NoElevenShifts(items, budget, step);
      TenAtMostShifts(items[..k], Groups(items[step..], budget));
      assert Groups(items, budget) ==
        if k == 0 then Groups(items[step..], budget) else [items[..k]] + Groups(items[step..], budget);
      hide Groups, NoElevenFit, TenAtMost, ElevenFit, Fit;
    }
  }

  lemma TenAtMostShifts(g: seq<Item>, groups: seq<seq<Item>>)
    ensures TenAtMost([g] + groups) <==> |g| <= FRAMES_PER_CHUNK && TenAtMost(groups)
  {
    var all := [g] + groups;
    assert all[0] == g;
    assert forall j :: 0 <= j < |groups| ==> all[j + 1] == groups[j];
  }

  lemma NoElevenShifts(items: seq<Item>, budget: nat, step: nat)
    requires items != [] && step == if Fit(items, 0, budget) == 0 then 1 else Fit(items, 0, budget)
    ensures NoElevenFit(items, budget) <==> !ElevenFit(items, budget, 0) && NoElevenFit(items[step..], budget)
  {
    hide Fit, ElevenFit;
    if NoElevenFit(items, budget) {
      assert Opens(items, budget, 0);
      forall i: nat | Opens(items[step..], budget, i) ensures !ElevenFit(items[step..], budget, i) {
        assert Opens(items, budget, step + i);
        ElevenShifts(items, budget, step, i);
      }
    }
    if !ElevenFit(items, budget, 0) && NoElevenFit(items[step..], budget) {
      forall i: nat | Opens(items, budget, i) ensures !ElevenFit(items, budget, i) {
        if i != 0 { ElevenShifts(items, budget, step, i - step); }
      }
    }
  }

  lemma ElevenShifts(items: seq<Item>, budget: nat, step: nat, i: nat)
    requires step <= |items|
    ensures ElevenFit(items, budget, step + i) <==> ElevenFit(items[step..], budget, i)
  {
    if step + i + FRAMES_PER_CHUNK + 1 <= |items| {
      assert items[step..][i..i + FRAMES_PER_CHUNK + 1] == items[step + i..step + i + FRAMES_PER_CHUNK + 1];
    }
  }

  lemma FirstPacketIff(items: seq<Item>, budget: nat)
    ensures Fit(items, 0, budget) > FRAMES_PER_CHUNK <==> ElevenFit(items, budget, 0)
  {
    var k, m := Fit(items, 0, budget), FRAMES_PER_CHUNK + 1;
    if k >= m {
      CostOfPrefix(items[..k], m);
      assert items[..k][..m] == items[0..m];
    } else if m <= |items| {
      FitTooFew(items, 0, budget, m);
      assert items[0..m] == items[..m];
    }
  }

  lemma {:induction false} FitTooFew(items: seq<Item>, used: nat, budget: nat, m: nat)
    requires Fit(items, used, budget) < m <= |items|
    ensures used + TotalCost(items[..m]) > budget
    decreases |items|
  {
    assert items[..m][1..] == items[1..][..m - 1];
    if used + Cost(items[0]) <= budget {
      FitTooFew(items[1..], used + Cost(items[0]), budget, m - 1);
    }
  }

  /** No frame from lo to hi was overwritten before it was read. */
  ghost predicate NoLoss(start: nat, seen: seq<nat>, lo: nat, hi: nat) {
    hi <= |seen| && forall k :: lo <= k < hi ==> InWindow(start + k, seen[k])
  }

  /** The inner loop took every audible frame up to i, and stopped there at the end or
      before one that does not fit with them; */
  ghost predicate TookAll(h: seq<Frame>, start: nat, n: nat, first: nat, i: nat, budget: nat, group: seq<Item>)
    requires first < i <= n && start + n <= |h|
  {
    && AudibleItems(h, start + first, start + i) == group && TotalCost(group) <= budget
    && (i < n ==> group != [] && Audible(h[start + i]) && TotalCost(group) + Cost(ItemAt(h[start + i])) > budget)
  }

  /** or it took none and passed over one that fits no packet. */
  ghost predicate PassedOver(h: seq<Frame>, start: nat, n: nat, first: nat, i: nat, budget: nat, group: seq<Item>)
    requires first < i <= n && start + n <= |h|
  {
    && group == [] && AudibleItems(h, start + first, start + i - 1) == []
    && Audible(h[start + i - 1]) && Cost(ItemAt(h[start + i - 1])) > budget
  }

  function NonEmptyGroup(group: seq<Item>): seq<seq<Item>> { if group == [] then [] else [group] }

  /** The groups that hold anything. */
  function NonEmptyGroups(groups: seq<seq<Item>>): seq<seq<Item>> {
    if groups == [] then [] else NonEmptyGroups(groups[..|groups| - 1]) + NonEmptyGroup(groups[|groups| - 1])
  }

  /** So each pass of the outer loop takes the next group of the window's audible frames. */
  lemma StopsAtGroup(h: seq<Frame>, start: nat, n: nat, first: nat, i: nat, budget: nat, group: seq<Item>)
    requires first < i <= n && start + n <= |h|
    requires TookAll(h, start, n, first, i, budget, group) || PassedOver(h, start, n, first, i, budget, group)
    ensures Groups(AudibleItems(h, start + first, start + n), budget) ==
      NonEmptyGroup(group) + Groups(AudibleItems(h, start + i, start + n), budget)
  {
    hide *;
    if TookAll(h, start, n, first, i, budget, group) {
      TookGroup(h, start, n, first, i, budget, group);
    } else {
      PassedGroup(h, start, n, first, i, budget, group);
    }
  }

  lemma TookGroup(h: seq<Frame>, start: nat, n: nat, first: nat, i: nat, budget: nat, group: seq<Item>)
    requires first < i <= n && start + n <= |h| && TookAll(h, start, n, first, i, budget, group)
    ensures Groups(AudibleItems(h, start + first, start + n), budget) ==
      NonEmptyGroup(group) + Groups(AudibleItems(h, start + i, start + n), budget)
  {
    hide *;
    AudibleJoins(h, start + first, start + i, start + n);
    TookMeans(h, start, n, first, i, budget, group);
    GroupsTake(group, AudibleItems(h, start + i, start + n), budget);
  }

  lemma TookMeans(h: seq<Frame>, start: nat, n: nat, first: nat, i: nat, budget: nat, group: seq<Item>)
    requires first < i <= n && start + n <= |h| && TookAll(h, start, n, first, i, budget, group)
    ensures AudibleItems(h, start + first, start + i) == group && TotalCost(group) <= budget
    ensures var rest := AudibleItems(h, start + i, start + n);
      rest != [] ==> group != [] && TotalCost(group) + Cost(rest[0]) > budget
  {
    hide TotalCost, Cost, Audible;
    if i < n { assert AudibleItems(h, start + i, start + n)[0] == ItemAt(h[start + i]); }
  }

  lemma PassedGroup(h: seq<Frame>, start: nat, n: nat, first: nat, i: nat, budget: nat, group: seq<Item>)
    requires first < i <= n && start + n <= |h| && PassedOver(h, start, n, first, i, budget, group)
    ensures Groups(AudibleItems(h, start + first, start + n), budget) ==
      NonEmptyGroup(group) + Groups(AudibleItems(h, start + i, start + n), budget)
  {
    hide *;
    AudibleJoins(h, start + first, start + i, start + n);
    PassedMeans(h, start, n, first, i, budget, group);
    GroupsPass(ItemAt(h[start + i - 1]), AudibleItems(h, start + i, start + n), budget);
    NothingAround(Groups(AudibleItems(h, start + i, start + n), budget));
  }

  lemma PassedMeans(h: seq<Frame>, start: nat, n: nat, first: nat, i: nat, budget: nat, group: seq<Item>)
    requires first < i <= n && start + n <= |h| && PassedOver(h, start, n, first, i, budget, group)
    ensures AudibleItems(h, start + first, start + i) == [ItemAt(h[start + i - 1])]
    ensures Cost(ItemAt(h[start + i - 1])) > budget && NonEmptyGroup(group) == []
  {
    hide AudibleItems, Audible;
    AudibleJoins(h, start + first, start + i - 1, start + i);
    AudibleOne(h, start + i - 1);
    NothingAround([ItemAt(h[start + i - 1])]);
  }

  lemma GroupsTake(group: seq<Item>, rest: seq<Item>, budget: nat)
    requires TotalCost(group) <= budget
    requires rest != [] ==> group != [] && TotalCost(group) + Cost(rest[0]) > budget
    ensures Groups(group + rest, budget) == NonEmptyGroup(group) + Groups(rest, budget)
  {
    FitStops(group, rest, 0, budget);
    assert (group + rest)[..|group|] == group && (group + rest)[|group|..] == rest;
  }

  lemma GroupsPass(big: Item, rest: seq<Item>, budget: nat)
    requires Cost(big) > budget
    ensures Groups([big] + rest, budget) == Groups(rest, budget)
  {
    assert ([big] + rest)[1..] == rest;
  }
}
