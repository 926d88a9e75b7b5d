/** The device's command handler, commands.c: verify, dedupe against the last sixteen
    ids, remember, execute, ack. Ids are C strings: sequences of characters other than
    NUL. */
module Commands {
  import opened Arithmetic

  const CMD_DEDUPE_N := 16
  const CMD_ID_MAX := 64

  /** snprintf into a 64-byte slot keeps 63 characters. */
  function Stored(id: string): string { id[..Min(|id|, CMD_ID_MAX - 1)] }

  /** strncmp(a, b, n) == 0 on NUL-terminated strings. */
  predicate StrnEqual(a: string, b: string, n: nat) { a[..Min(|a|, n)] == b[..Min(|b|, n)] }

  /** What a delivery carries once signature and JSON are checked. */
  datatype Delivery = Rejected | Verified(id: string, room: bool)

  /** `log`: every id remembered, oldest first; `enqueued`: ids the executor queue took;
      `acked`: acks sent. `room` in a delivery says whether that queue had room. */
  datatype Device = Device(log: seq<string>, enqueued: seq<string>, acked: seq<string>)

  const Fresh := Device([], [], [])

  /** The id is among the last sixteen stored, unfilled slots counting as empty strings. */
  predicate Seen(log: seq<string>, id: string) {
    || (|log| < CMD_DEDUPE_N && id == "")
    || exists k :: 0 <= k < |log| && |log| - k <= CMD_DEDUPE_N && Stored(log[k]) == id
  }

  function Step(d: Device, m: Delivery): Device {
    if m.Rejected? then d
    else if Seen(d.log, m.id) then d.(acked := d.acked + [m.id])
    else if m.room then Device(d.log + [m.id], d.enqueued + [m.id], d.acked + [m.id])
    else d.(log := d.log + [m.id])
  }

  function Run(d: Device, ms: seq<Delivery>): Device {
    if ms == [] then d else Step(Run(d, ms[..|ms| - 1]), ms[|ms| - 1])
  }

  class Receiver {
    const slots: array<string>
    var head: nat
    ghost var d: Device

    ghost predicate Valid()
      reads this, slots
    {
      && slots.Length == CMD_DEDUPE_N
      && head == |d.log| % CMD_DEDUPE_N
      && forall i :: 0 <= i < CMD_DEDUPE_N ==> slots[i] == SlotAfter(d.log, i)
    }

    constructor ()
      ensures Valid() && d == Fresh && fresh(slots)
    {
      slots := new string[CMD_DEDUPE_N](_ => "");
      head := 0;
      d := Fresh;
    }

    method AlreadySeen(id: string) returns (r: bool)
      requires Valid()
      ensures r == Seen(d.log, id)
    {
      for i := 0 to CMD_DEDUPE_N
        invariant forall j :: 0 <= j < i ==> slots[j] != id
      {
        StoredCompares(slots[i], id, d.log, i);
        if StrnEqual(slots[i], id, CMD_ID_MAX) {
          SlotsAreRecent(d.log, id, i);
          return true;
        }
      }
      NoSlotNotSeen(d.log, id);
      return false;
    }

    method Remember(id: string)
      requires Valid()
      modifies this, slots
      ensures Valid() && d == old(d).(log := old(d).log + [id])
    {
      SlotsAfterOne(d.log, id);
      slots[head] := Stored(id);
      head := (head + 1) % CMD_DEDUPE_N;
      d := d.(log := d.log + [id]);
    }

    /** `room` is what the executor queue answers if it is asked. */
    method Handle(m: Delivery) returns (acked: bool)
      requires Valid()
      modifies this, slots
      ensures Valid() && d == Step(old(d), m)
      ensures acked <==> |d.acked| > |old(d).acked|
    {
      acked := false;
      if m.Rejected? {
        return;
      }
      var seen := AlreadySeen(m.id);
      if seen {
        acked := true;
      } else {
        Remember(m.id);
        if m.room {
          d := d.(enqueued := d.enqueued + [m.id]);
          acked := true;
        }
      }
      if acked {
        d := d.(acked := d.acked + [m.id]);
      }
    }
  }

  // ---- The slot array is the recent end of the log ----

  /** What slot i holds after these ids were remembered in turn. */
  ghost function SlotAfter(log: seq<string>, i: nat): string
    requires i < CMD_DEDUPE_N
  {
    if log == [] then ""
    else if (|log| - 1) % CMD_DEDUPE_N == i then Stored(log[|log| - 1])
    else SlotAfter(log[..|log| - 1], i)
  }

  lemma SlotsAfterOne(log: seq<string>, id: string)
    ensures forall i :: 0 <= i < CMD_DEDUPE_N ==>
      SlotAfter(log + [id], i) == if i == |log| % CMD_DEDUPE_N then Stored(id) else SlotAfter(log, i)
    ensures |log + [id]| % CMD_DEDUPE_N == (|log| % CMD_DEDUPE_N + 1) % CMD_DEDUPE_N
  {
    assert (log + [id])[..|log|] == log;
  }

  /** Slot k modulo sixteen holds entry k while it is among the last sixteen. */
  lemma {:induction false} SlotAt(log: seq<string>, k: nat)
    requires k < |log| && |log| - k <= CMD_DEDUPE_N
    ensures SlotAfter(log, k % CMD_DEDUPE_N) == Stored(log[k])
  {
    if k < |log| - 1 {
      SlotsDiffer(k, |log| - 1, CMD_DEDUPE_N);
      SlotAt(log[..|log| - 1], k);
    }
  }

  lemma {:induction false} SlotShort(log: seq<string>, i: nat)
    requires i < CMD_DEDUPE_N
    ensures |SlotAfter(log, i)| < CMD_ID_MAX
    ensures |log| <= i ==> SlotAfter(log, i) == ""
  {
    if log != [] { SlotShort(log[..|log| - 1], i); }
  }

  /** A slot holds at most 63 characters, so the bounded compare is exact. */
  lemma StoredCompares(slot: string, id: string, log: seq<string>, i: nat)
    requires i < CMD_DEDUPE_N && slot == SlotAfter(log, i)
    ensures StrnEqual(slot, id, CMD_ID_MAX) <==> slot == id
  {
    SlotShort(log, i);
    assert slot[..|slot|] == slot;
    assert id[..|id|] == id;
  }

  /** The last position up to n that falls in slot i. */
  function LatestAt(n: nat, i: nat): (k: nat)
    requires i <= n && i < CMD_DEDUPE_N
    ensures k <= n && k % CMD_DEDUPE_N == i
    ensures forall j :: k < j <= n ==> j % CMD_DEDUPE_N != i
  {
    if n % CMD_DEDUPE_N == i then n else LatestAt(n - 1, i)
  }

  lemma SlotsAreRecent(log: seq<string>, id: string, i: nat)
    requires i < CMD_DEDUPE_N && SlotAfter(log, i) == id
    ensures Seen(log, id)
  {
    SlotShort(log, i);
    if i < |log| {
      var k := LatestAt(|log| - 1, i);
      assert (k + CMD_DEDUPE_N) % CMD_DEDUPE_N == i;
      SlotAt(log, k);
    }
  }

  lemma NoSlotNotSeen(log: seq<string>, id: string)
    requires forall i :: 0 <= i < CMD_DEDUPE_N ==> SlotAfter(log, i) != id
    ensures !Seen(log, id)
  {
    if |log| < CMD_DEDUPE_N { SlotShort(log, |log|); }
    forall k | 0 <= k < |log| && |log| - k <= CMD_DEDUPE_N ensures Stored(log[k]) != id {
      SlotAt(log, k);
    }
  }

  // ---- What every run keeps ----

  /** Ids the dedupe compare handles exactly. */
  predicate Normal(id: string) { 1 <= |id| < CMD_ID_MAX }

  ghost predicate AllNormal(ms: seq<Delivery>) {
    forall i :: 0 <= i < |ms| && ms[i].Verified? ==> Normal(ms[i].id)
  }

  lemma StoredNormal(id: string)
    ensures Normal(id) ==> Stored(id) == id
    ensures Stored(id) == id <==> |id| < CMD_ID_MAX
  {
  }

  /** `enqueued` picks out positions of `log`, in order. */
  ghost predicate PicksFrom(enqueued: seq<string>, at: seq<nat>, log: seq<string>) {
    && |at| == |enqueued|
    && (forall i :: 0 <= i < |at| ==> at[i] < |log| && log[at[i]] == enqueued[i])
    && forall i, j :: 0 <= i < j < |at| ==> at[i] < at[j]
  }

  /** Equal remembered ids lie more than sixteen apart. */
  ghost predicate Spaced(log: seq<string>) {
    forall i, j :: 0 <= i < j < |log| && log[i] == log[j] ==> j - i > CMD_DEDUPE_N
  }

  ghost predicate Kept(d: Device) {
    && Spaced(d.log)
    && (forall i :: 0 <= i < |d.log| ==> Normal(d.log[i]))
    && (forall i :: 0 <= i < |d.acked| ==> d.acked[i] in d.log)
  }

  lemma StepKeeps(d: Device, m: Delivery)
    requires Kept(d) && (m.Verified? ==> Normal(m.id))
    ensures Kept(Step(d, m))
  {
    if m.Verified? {
      if Seen(d.log, m.id) {
        var k :| 0 <= k < |d.log| && |d.log| - k <= CMD_DEDUPE_N && Stored(d.log[k]) == m.id;
        StoredNormal(d.log[k]);
      } else {
        forall i | 0 <= i < |d.log| && d.log[i] == m.id ensures |d.log| - i > CMD_DEDUPE_N {
          StoredNormal(m.id);
        }
      }
    }
  }

  lemma {:induction false} AlwaysKept(ms: seq<Delivery>)
    requires AllNormal(ms)
    ensures Kept(Run(Fresh, ms))
  {
    if ms != [] {
      AlwaysKept(ms[..|ms| - 1]);
      StepKeeps(Run(Fresh, ms[..|ms| - 1]), ms[|ms| - 1]);
    }
  }

  lemma {:induction false} AlwaysPicked(ms: seq<Delivery>) returns (at: seq<nat>)
    ensures PicksFrom(Run(Fresh, ms).enqueued, at, Run(Fresh, ms).log)
  {
    if ms == [] {
      at := [];
    } else {
      at := AlwaysPicked(ms[..|ms| - 1]);
      var d, d' := Run(Fresh, ms[..|ms| - 1]), Run(Fresh, ms);
      if d'.enqueued != d.enqueued { at := at + [|d.log|]; }
    }
  }

  /** For ids of 1 to 63 characters, in every run: an acked id was remembered; executions
      are a selection of the remembered ids in order; and between two executions of one
      id at least sixteen other ids, all different, were remembered. */
  lemma ExecutionsAreSpaced(ms: seq<Delivery>) returns (at: seq<nat>)
    requires AllNormal(ms)
    ensures var d := Run(Fresh, ms);
      && (forall id :: id in d.acked ==> id in d.log)
      && PicksFrom(d.enqueued, at, d.log)
      && forall i, j :: 0 <= i < j < |at| && d.enqueued[i] == d.enqueued[j] ==>
           && at[j] - at[i] > CMD_DEDUPE_N
           && forall p, q :: at[i] <= p < q <= at[i] + CMD_DEDUPE_N ==> d.log[p] != d.log[q]
  {
    at := AlwaysPicked(ms);
    AlwaysKept(ms);
  }

  // ---- "At most once", and when it holds ----

  /** How many entries come after the last occurrence of x, or all if there is none. */
  function Following(xs: seq<string>, x: string): nat {
    if xs == [] || xs[|xs| - 1] == x then 0 else 1 + Following(xs[..|xs| - 1], x)
  }

  lemma {:induction false} FollowingIs(xs: seq<string>, x: string, n: nat)
    requires x in xs
    ensures Following(xs, x) < n <==> exists k :: 0 <= k < |xs| && |xs| - k <= n && xs[k] == x
  {
    var m := |xs| - 1;
    if xs[m] == x {
      if n > 0 { assert |xs| - m <= n; }
    } else {
      assert xs == xs[..m] + [xs[m]];
      FollowingIs(xs[..m], x, if n == 0 then 0 else n - 1);
      if k :| 0 <= k < |xs| && |xs| - k <= n && xs[k] == x {
        assert xs[..m][k] == x && |xs[..m]| - k <= n - 1;
      }
      if k :| 0 <= k < m && m - k <= n - 1 && xs[..m][k] == x { assert xs[k] == x && |xs| - k <= n; }
    }
  }

  /** A well-formed id is seen exactly while fewer than sixteen others were remembered
      after it. */
  lemma SeenIff(log: seq<string>, id: string)
    requires Normal(id) && forall i :: 0 <= i < |log| ==> Normal(log[i])
    ensures Seen(log, id) <==> id in log && Following(log, id) < 16
  {
    forall k | 0 <= k < |log| ensures Stored(log[k]) == log[k] { StoredNormal(log[k]); }
    if id in log { FollowingIs(log, id, CMD_DEDUPE_N); }
  }

  ghost predicate NoRepeats(xs: seq<string>) {
    forall i, j :: 0 <= i < j < |xs| ==> xs[i] != xs[j]
  }

  lemma RepeatsGrow(xs: seq<string>, x: string)
    ensures NoRepeats(xs + [x]) <==> NoRepeats(xs) && x !in xs
  {
    var ys := xs + [x];
    assert forall i :: 0 <= i < |xs| ==> ys[i] == xs[i];
    if x in xs {
      var k :| 0 <= k < |xs| && xs[k] == x;
      assert ys[k] == ys[|xs|];
    }
  }

  /** The delivery would run again an id that has run: there is room, and sixteen other ids
      were remembered after it. */
  predicate Outlived(d: Device, m: Delivery) {
    m.Verified? && m.room && m.id in d.enqueued && Following(d.log, m.id) >= CMD_DEDUPE_N
  }

  ghost predicate NeverOutlived(ms: seq<Delivery>) {
    forall i :: 0 <= i < |ms| ==> !Outlived(Run(Fresh, ms[..i]), ms[i])
  }

  lemma NeverOutlivedSplits(ms: seq<Delivery>, n: nat)
    requires |ms| == n + 1
    ensures NeverOutlived(ms) <==> NeverOutlived(ms[..n]) && !Outlived(Run(Fresh, ms[..n]), ms[n])
  {
    hide Outlived, Run;
    assert forall i :: 0 <= i < n ==> ms[..n][..i] == ms[..i] && ms[..n][i] == ms[i];
  }

  lemma StepRepeats(d: Device, m: Delivery)
    requires Kept(d) && (m.Verified? ==> Normal(m.id)) && (forall id :: id in d.enqueued ==> id in d.log)
    ensures NoRepeats(Step(d, m).enqueued) <==> NoRepeats(d.enqueued) && !Outlived(d, m)
    ensures forall id :: id in Step(d, m).enqueued ==> id in Step(d, m).log
  {
    if m.Verified? {
      SeenIff(d.log, m.id);
      RepeatsGrow(d.enqueued, m.id);
      hide Seen, Following, NoRepeats;
    }
  }

  lemma {:induction false} EnqueuedWasRemembered(ms: seq<Delivery>)
    requires AllNormal(ms)
    ensures forall id :: id in Run(Fresh, ms).enqueued ==> id in Run(Fresh, ms).log
  {
    if ms != [] {
      EnqueuedWasRemembered(ms[..|ms| - 1]);
      AlwaysKept(ms[..|ms| - 1]);
      StepRepeats(Run(Fresh, ms[..|ms| - 1]), ms[|ms| - 1]);
    }
  }

  /** Whatever the executor refuses, each id runs at most once exactly when no delivery
      that finds room repeats an id that has run and after which sixteen others were
      remembered. */
  lemma {:induction false} AtMostOnceIff(ms: seq<Delivery>)
    requires AllNormal(ms)
    ensures NoRepeats(Run(Fresh, ms).enqueued) <==> NeverOutlived(ms)
    decreases |ms|
  {
    if ms != [] {
      var n := |ms| - 1;
      AtMostOnceIff(ms[..n]);
      NeverOutlivedSplits(ms, n);
      AlwaysKept(ms[..n]);
      EnqueuedWasRemembered(ms[..n]);
      hide NoRepeats, NeverOutlived, Outlived, Kept, Step;
      StepRepeats(Run(Fresh, ms[..n]), ms[n]);
    }
  }

  /** The ids delivered, in order of first delivery. */
  function Firsts(ms: seq<Delivery>): seq<string> {
    if ms == [] then []
    else
      var firsts, m := Firsts(ms[..|ms| - 1]), ms[|ms| - 1];
      if m.Verified? && m.id !in firsts then firsts + [m.id] else firsts
  }

  /** Delivery j brings a new id, or one after whose first delivery fewer than sixteen
      other ids were first delivered. */
  predicate InTime(ms: seq<Delivery>, j: nat)
    requires j < |ms|
  {
    var firsts := Firsts(ms[..j]);
    ms[j].Verified? && ms[j].id in firsts ==> Following(firsts, ms[j].id) < CMD_DEDUPE_N
  }

  ghost predicate AllInTime(ms: seq<Delivery>) { forall j :: 0 <= j < |ms| ==> InTime(ms, j) }

  lemma AllInTimeSplits(ms: seq<Delivery>, n: nat)
    requires |ms| == n + 1
    ensures AllInTime(ms) <==> AllInTime(ms[..n]) && InTime(ms, n)
  {
    hide Firsts, Following;
    forall j | 0 <= j < n ensures InTime(ms[..n], j) == InTime(ms, j) { assert ms[..n][..j] == ms[..j]; }
  }

  ghost predicate AlwaysRoom(ms: seq<Delivery>) {
    forall i :: 0 <= i < |ms| && ms[i].Verified? ==> ms[i].room
  }

  /** While the executor has room, each id runs at most once, and the commands run in order
      of first delivery, exactly when every repeat comes before sixteen other ids have
      been delivered for the first time since. */
  lemma {:induction false} OnceWithRoomIff(ms: seq<Delivery>)
    requires AllNormal(ms) && AlwaysRoom(ms)
    ensures NoRepeats(Run(Fresh, ms).enqueued) <==> AllInTime(ms)
    ensures AllInTime(ms) ==> Run(Fresh, ms).enqueued == Firsts(ms)
    decreases |ms|
  {
    if ms != [] {
      var n := |ms| - 1;
      OnceWithRoomIff(ms[..n]);
      var d := Run(Fresh, ms[..n]);
      AllInTimeSplits(ms, n);
      AlwaysKept(ms[..n]);
      EnqueuedIsLog(ms[..n]);
      EnqueuedWasRemembered(ms[..n]);
      StepRepeats(d, ms[n]);
      if ms[n].Verified? { SeenIff(d.log, ms[n].id); }
      hide Seen, Following, NoRepeats, Kept;
    }
  }

  lemma {:induction false} EnqueuedIsLog(ms: seq<Delivery>)
    requires AlwaysRoom(ms)
    ensures Run(Fresh, ms).enqueued == Run(Fresh, ms).log
  {
    if ms != [] { EnqueuedIsLog(ms[..|ms| - 1]); }
  }

  /** Seventeen different one-character ids, then the first again. */
  function Wraparound(n: nat): seq<Delivery>
    requires n <= 17
  {
    seq(n, i requires 0 <= i < n => Verified([(65 + i) as char], true))
  }

  lemma {:induction false} WraparoundLog(n: nat)
    requires n <= 17
    ensures var d := Run(Fresh, Wraparound(n));
      |d.log| == n && d.enqueued == d.log && forall i :: 0 <= i < n ==> d.log[i] == [(65 + i) as char]
  {
    if n > 0 {
      WraparoundLog(n - 1);
      assert Wraparound(n)[..n - 1] == Wraparound(n - 1);
      var d := Run(Fresh, Wraparound(n - 1));
      forall k | 0 <= k < |d.log| ensures Stored(d.log[k]) != [(65 + (n - 1)) as char] {
        assert d.log[k][0] == (65 + k) as char;
      }
    }
  }

  /** The limit is real: sixteen other ids later the device executes an id again. */
  lemma ExecutedTwice()
    ensures var d := Run(Fresh, Wraparound(17) + [Verified("A", true)]);
      |d.enqueued| == 18 && d.enqueued[0] == d.enqueued[17] == "A"
  {
    WraparoundLog(17);
    var ms := Wraparound(17) + [Verified("A", true)];
    assert ms[..17] == Wraparound(17);
    var d := Run(Fresh, Wraparound(17));
    forall k | 1 <= k < 17 ensures Stored(d.log[k]) != "A" { assert d.log[k][0] == (65 + k) as char; }
  }

  /** A redelivery right after the first is recognised exactly for ids below 64
      characters: a longer one is stored cut and never matches. */
  lemma RedeliveryRecognisedIff(d: Device, id: string, room: bool)
    requires !Seen(d.log, id)
    ensures Seen(Step(d, Verified(id, room)).log, id) <==> |id| < 64
  {
    StoredNormal(id);
    var log := Step(d, Verified(id, room)).log;
    assert log[|d.log|] == id;
  }

  /** A delivery of the empty id is acked without execution exactly until sixteen ids have
      filled the slots, and after that while it is itself among the last sixteen. */
  lemma EmptyIdAckedIff(d: Device, room: bool)
    ensures Step(d, Verified("", room)) == d.(acked := d.acked + [""]) <==>
      |d.log| < 16 || ("" in d.log && Following(d.log, "") < 16)
  {
    if "" in d.log { FollowingIs(d.log, "", CMD_DEDUPE_N); }
    assert forall k :: 0 <= k < |d.log| ==> (Stored(d.log[k]) == "" <==> d.log[k] == "");
    assert Seen(d.log, "") <==>
      |d.log| < CMD_DEDUPE_N || ("" in d.log && Following(d.log, "") < CMD_DEDUPE_N);
  }

  // ---- "Acked implies enqueued", and when it holds ----

  /** The queue had room whenever an id was new. */
  ghost predicate RoomForNew(ms: seq<Delivery>) {
    forall i :: 0 <= i < |ms| && ms[i].Verified? && !Seen(Run(Fresh, ms[..i]).log, ms[i].id) ==> ms[i].room
  }

  lemma {:induction false} AckedWasEnqueued(ms: seq<Delivery>)
    requires AllNormal(ms) && RoomForNew(ms)
    ensures var d := Run(Fresh, ms); d.enqueued == d.log && forall id :: id in d.acked ==> id in d.enqueued
  {
    if ms != [] {
      var n := |ms| - 1;
      assert forall i :: 0 <= i < n ==> ms[..n][..i] == ms[..i];
      AckedWasEnqueued(ms[..n]);
      AlwaysKept(ms);
    }
  }

  lemma RunMore(d: Device, ms: seq<Delivery>, n: nat)
    requires |ms| == n + 1
    ensures Run(d, ms) == Step(Run(d, ms[..n]), ms[n])
  {
  }

  lemma SeenAt(log: seq<string>, id: string, p: nat)
    requires Normal(id) && p < |log| && |log| - p <= CMD_DEDUPE_N && log[p] == id
    ensures Seen(log, id)
  {
    StoredNormal(id);
  }

  lemma StepKeepsPlace(d: Device, m: Delivery, id: string, p: nat)
    requires Normal(id) && p < |d.log| && d.log[p] == id && |Step(d, m).log| - p <= CMD_DEDUPE_N
    ensures d.log <= Step(d, m).log && (id in Step(d, m).enqueued <==> id in d.enqueued)
  {
    SeenAt(d.log, id, p);
    hide Seen;
  }

  /** An id at place p of the log is not run again while it is among the last sixteen. */
  lemma {:induction false} StaysPut(d: Device, ms: seq<Delivery>, id: string, p: nat)
    requires Normal(id) && p < |d.log| && d.log[p] == id && |Run(d, ms).log| - p <= CMD_DEDUPE_N
    ensures d.log <= Run(d, ms).log && (id in Run(d, ms).enqueued <==> id in d.enqueued)
    decreases |ms|
  {
    if ms != [] {
      var n := |ms| - 1;
      RunMore(d, ms, n);
      hide Run, Step;
      LogOnlyGrows(Run(d, ms[..n]), ms[n]);
      StaysPut(d, ms[..n], id, p);
      StepKeepsPlace(Run(d, ms[..n]), ms[n], id, p);
    }
  }

  lemma LogOnlyGrows(d: Device, m: Delivery)
    ensures d.log <= Step(d, m).log
  {
  }

  /** The id is remembered before the queue is asked. So when a new id is delivered again,
      after any deliveries by which fewer than sixteen other ids were remembered, the
      repeat is acked and nothing is executed; and the command was enqueued exactly when
      the queue had room at the first delivery. */
  lemma FirstDeliveryDecides(d: Device, id: string, room: bool, between: seq<Delivery>, again: bool)
    requires Normal(id) && !Seen(d.log, id) && id !in d.enqueued
    requires |Run(Step(d, Verified(id, room)), between).log| - |d.log| <= CMD_DEDUPE_N
    ensures var e := Run(Step(d, Verified(id, room)), between);
      Step(e, Verified(id, again)) == e.(acked := e.acked + [id]) && (id in e.enqueued <==> room)
  {
    var first := Step(d, Verified(id, room));
    assert first.log == d.log + [id] && (id in first.enqueued <==> room);
    assert first.log[|d.log|] == id;
    hide Step, Seen;
    StaysPut(first, between, id, |d.log|);
    var e := Run(first, between);
    SeenAt(e.log, id, |d.log|);
    SeenIsAcked(e, id, again);
  }

  lemma SeenIsAcked(d: Device, id: string, room: bool)
    requires Seen(d.log, id)
    ensures Step(d, Verified(id, room)) == d.(acked := d.acked + [id])
  {
  }

  // ---- What a delivery does ----

  /** A rejected delivery leaves no trace. A verified one is acked, once, exactly when its
      id is recognised or the queue has room; it is enqueued exactly when it is new and
      the queue has room, and remembered exactly when it is new. */
  lemma DeliveryIs(d: Device, m: Delivery)
    ensures m.Rejected? ==> Step(d, m) == d
    ensures m.Verified? ==>
      var e, seen := Step(d, m), Seen(d.log, m.id);
      && e.acked == (if seen || m.room then d.acked + [m.id] else d.acked)
      && e.enqueued == (if !seen && m.room then d.enqueued + [m.id] else d.enqueued)
      && e.log == (if seen then d.log else d.log + [m.id])
  {
  }

  /** Delivery i is acked: its id is recognised, or the queue has room. */
  ghost predicate Acks(ms: seq<Delivery>, i: nat)
    requires i < |ms|
  {
    ms[i].Verified? && (ms[i].room || Seen(Run(Fresh, ms[..i]).log, ms[i].id))
  }

  /** These acks answer the deliveries at these places, in order. */
  ghost predicate AckedAt(ms: seq<Delivery>, n: nat, acked: seq<string>, at: seq<nat>)
    requires n <= |ms|
  {
    && |at| == |acked| && (forall j, k :: 0 <= j < k < |at| ==> at[j] < at[k])
    && (forall k :: 0 <= k < |at| ==> at[k] < n && ms[at[k]].Verified? && acked[k] == ms[at[k]].id)
    && forall i :: 0 <= i < n ==> (i in at <==> Acks(ms, i))
  }

  lemma AckedNext(ms: seq<Delivery>, n: nat, acked: seq<string>, at: seq<nat>) returns (more: seq<nat>)
    requires n < |ms| && AckedAt(ms, n, acked, at)
    ensures Acks(ms, n) ==> AckedAt(ms, n + 1, acked + [ms[n].id], more)
    ensures !Acks(ms, n) ==> AckedAt(ms, n + 1, acked, more)
  {
    assert Acks(ms, n) ==> ms[n].Verified?;
    hide Acks;
    if Acks(ms, n) {
      more := at + [n];
      assert forall i :: i in more <==> i in at || i == n;
    } else {
      more := at;
      assert n !in at;
    }
  }

  lemma DeliveryAcks(ms: seq<Delivery>, n: nat)
    requires n < |ms|
    ensures var d, e := Run(Fresh, ms[..n]), Run(Fresh, ms[..n + 1]);
      && e.acked == (if Acks(ms, n) then d.acked + [ms[n].id] else d.acked)
      && ((forall id :: id in d.enqueued ==> id in d.acked) ==> forall id :: id in e.enqueued ==> id in e.acked)
  {
    assert ms[..n + 1][..n] == ms[..n];
    RunMore(Fresh, ms[..n + 1], n);
    DeliveryIs(Run(Fresh, ms[..n]), ms[n]);
    hide Run, Step, Seen;
  }

  lemma {:induction false} AlwaysAckedAt(ms: seq<Delivery>, n: nat) returns (at: seq<nat>)
    requires n <= |ms|
    ensures var d := Run(Fresh, ms[..n]);
      AckedAt(ms, n, d.acked, at) && forall id :: id in d.enqueued ==> id in d.acked
  {
    if n == 0 {
      at := [];
    } else {
      at := AlwaysAckedAt(ms, n - 1);
      hide *;
      DeliveryAcks(ms, n - 1);
      at := AckedNext(ms, n - 1, Run(Fresh, ms[..n - 1]).acked, at);
    }
  }

  /** A command that ran is acked, and the acks are sent in order of delivery: they are the
      verified deliveries but those of ids not recognised that a full queue refused. */
  lemma AcksAre(ms: seq<Delivery>) returns (at: seq<nat>)
    ensures var d := Run(Fresh, ms);
      && (forall id :: id in d.enqueued ==> id in d.acked)
      && |at| == |d.acked| && (forall j, k :: 0 <= j < k < |at| ==> at[j] < at[k])
      && (forall k :: 0 <= k < |at| ==> at[k] < |ms| && ms[at[k]].Verified? && d.acked[k] == ms[at[k]].id)
      && forall i :: 0 <= i < |ms| ==>
           (i in at <==> ms[i].Verified? && (ms[i].room || Seen(Run(Fresh, ms[..i]).log, ms[i].id)))
  {
    at := AlwaysAckedAt(ms, |ms|);
    assert ms[..|ms|] == ms;
    hide Run, Seen;
  }
}
