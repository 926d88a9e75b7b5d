/** The BLE notify path as the drainer sees it: each call may succeed, find the buffer
    pool exhausted, or find nobody subscribed, for reasons outside this model. */
module Link {
  import opened C6Types

  const DELIVERED := 0
  const NO_BUFFERS := -1
  const NO_SUBSCRIBER := -2

  /** a is b with some entries missing. */
  ghost predicate Subsequence<T>(a: seq<T>, b: seq<T>)
    decreases |b|
  {
    if a == [] then true
    else if b == [] then false
    else
      || (a[|a| - 1] == b[|b| - 1] && Subsequence(a[..|a| - 1], b[..|b| - 1]))
      || Subsequence(a, b[..|b| - 1])
  }

  lemma SubsequenceSkip<T>(a: seq<T>, b: seq<T>, x: T)
    requires Subsequence(a, b)
    ensures Subsequence(a, b + [x])
  {
    assert (b + [x])[..|b|] == b;
  }

  lemma SubsequenceTake<T>(a: seq<T>, b: seq<T>, x: T)
    requires Subsequence(a, b)
    ensures Subsequence(a + [x], b + [x])
  {
    assert (b + [x])[..|b|] == b;
    assert (a + [x])[..|a|] == a;
  }

  /** The entries of a stand in b, at these places, in order. */
  lemma {:induction false} SubsequenceIs<T>(a: seq<T>, b: seq<T>) returns (at: seq<nat>)
    requires Subsequence(a, b)
    ensures |at| == |a| && (forall j, k :: 0 <= j < k < |at| ==> at[j] < at[k])
    ensures forall k :: 0 <= k < |at| ==> at[k] < |b| && b[at[k]] == a[k]
    decreases |b|
  {
    if a == [] {
      at := [];
    } else {
      var m, n := |a| - 1, |b| - 1;
      if a[m] == b[n] && Subsequence(a[..m], b[..n]) {
        at := SubsequenceIs(a[..m], b[..n]);
        at := at + [n];
      } else {
        at := SubsequenceIs(a, b[..n]);
      }
    }
  }

  const RETRIES := 3

  /** The answers one packet got: another try follows only an exhausted pool, and after
      the last allowed try none does. */
  ghost predicate Retried(before: seq<int>, after: seq<int>) {
    && |before| < |after| <= |before| + 1 + RETRIES && (forall i :: 0 <= i < |before| ==> after[i] == before[i])
    && (forall i :: |before| <= i < |after| - 1 ==> after[i] == NO_BUFFERS)
    && (after[|after| - 1] == NO_BUFFERS ==> |after| == |before| + 1 + RETRIES)
  }

  class Link {
    /** Every answer of the notify call, in order. */
    ghost var answers: seq<int>

    /** Packets handed to the stack, each once, and those it took. */
    ghost var offered: seq<seq<Byte>>
    ghost var delivered: seq<seq<Byte>>

    /** Whatever is lost, nothing is delivered twice or out of order. */
    ghost predicate Valid()
      reads this
    {
      Subsequence(delivered, offered)
    }

    constructor ()
      ensures Valid() && offered == [] && delivered == [] && answers == []
    {
      offered, delivered, answers := [], [], [];
    }

    /** ble_link_notify_audio. */
    method Notify(data: seq<Byte>) returns (rc: int)
      modifies this`delivered, this`answers
      ensures delivered == old(delivered) + if rc == DELIVERED then [data] else []
      ensures answers == old(answers) + [rc] && rc in {DELIVERED, NO_BUFFERS, NO_SUBSCRIBER}
    {
      rc :| rc in {DELIVERED, NO_BUFFERS, NO_SUBSCRIBER};
      answers := answers + [rc];
      if rc == DELIVERED {
        delivered := delivered + [data];
      }
    }

    /** One notification, retried up to three times while the pool is exhausted. */
    method Send(data: seq<Byte>)
      requires Valid()
      modifies this
      ensures Valid() && offered == old(offered) + [data] && Retried(old(answers), answers)
      ensures |old(answers)| < |answers| <= |old(answers)| + 4
      ensures delivered == old(delivered) + if answers[|answers| - 1] == DELIVERED then [data] else []
    {
      ghost var before, wasOffered, asked := delivered, offered, answers;
      SubsequenceSkip(before, wasOffered, data);
      SubsequenceTake(before, wasOffered, data);
      assert before + [] == before;
      hide Subsequence;
      offered := offered + [data];
      var rc := Notify(data);
      var attempt := 0;
      while rc == NO_BUFFERS && attempt < RETRIES
        invariant attempt <= RETRIES && offered == wasOffered + [data]
        invariant delivered == before + if rc == DELIVERED then [data] else []
        invariant |answers| == |asked| + 1 + attempt && answers[|answers| - 1] == rc
        invariant forall i :: 0 <= i < |asked| ==> answers[i] == asked[i]
        invariant forall i :: |asked| <= i < |answers| - 1 ==> answers[i] == NO_BUFFERS
      {
        rc := Notify(data);
        attempt := attempt + 1;
      }
    }

    /** The replay path's notification: no retry. */
    method SendOnce(data: seq<Byte>)
      requires Valid()
      modifies this
      ensures Valid() && offered == old(offered) + [data]
      ensures |answers| == |old(answers)| + 1 && old(answers) <= answers
      ensures delivered == old(delivered) + if answers[|answers| - 1] == DELIVERED then [data] else []
    {
      ghost var before, wasOffered := delivered, offered;
      offered := offered + [data];
      var rc := Notify(data);
      SubsequenceSkip(before, wasOffered, data);
      SubsequenceTake(before, wasOffered, data);
      assert before + [] == before;
    }
  }
}
