/** The ring's only producer: the tail of audio_task's loop in openrecall_sensor.c, and
    an arbitrary amount of it running between two steps of a reader. */
module AudioTask {
  import opened CTypes
  import opened C6Types
  import opened RingBuffer

  /** What the producer can push: encoded speech, or a zero-length gap marker. */
  predicate Voiced(f: Frame) { f.data != [] }

  ghost predicate Produced(f: Frame) {
    && Storable(f)
    && if Voiced(f) then f.vad == Speech || f.vad == Hangover else f.vad == GapMarker
  }

  ghost predicate Clean(h: seq<Frame>) { forall i :: 0 <= i < |h| ==> Produced(h[i]) }

  /** One captured 20 ms: `paused` is the audio gate, `tag` the detector's verdict and
      `encoded` the encoder's output, empty or over 255 bytes when it failed. */
  datatype Capture = Capture(paused: bool, tag: VadState, relTs: Uint32, encoded: seq<Byte>)

  predicate IsSpeech(c: Capture) { !c.paused && (c.tag == Speech || c.tag == Hangover) }

  predicate EncoderFails(c: Capture) { IsSpeech(c) && !(0 < |c.encoded| <= 0xFF) }

  /** What a capture adds to the ring: its speech, a gap marker for silence, and nothing
      at all when the encoder fails. */
  function Pushed(c: Capture): seq<Frame> {
    if EncoderFails(c) then []
    else if IsSpeech(c) then [Frame(c.relTs, c.tag, c.encoded)]
    else [Frame(c.relTs, GapMarker, [])]
  }

  function Recorded(cs: seq<Capture>): seq<Frame> {
    if cs == [] then [] else Recorded(cs[..|cs| - 1]) + Pushed(cs[|cs| - 1])
  }

  /** The ring holds one frame per capture, at the capture's index and time, exactly when
      the encoder never failed: a failure is not recorded as a gap, and shifts every later
      frame forward. */
  lemma {:induction false} OneFramePerCaptureIff(cs: seq<Capture>)
    ensures |Recorded(cs)| <= |cs|
    ensures |Recorded(cs)| == |cs| <==> forall i :: 0 <= i < |cs| ==> !EncoderFails(cs[i])
    ensures |Recorded(cs)| == |cs| ==> forall i :: 0 <= i < |cs| ==> [Recorded(cs)[i]] == Pushed(cs[i])
  {
    hide Pushed, EncoderFails;
    if cs != [] {
      var n := |cs| - 1;
      OneFramePerCaptureIff(cs[..n]);
      PushesOneIff(cs[n]);
      hide Recorded;
      RecordedLast(cs, n);
      assert forall i :: 0 <= i < n ==> cs[..n][i] == cs[i];
    }
  }

  lemma PushesOneIff(c: Capture)
    ensures |Pushed(c)| == if EncoderFails(c) then 0 else 1
  {
  }

  lemma RecordedLast(cs: seq<Capture>, n: nat)
    requires |cs| == n + 1
    ensures Recorded(cs) == Recorded(cs[..n]) + Pushed(cs[n])
  {
  }

  /** What the ring holds of any captures, capture by capture: frame k comes from capture
      at[k], in order; a capture is missing exactly when it was unpaused speech whose
      encoding is empty or too long for the length byte; speech comes with its own time,
      tag and encoding, and everything else as an empty gap marker of its time. */
  lemma RecordedIs(cs: seq<Capture>) returns (at: seq<nat>)
    ensures |at| == |Recorded(cs)| && (forall k :: 0 <= k < |at| ==> at[k] < |cs|)
    ensures forall j, k :: 0 <= j < k < |at| ==> at[j] < at[k]
    ensures forall k :: 0 <= k < |at| ==>
      var c := cs[at[k]];
      Recorded(cs)[k] == if !c.paused && (c.tag == Speech || c.tag == Hangover)
                         then Frame(c.relTs, c.tag, c.encoded) else Frame(c.relTs, GapMarker, [])
    ensures forall i :: 0 <= i < |cs| ==>
      (i in at <==> cs[i].paused || (cs[i].tag != Speech && cs[i].tag != Hangover) || 1 <= |cs[i].encoded| <= 255)
  {
    at := AlwaysSampled(cs);
    hide Recorded;
  }

  ghost predicate Spoken(c: Capture) { !c.paused && (c.tag == Speech || c.tag == Hangover) }

  /** The frames h are those of the captures at these places, and the other captures are
      speech that the encoder failed on. */
  ghost predicate Sampled(cs: seq<Capture>, at: seq<nat>, h: seq<Frame>) {
    && |at| == |h| && (forall k :: 0 <= k < |at| ==> at[k] < |cs|)
    && (forall j, k :: 0 <= j < k < |at| ==> at[j] < at[k])
    && (forall k :: 0 <= k < |at| ==>
          var c := cs[at[k]];
          h[k] == if Spoken(c) then Frame(c.relTs, c.tag, c.encoded) else Frame(c.relTs, GapMarker, []))
    && forall i :: 0 <= i < |cs| ==> (i in at <==> !Spoken(cs[i]) || 1 <= |cs[i].encoded| <= 255)
  }

  lemma {:induction false} AlwaysSampled(cs: seq<Capture>) returns (at: seq<nat>)
    ensures Sampled(cs, at, Recorded(cs))
  {
    hide *;
    if cs == [] {
      at := [];
      NoneSampled();
    } else {
      var n := |cs| - 1;
      var before := AlwaysSampled(cs[..n]);
      RecordedLast(cs, n);
      assert cs == cs[..n] + [cs[n]];
      at := OneSampled(cs[..n], before, Recorded(cs[..n]), cs[n]);
    }
  }

  lemma NoneSampled()
    ensures Sampled([], [], Recorded([]))
  {
  }

  lemma OneSampled(cs: seq<Capture>, at: seq<nat>, h: seq<Frame>, c: Capture) returns (more: seq<nat>)
    requires Sampled(cs, at, h)
    ensures Sampled(cs + [c], more, h + Pushed(c))
  {
    PushedIs(c);
    hide Pushed, Spoken;
    if Spoken(c) && !(1 <= |c.encoded| <= 255) {
      more := at;
      assert |cs| !in at;
    } else {
      more := at + [|cs|];
      assert forall i :: i in more <==> i in at || i == |cs|;
    }
  }

  lemma PushedIs(c: Capture)
    ensures Pushed(c) ==
      if Spoken(c) && !(1 <= |c.encoded| <= 255) then []
      else [if Spoken(c) then Frame(c.relTs, c.tag, c.encoded) else Frame(c.relTs, GapMarker, [])]
  {
  }

  method PushFrame(ring: Ring, c: Capture)
    requires ring.Valid() && Clean(ring.history)
    modifies ring.Repr()
    ensures ring.Valid() && Clean(ring.history)
    ensures ring.history == old(ring.history) + Pushed(c)
  {
    if !c.paused && (c.tag == Speech || c.tag == Hangover) {
      if 0 < |c.encoded| <= 0xFF {
        ring.Push(Frame(c.relTs, c.tag, c.encoded));
      }
    } else {
      ring.Push(Frame(c.relTs, GapMarker, []));
    }
  }

  /** No recorded speech is shorter than this. */
  ghost predicate NoneShorter(h: seq<Frame>, shortest: nat) {
    forall i :: 0 <= i < |h| && Voiced(h[i]) ==> |h[i].data| >= shortest
  }

  /** The encoder's output is never shorter than this; 0 says nothing. */
  predicate Encodes(c: Capture, shortest: nat) { |c.encoded| >= shortest || !IsSpeech(c) || EncoderFails(c) }

  lemma NoneShorterStays(h: seq<Frame>, c: Capture, shortest: nat)
    requires NoneShorter(h, shortest) && Encodes(c, shortest)
    ensures NoneShorter(h + Pushed(c), shortest)
  {
  }

  lemma RecordedMore(cs: seq<Capture>, c: Capture)
    ensures Recorded(cs + [c]) == Recorded(cs) + Pushed(c)
  {
    assert (cs + [c])[..|cs|] == cs;
  }

  /** The producer runs for any number of captures, with any verdicts and any encodings
      that are no shorter than `shortest`. */
  method Preempt(ring: Ring, shortest: nat) returns (ghost captures: seq<Capture>)
    requires ring.Valid() && Clean(ring.history) && NoneShorter(ring.history, shortest)
    modifies ring.Repr()
    ensures ring.Valid() && Clean(ring.history) && old(ring.history) <= ring.history
    ensures NoneShorter(ring.history, shortest)
    ensures ring.history == old(ring.history) + Recorded(captures)
    ensures ring.writeIndex == |ring.history|
  {
    hide Ring.Valid, Clean, NoneShorter, Pushed;
    captures := [];
    var budget: nat := *;
    while budget > 0
      invariant ring.Valid() && Clean(ring.history) && NoneShorter(ring.history, shortest)
      invariant ring.history == old(ring.history) + Recorded(captures)
    {
      assert Encodes(Capture(true, GapMarker, 0, []), shortest);
      var c: Capture :| Encodes(c, shortest);
      NoneShorterStays(ring.history, c, shortest);
      RecordedMore(captures, c);
      PushFrame(ring, c);
      captures := captures + [c];
      budget := budget - 1;
    }
    ring.CountIs();
  }
}
