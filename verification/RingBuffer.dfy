/** The 60 s frame ring of ring_buffer.c, against the ghost sequence of every frame ever
    pushed. Each method is one critical section; callers interleave them freely. A frame
    handed out by `Get` points into its slot, as in the C code, so its bytes are read
    through `Deref` and last only until the slot is overwritten. */
module RingBuffer {
  import opened Arithmetic
  import opened CTypes
  import opened C6Types

  /** A frame as pushed; the C length byte is |data|. */
  datatype Frame = Frame(relTs: Uint32, vad: VadState, data: seq<Byte>)

  ghost predicate Storable(f: Frame) { |f.data| <= 0xFF }

  /** What `ring_buffer_get` fills in; `slot` stands for the data pointer. */
  datatype RingFrame = RingFrame(relTs: Uint32, vad: VadState, len: Byte, slot: nat)

  /** Index i can be read when w frames have been written. */
  predicate InWindow(i: nat, w: nat) { i < w && w - i <= RING_FRAMES }

  class Ring {
    const relTs: array<Uint32>
    const vad: array<VadState>
    const len: array<Byte>
    const data: array2<Byte>
    var writeIndex: nat
    ghost var history: seq<Frame>

    ghost function Repr(): set<object> { {this, relTs, vad, len, data} }

    /** What a pointer to a slot's first n data bytes reads now. */
    function Deref(slot: nat, n: Byte): (bytes: seq<Byte>)
      requires slot < data.Length0 && n as int <= data.Length1
      reads data
      ensures |bytes| == n as int
    {
      seq(n as int, k requires 0 <= k < n as int reads data => data[slot, k])
    }

    ghost predicate Shaped() {
      && relTs.Length == vad.Length == len.Length == data.Length0 == RING_FRAMES
      && data.Length1 == MAX_OPUS_BYTES
    }

    ghost predicate Holds(slot: nat, f: Frame)
      requires Shaped() && slot < RING_FRAMES
      reads relTs, vad, len, data
    {
      && relTs[slot] == f.relTs && vad[slot] == f.vad
      && len[slot] as int == |f.data| && Deref(slot, len[slot]) == f.data
    }

    ghost predicate Valid()
      reads Repr()
    {
      && Shaped()
      && writeIndex == |history|
      && (forall i :: 0 <= i < |history| ==> Storable(history[i]))
      && forall i :: 0 <= i < |history| && InWindow(i, |history|) ==> Holds(i % RING_FRAMES, history[i])
    }

    constructor ()
      ensures Valid() && history == [] && fresh(Repr())
    {
      relTs := new Uint32[RING_FRAMES](_ => 0);
      vad := new VadState[RING_FRAMES](_ => GapMarker);
      len := new Byte[RING_FRAMES](_ => 0);
      data := new Byte[RING_FRAMES, MAX_OPUS_BYTES]((_, _) => 0);
      writeIndex := 0;
      history := [];
    }

    lemma CountIs()
      requires Valid()
      ensures writeIndex == |history|
    {
    }

    method Push(f: Frame)
      requires Valid() && Storable(f)
      modifies Repr()
      ensures Valid() && history == old(history) + [f]
    {
      var slot := writeIndex % RING_FRAMES;
      forall i | 0 <= i < |history| && InWindow(i, |history| + 1)
        ensures i % RING_FRAMES != slot
      {
        SlotsDiffer(i, writeIndex, RING_FRAMES);
      }
      relTs[slot] := f.relTs;
      vad[slot] := f.vad;
      len[slot] := |f.data| as Byte;
      forall k | 0 <= k < |f.data| { data[slot, k] := f.data[k]; }
      assert Deref(slot, len[slot]) == f.data;
      forall i | 0 <= i < |history| && InWindow(i, |history| + 1)
        ensures Holds(i % RING_FRAMES, history[i])
      {
        assert old(Holds(i % RING_FRAMES, history[i]));
        assert Deref(i % RING_FRAMES, len[i % RING_FRAMES]) == old(Deref(i % RING_FRAMES, len[i % RING_FRAMES]));
      }
      writeIndex := writeIndex + 1;
      history := history + [f];
    }

    /** Succeeds exactly in the window, and returns exactly what was pushed at `index`. */
    method Get(index: nat) returns (ok: bool, out: RingFrame)
      requires Valid()
      ensures ok <==> InWindow(index, |history|)
      ensures ok <==> index < |history| <= index + 3000
      ensures ok ==> out.relTs == history[index].relTs && out.vad == history[index].vad
      ensures ok ==> out.len as int == |history[index].data| && out.slot == index % RING_FRAMES
      ensures ok ==> Deref(out.slot, out.len) == history[index].data
    {
      out := RingFrame(0, GapMarker, 0, 0);
      var w := writeIndex;
      ok := index < w && w - index <= RING_FRAMES;
      if ok {
        var slot := index % RING_FRAMES;
        out := RingFrame(relTs[slot], vad[slot], len[slot], slot);
      }
    }

    /** As `Get`, with the bytes copied to `buf[at..]`, outside the ring. */
    method GetCopy(index: nat, buf: array<Byte>, at: nat) returns (ok: bool, out: RingFrame)
      requires Valid() && buf !in Repr()
      requires InWindow(index, |history|) ==> at + |history[index].data| <= buf.Length
      modifies buf
      ensures ok <==> InWindow(index, |history|)
      ensures ok <==> index < |history| <= index + 3000
      ensures ok ==> out.relTs == history[index].relTs && out.vad == history[index].vad
      ensures ok ==> out.len as int == |history[index].data|
      ensures ok ==> buf[at..at + out.len as int] == history[index].data
      ensures forall k :: 0 <= k < buf.Length && !(ok && at <= k < at + out.len as int) ==> buf[k] == old(buf[k])
    {
      out := RingFrame(0, GapMarker, 0, 0);
      var w := writeIndex;
      ok := index < w && w - index <= RING_FRAMES;
      if ok {
        var slot := index % RING_FRAMES;
        out := RingFrame(relTs[slot], vad[slot], len[slot], slot);
        ghost var bytes := Deref(slot, len[slot]);
        forall k | 0 <= k < len[slot] as int { buf[at + k] := data[slot, k]; }
        assert buf[at..at + out.len as int] == bytes;
      }
    }

    /** A pointer from `Get` still reads its frame after any pushes that leave the index
        in the window. */
    lemma PointerLasts(index: nat)
      requires Valid() && InWindow(index, |history|)
      ensures Deref(index % RING_FRAMES, |history[index].data| as Byte) == history[index].data
    {
      assert Holds(index % RING_FRAMES, history[index]);
    }
  }
}
