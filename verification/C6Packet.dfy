/** The firmware's packet writer, c6_packet.c: bytes written into a caller's buffer with
    an advancing offset. Proved byte for byte equal to the server's encoder. */
module C6Packet {
  import opened CTypes
  import opened C6Types
  import opened AudioPacket

  const C6_VERSION: Byte := 1

  /** What a successful call writes. */
  function Bytes(ptype: Byte, chunkSeq: Uint32, relTs: Uint32, vad: Byte, flags: Byte,
                 frames: seq<seq<Byte>>): seq<Byte>
    requires FramesFit(frames)
  {
    Header(C6_VERSION * 16 + ptype % 16, chunkSeq, relTs, vad, |frames| as Byte, flags) + Body(frames)
  }

  /** Bytes of the length-prefixed frames. */
  function BodyLength(frames: seq<seq<Byte>>): nat {
    if frames == [] then 0 else BodyLength(frames[..|frames| - 1]) + 1 + |frames[|frames| - 1]|
  }

  lemma {:induction false} BodyLengthGrows(frames: seq<seq<Byte>>, i: nat)
    requires i <= |frames|
    ensures BodyLength(frames[..i]) <= BodyLength(frames)
    decreases |frames|
  {
    if i < |frames| {
      BodyLengthGrows(frames[..|frames| - 1], i);
      assert frames[..|frames| - 1][..i] == frames[..i];
    } else {
      assert frames[..i] == frames;
    }
  }

  /** Returns 0 exactly when there are more than 255 frames or the packet exceeds cap;
      otherwise the packet's length, with the packet at the front of `out`. Nothing past
      the returned length is touched. */
  method WritePacket(out: array<Byte>, cap: nat, ptype: Byte, chunkSeq: Uint32, relTs: Uint32,
                     vad: Byte, flags: Byte, frames: seq<seq<Byte>>)
    returns (n: nat)
    requires cap <= out.Length && EachFits(frames)
    modifies out
    ensures n == 0 <==> |frames| > 0xFF || HEADER_LEN + BodyLength(frames) > cap
    ensures n > 0 ==> n == HEADER_LEN + BodyLength(frames)
    ensures n > 0 ==> out[..n] == Bytes(ptype, chunkSeq, relTs, vad, flags, frames)
    ensures forall k :: n <= k < out.Length ==> out[k] == old(out[k])
  {
    if |frames| > 0xFF {
      return 0;
    }
    var total := HEADER_LEN;
    for i := 0 to |frames|
      invariant total == HEADER_LEN + BodyLength(frames[..i])
    {
      assert frames[..i + 1][..i] == frames[..i];
      total := total + 1 + |frames[i]|;
    }
    assert frames[..|frames|] == frames;
    if total > cap {
      return 0;
    }
    var off := WriteHeader(out, ptype, chunkSeq, relTs, vad, |frames| as Byte, flags);
    n := WriteFrames(out, off, frames);
  }

  /** The frame loop. */
  method WriteFrames(out: array<Byte>, start: nat, frames: seq<seq<Byte>>) returns (off: nat)
    requires EachFits(frames) && start + BodyLength(frames) <= out.Length
    modifies out
    ensures off == start + BodyLength(frames)
    ensures out[..off] == old(out[..start]) + Body(frames)
    ensures forall k :: off <= k < out.Length ==> out[k] == old(out[k])
  {
    off := start;
    ghost var before := out[..start];
    for i := 0 to |frames|
      invariant off == start + BodyLength(frames[..i])
      invariant off <= out.Length
      invariant out[..off] == before + Body(frames[..i])
      invariant forall k :: off <= k < out.Length ==> out[k] == old(out[k])
    {
      NextFrame(frames, i);
      ghost var written := Body(frames[..i]);
      off := WriteFrame(out, off, frames[i]);
      assert out[..off] == (before + written) + ([|frames[i]| as Byte] + frames[i]);
      assert out[..off] == before + (written + ([|frames[i]| as Byte] + frames[i]));
    }
    assert frames[..|frames|] == frames;
  }

  lemma NextFrame(frames: seq<seq<Byte>>, i: nat)
    requires EachFits(frames) && i < |frames|
    ensures BodyLength(frames[..i + 1]) == BodyLength(frames[..i]) + 1 + |frames[i]| <= BodyLength(frames)
    ensures Body(frames[..i + 1]) == Body(frames[..i]) + ([|frames[i]| as Byte] + frames[i])
  {
    BodyLengthGrows(frames, i + 1);
    assert frames[..i + 1] == frames[..i] + [frames[i]];
    assert frames[..i + 1][..i] == frames[..i];
    BodySplits(frames[..i], [frames[i]]);
    BodyOfOne(frames[i]);
  }

  method WriteHeader(out: array<Byte>, ptype: Byte, chunkSeq: Uint32, relTs: Uint32, vad: Byte, count: Byte,
                     flags: Byte)
    returns (off: nat)
    requires HEADER_LEN <= out.Length
    modifies out
    ensures off == HEADER_LEN
    ensures out[..off] == Header(C6_VERSION * 16 + ptype % 16, chunkSeq, relTs, vad, count, flags)
    ensures forall k :: off <= k < out.Length ==> out[k] == old(out[k])
  {
    off := 0;
    out[off] := C6_VERSION * 16 + ptype % 16;
    off := off + 1;
    var seqBytes, tsBytes := Le32(chunkSeq), Le32(relTs);
    forall k | 0 <= k < 4 { out[1 + k] := seqBytes[k]; }
    forall k | 0 <= k < 4 { out[5 + k] := tsBytes[k]; }
    off := off + 8;
    out[off] := vad;
    out[off + 1] := count;
    out[off + 2] := flags;
    off := off + 3;
  }

  method WriteFrame(out: array<Byte>, start: nat, frame: seq<Byte>) returns (off: nat)
    requires |frame| <= 0xFF && start + 1 + |frame| <= out.Length
    modifies out
    ensures off == start + 1 + |frame|
    ensures out[..off] == old(out[..start]) + ([|frame| as Byte] + frame)
    ensures forall k :: off <= k < out.Length ==> out[k] == old(out[k])
  {
    out[start] := |frame| as Byte;
    forall k | 0 <= k < |frame| { out[start + 1 + k] := frame[k]; }
    off := start + 1 + |frame|;
  }

  /** The firmware writes what the server's encoder writes for version 1. */
  lemma MirrorsEncode(p: Packet)
    requires InRange(p) && p.version == 1
    ensures Bytes(TypeCode(p.ptype), p.chunkSeq, p.relTs, VadCode(p.vad), p.flags, p.frames) == Wire(p)
  {
  }
}
