/** The section C.6 packet of audio_packet.py: encoder, strict parser, and the inverse
    laws between them. */
module AudioPacket {
  import opened CTypes
  import opened C6Types

  datatype Packet = Packet(
    version: nat, ptype: PacketType, chunkSeq: Uint32, relTs: Uint32,
    vad: VadState, flags: Byte, frames: seq<seq<Byte>>)

  datatype Error =
    | TooManyFrames | FrameTooLong(frame: nat)
    | ShortHeader | UnknownType | UnknownVad
    | RanOut(frame: nat) | Truncated(frame: nat)

  datatype Result<T> = Ok(value: T) | Err(error: Error)

  // ---- Fields ----

  function Le32(x: Uint32): seq<Byte> {
    var q1: int := x / 0x100;
    var q2: int := q1 / 0x100;
    var q3: int := q2 / 0x100;
    [(x % 0x100) as Byte, (q1 % 0x100) as Byte, (q2 % 0x100) as Byte, q3 as Byte]
  }

  function FromLe32(s: seq<Byte>): Uint32
    requires |s| == 4
  {
    s[0] as int + 0x100 * (s[1] as int + 0x100 * (s[2] as int + 0x100 * s[3] as int))
  }

  function TypeCode(t: PacketType): Byte {
    match t case Live => 0 case MemoryChunk => 1 case Historical => 2
  }

  function VadCode(v: VadState): Byte {
    match v case GapMarker => 0 case Speech => 1 case Preroll => 2 case Hangover => 3
  }

  const TYPES: seq<PacketType> := [Live, MemoryChunk, Historical]
  const VADS: seq<VadState> := [GapMarker, Speech, Preroll, Hangover]

  function Header(verPtype: Byte, chunkSeq: Uint32, relTs: Uint32, vad: Byte, count: Byte, flags: Byte): (h: seq<Byte>)
    ensures |h| == HEADER_LEN
  {
    [verPtype] + Le32(chunkSeq) + Le32(relTs) + [vad, count, flags]
  }

  predicate EachFits(frames: seq<seq<Byte>>) {
    forall i :: 0 <= i < |frames| ==> |frames[i]| <= 0xFF
  }

  predicate FramesFit(frames: seq<seq<Byte>>) { |frames| <= 0xFF && EachFits(frames) }

  /** The packets whose every field survives the wire. */
  ghost predicate InRange(p: Packet) { p.version < 16 && FramesFit(p.frames) }

  /** Length-prefixed frames. */
  function Body(frames: seq<seq<Byte>>): seq<Byte>
    requires EachFits(frames)
  {
    if frames == [] then [] else [|frames[0]| as Byte] + frames[0] + Body(frames[1..])
  }

  function VerPtype(p: Packet): Byte { (p.version % 16 * 16) as Byte + TypeCode(p.ptype) }

  function Wire(p: Packet): seq<Byte>
    requires FramesFit(p.frames)
  {
    Header(VerPtype(p), p.chunkSeq, p.relTs, VadCode(p.vad), |p.frames| as Byte, p.flags) + Body(p.frames)
  }

  lemma BodyHead(x: seq<Byte>, r: seq<seq<Byte>>)
    requires |x| <= 0xFF && EachFits(r)
    ensures EachFits([x] + r) && Body([x] + r) == [|x| as Byte] + x + Body(r)
  {
    assert ([x] + r)[1..] == r;
  }

  lemma EachFitsJoins(xs: seq<seq<Byte>>, ys: seq<seq<Byte>>)
    ensures EachFits(xs + ys) <==> EachFits(xs) && EachFits(ys)
  {
    if EachFits(xs + ys) {
      assert forall i :: 0 <= i < |xs| ==> (xs + ys)[i] == xs[i];
      assert forall i :: 0 <= i < |ys| ==> (xs + ys)[|xs| + i] == ys[i];
    }
  }

  lemma {:induction false} BodySplits(xs: seq<seq<Byte>>, ys: seq<seq<Byte>>)
    requires EachFits(xs) && EachFits(ys)
    ensures EachFits(xs + ys)
    ensures Body(xs + ys) == Body(xs) + Body(ys)
  {
    EachFitsJoins(xs, ys);
    if xs == [] {
      assert xs + ys == ys;
    } else {
      var x, r := xs[0], xs[1..];
      assert xs == [x] + r;
      BodySplits(r, ys);
      BodySplitsStep(x, r, ys);
    }
  }

  lemma BodySplitsStep(x: seq<Byte>, r: seq<seq<Byte>>, ys: seq<seq<Byte>>)
    requires |x| <= 0xFF && EachFits(r) && EachFits(ys) && EachFits(r + ys) && Body(r + ys) == Body(r) + Body(ys)
    ensures EachFits([x] + r) && EachFits([x] + r + ys)
    ensures Body([x] + r + ys) == Body([x] + r) + Body(ys)
  {
    hide Body, EachFits;
    BodyHead(x, r);
    BodyHead(x, r + ys);
    assert [x] + r + ys == [x] + (r + ys);
  }

  lemma BodyOfOne(frame: seq<Byte>)
    requires |frame| <= 0xFF
    ensures Body([frame]) == [|frame| as Byte] + frame
  {
    assert [frame][1..] == [];
  }

  function FirstTooLong(frames: seq<seq<Byte>>): (i: nat)
    requires !EachFits(frames)
    ensures i < |frames| && |frames[i]| > 0xFF
    ensures forall k :: 0 <= k < i ==> |frames[k]| <= 0xFF
    decreases |frames|
  {
    if EachFits(frames[..|frames| - 1]) then |frames| - 1
    else FirstTooLong(frames[..|frames| - 1])
  }

  method Encode(p: Packet) returns (r: Result<seq<Byte>>)
    ensures r.Ok? <==> FramesFit(p.frames)
    ensures r.Ok? ==> r.value == Wire(p)
    ensures r.Err? ==>
      r.error == if |p.frames| > 0xFF then TooManyFrames else FrameTooLong(FirstTooLong(p.frames))
  {
    if |p.frames| > 0xFF {
      return Err(TooManyFrames);
    }
    var header := Header(VerPtype(p), p.chunkSeq, p.relTs, VadCode(p.vad), |p.frames| as Byte, p.flags);
    var body: seq<Byte> := [];
    for i := 0 to |p.frames|
      invariant forall k :: 0 <= k < i ==> |p.frames[k]| <= 0xFF
      invariant body == Body(p.frames[..i])
    {
      var frame := p.frames[i];
      if |frame| > 0xFF {
        return Err(FrameTooLong(i));
      }
      BodySplits(p.frames[..i], [frame]);
      BodyOfOne(frame);
      assert p.frames[..i + 1] == p.frames[..i] + [frame];
      body := body + [|frame| as Byte] + frame;
    }
    assert p.frames[..|p.frames|] == p.frames;
    return Ok(header + body);
  }

  // ---- Parsing ----

  function Prepend(frames: seq<seq<Byte>>, rest: Result<seq<seq<Byte>>>): Result<seq<seq<Byte>>> {
    if rest.Err? then rest else Ok(frames + rest.value)
  }

  /** Frames i.. of a declared count, read from the front of d. */
  function Frames(d: seq<Byte>, i: nat, count: nat): Result<seq<seq<Byte>>>
    requires i <= count
    decreases count - i
  {
    if i == count then Ok([])
    else if d == [] then Err(RanOut(i))
    else
      var end := 1 + d[0] as int;
      if end > |d| then Err(Truncated(i))
      else Prepend([d[1..end]], Frames(d[end..], i + 1, count))
  }

  function Parsed(data: seq<Byte>): Result<Packet> {
    if |data| < HEADER_LEN then Err(ShortHeader)
    else if (data[0] % 16) as int >= |TYPES| then Err(UnknownType)
    else if data[9] as int >= |VADS| then Err(UnknownVad)
    else
      var frames := Frames(data[HEADER_LEN..], 0, data[10] as int);
      if frames.Err? then Err(frames.error)
      else Ok(Packet((data[0] / 16) as int, TYPES[data[0] % 16], FromLe32(data[1..5]), FromLe32(data[5..9]),
                     VADS[data[9]], data[11], frames.value))
  }

  lemma PrependNone(rest: Result<seq<seq<Byte>>>)
    ensures Prepend([], rest) == rest
  {
    if rest.Ok? { assert [] + rest.value == rest.value; }
  }

  lemma PrependTwice(xs: seq<seq<Byte>>, ys: seq<seq<Byte>>, rest: Result<seq<seq<Byte>>>)
    ensures Prepend(xs, Prepend(ys, rest)) == Prepend(xs + ys, rest)
  {
    if rest.Ok? { assert xs + (ys + rest.value) == xs + ys + rest.value; }
  }

  /** One frame read at an offset. */
  lemma FramesAt(data: seq<Byte>, offset: nat, i: nat, count: nat)
    requires offset <= |data| && i < count
    ensures offset == |data| ==> Frames(data[offset..], i, count) == Err(RanOut(i))
    ensures offset < |data| ==>
      var end := offset + 1 + data[offset] as int;
      Frames(data[offset..], i, count) ==
        if end > |data| then Err(Truncated(i))
        else Prepend([data[offset + 1..end]], Frames(data[end..], i + 1, count))
  {
    var d := data[offset..];
    if offset < |data| && offset + 1 + data[offset] as int <= |data| {
      var end := 1 + data[offset] as int;
      assert d[1..end] == data[offset + 1..offset + end] && d[end..] == data[offset + end..];
    }
  }

  lemma FramesEnd(data: seq<Byte>, offset: nat, count: nat, frames: seq<seq<Byte>>)
    requires offset <= |data|
    ensures Prepend(frames, Frames(data[offset..], count, count)) == Ok(frames)
  {
    assert frames + [] == frames;
  }

  method Parse(data: seq<Byte>) returns (r: Result<Packet>)
    ensures r == Parsed(data)
  {
    hide Frames, FromLe32;
    if |data| < HEADER_LEN {
      return Err(ShortHeader);
    }
    var frameCount := data[10] as int;
    if (data[0] % 16) as int >= |TYPES| {
      return Err(UnknownType);
    }
    if data[9] as int >= |VADS| {
      return Err(UnknownVad);
    }
    var frames: seq<seq<Byte>> := [];
    var offset := HEADER_LEN;
    PrependNone(Frames(data[offset..], 0, frameCount));
    for i := 0 to frameCount
      invariant HEADER_LEN <= offset <= |data|
      invariant Frames(data[HEADER_LEN..], 0, frameCount)
             == Prepend(frames, Frames(data[offset..], i, frameCount))
    {
      FramesAt(data, offset, i, frameCount);
      if offset >= |data| {
        return Err(RanOut(i));
      }
      var frameLen := data[offset] as int;
      offset := offset + 1;
      var end := offset + frameLen;
      if end > |data| {
        return Err(Truncated(i));
      }
      PrependTwice(frames, [data[offset..end]], Frames(data[end..], i + 1, frameCount));
      frames := frames + [data[offset..end]];
      offset := end;
    }
    FramesEnd(data, offset, frameCount, frames);
    return Ok(Packet((data[0] / 16) as int, TYPES[data[0] % 16], FromLe32(data[1..5]), FromLe32(data[5..9]),
                     VADS[data[9]], data[11], frames));
  }

  // ---- The inverse laws ----

  lemma Le32RoundTrip(x: Uint32)
    ensures FromLe32(Le32(x)) == x
  {
  }

  lemma Le32Inverse(s: seq<Byte>)
    requires |s| == 4
    ensures Le32(FromLe32(s)) == s
  {
    var q2: int := s[2] as int + 0x100 * s[3] as int;
    var q1: int := s[1] as int + 0x100 * q2;
    assert FromLe32(s) / 0x100 == q1;
    assert q1 / 0x100 == q2;
  }

  /** One frame in front of a tail. */
  function Prefixed(f: seq<Byte>, tail: seq<Byte>): seq<Byte>
    requires |f| <= 0xFF
  {
    [|f| as Byte] + f + tail
  }

  lemma FramesOfPrefixed(f: seq<Byte>, tail: seq<Byte>, i: nat, count: nat)
    requires |f| <= 0xFF && i < count
    ensures Frames(Prefixed(f, tail), i, count) == Prepend([f], Frames(tail, i + 1, count))
  {
    var d := Prefixed(f, tail);
    assert d[1..1 + |f|] == f;
    assert d[1 + |f|..] == tail;
  }

  lemma BodyPrefixed(f: seq<Byte>, rest: seq<seq<Byte>>, after: seq<Byte>)
    requires |f| <= 0xFF && EachFits(rest)
    ensures EachFits([f] + rest)
    ensures Body([f] + rest) + after == Prefixed(f, Body(rest) + after)
  {
    assert ([f] + rest)[1..] == rest;
  }

  /** Encoded frames parse back, whatever follows them. */
  lemma {:induction false} FramesOfBody(frames: seq<seq<Byte>>, after: seq<Byte>, i: nat)
    requires EachFits(frames)
    ensures Frames(Body(frames) + after, i, i + |frames|) == Ok(frames)
    decreases frames
  {
    if frames != [] {
      var f, rest := frames[0], frames[1..];
      assert [f] + rest == frames;
      BodyPrefixed(f, rest, after);
      FramesOfPrefixed(f, Body(rest) + after, i, i + |frames|);
      FramesOfBody(rest, after, i + 1);
    }
  }

  /** Accepted frames are their own encoding: the bytes left over follow them. */
  lemma {:induction false} BodyOfFrames(d: seq<Byte>, i: nat, count: nat) returns (after: seq<Byte>)
    requires i <= count
    requires Frames(d, i, count).Ok?
    ensures var fs := Frames(d, i, count).value;
            |fs| == count - i && EachFits(fs) && Body(fs) + after == d
    decreases count - i
  {
    if i == count {
      after := d;
    } else {
      var end := 1 + d[0] as int;
      var f, tail := d[1..end], d[end..];
      assert d == Prefixed(f, tail);
      after := BodyOfFrames(tail, i + 1, count);
      BodyPrefixed(f, Frames(tail, i + 1, count).value, after);
    }
  }

  lemma HeaderReads(data: seq<Byte>, verPtype: Byte, chunkSeq: Uint32, relTs: Uint32, vad: Byte, count: Byte,
                    flags: Byte)
    requires Header(verPtype, chunkSeq, relTs, vad, count, flags) <= data
    ensures data[0] == verPtype && data[1..5] == Le32(chunkSeq) && data[5..9] == Le32(relTs)
    ensures data[9] == vad && data[10] == count && data[11] == flags
  {
    var h := Header(verPtype, chunkSeq, relTs, vad, count, flags);
    assert forall k :: 0 <= k < HEADER_LEN ==> data[k] == h[k];
  }

  lemma HeaderInverse(data: seq<Byte>)
    requires HEADER_LEN <= |data|
    ensures Header(data[0], FromLe32(data[1..5]), FromLe32(data[5..9]), data[9], data[10], data[11])
         == data[..HEADER_LEN]
  {
    Le32Inverse(data[1..5]);
    Le32Inverse(data[5..9]);
  }

  /** parse(encode(p)) = p, with any trailing bytes ignored. */
  lemma ParseInvertsEncode(p: Packet, trailing: seq<Byte>)
    requires InRange(p)
    ensures Parsed(Wire(p) + trailing) == Ok(p)
  {
    var data := Wire(p) + trailing;
    HeaderReads(data, VerPtype(p), p.chunkSeq, p.relTs, VadCode(p.vad), |p.frames| as Byte, p.flags);
    Le32RoundTrip(p.chunkSeq);
    Le32RoundTrip(p.relTs);
    assert data[HEADER_LEN..] == Body(p.frames) + trailing;
    FramesOfBody(p.frames, trailing, 0);
    FieldsParse(data, p);
  }

  lemma FieldsParse(data: seq<Byte>, p: Packet)
    requires InRange(p) && HEADER_LEN <= |data|
    requires data[0] == VerPtype(p) && data[9] == VadCode(p.vad) && data[10] as int == |p.frames| && data[11] == p.flags
    requires FromLe32(data[1..5]) == p.chunkSeq && FromLe32(data[5..9]) == p.relTs
    requires Frames(data[HEADER_LEN..], 0, |p.frames|) == Ok(p.frames)
    ensures Parsed(data) == Ok(p)
  {
    CodesRead(p);
    hide Frames, FromLe32, VerPtype, TypeCode, VadCode;
  }

  lemma CodesWritten(p: Packet, b: Byte, v: Byte)
    requires (b % 16) as int < |TYPES| && p.version == (b / 16) as int && p.ptype == TYPES[b % 16]
    requires v as int < |VADS| && p.vad == VADS[v]
    ensures p.version < 16 && VerPtype(p) == b && VadCode(p.vad) == v
  {
  }

  lemma CodesRead(p: Packet)
    requires p.version < 16
    ensures VerPtype(p) / 16 == p.version as Byte && VerPtype(p) % 16 == TypeCode(p.ptype)
    ensures TYPES[TypeCode(p.ptype)] == p.ptype && VADS[VadCode(p.vad)] == p.vad
  {
  }

  /** Every accepted buffer is the encoding of what was parsed, then ignored bytes. */
  lemma EncodeInvertsParse(data: seq<Byte>)
    requires Parsed(data).Ok?
    ensures InRange(Parsed(data).value)
    ensures Wire(Parsed(data).value) <= data
  {
    var p := Parsed(data).value;
    var after := BodyOfFrames(data[HEADER_LEN..], 0, data[10] as int);
    hide Frames, Body, Header, FromLe32, VerPtype, TypeCode, VadCode;
    HeaderInverse(data);
    CodesWritten(p, data[0], data[9]);
    JoinedPrefix(data, HEADER_LEN, Body(p.frames), after);
  }

  lemma JoinedPrefix(data: seq<Byte>, n: nat, b: seq<Byte>, after: seq<Byte>)
    requires n <= |data| && data[n..] == b + after
    ensures data[..n] + b <= data
  {
    assert data == data[..n] + (b + after);
  }

  /** Exactly the buffers that start with an encoded packet are accepted. */
  lemma AcceptsIff(data: seq<Byte>)
    ensures Parsed(data).Ok? <==> exists p :: InRange(p) && Wire(p) <= data
  {
    if Parsed(data).Ok? {
      EncodeInvertsParse(data);
    }
    if exists p :: InRange(p) && Wire(p) <= data {
      var p :| InRange(p) && Wire(p) <= data;
      ParseInvertsEncode(p, data[|Wire(p)|..]);
      assert data == Wire(p) + data[|Wire(p)|..];
    }
  }

  lemma SameWire(p: Packet, q: Packet)
    requires InRange(p) && InRange(q) && Wire(q) <= Wire(p)
    ensures p == q
  {
    ParseInvertsEncode(q, Wire(p)[|Wire(q)|..]);
    ParseInvertsEncode(p, []);
    assert Wire(p) + [] == Wire(p) == Wire(q) + Wire(p)[|Wire(q)|..];
  }

  /** Strictness: no strict prefix of a packet is a packet. */
  lemma PrefixRejected(p: Packet, k: nat)
    requires InRange(p) && k < |Wire(p)|
    ensures Parsed(Wire(p)[..k]).Err?
  {
    var short := Wire(p)[..k];
    if Parsed(short).Ok? {
      EncodeInvertsParse(short);
      var q := Parsed(short).value;
      SameWire(p, q);
      assert false;
    }
  }

  // ---- The bytes ----

  /** Every byte of the header, and where the frames begin. */
  lemma WireIs(p: Packet)
    requires InRange(p)
    ensures var w := Wire(p);
      && |w| >= 12 && w[12..] == Body(p.frames)
      && w[0] as int == 16 * p.version + (match p.ptype case Live => 0 case MemoryChunk => 1 case Historical => 2)
      && p.chunkSeq == w[1] as int + 256 * w[2] as int + 65536 * w[3] as int + 16777216 * w[4] as int
      && p.relTs == w[5] as int + 256 * w[6] as int + 65536 * w[7] as int + 16777216 * w[8] as int
      && w[9] as int == (match p.vad case GapMarker => 0 case Speech => 1 case Preroll => 2 case Hangover => 3)
      && w[10] as int == |p.frames| && w[11] == p.flags
  {
    Le32RoundTrip(p.chunkSeq);
    Le32RoundTrip(p.relTs);
    var w := Wire(p);
    assert w[1..5] == Le32(p.chunkSeq) && w[5..9] == Le32(p.relTs);
    hide Le32, Body;
  }

  /** The frames lie end to end, each behind its length. */
  lemma BodyIs(frames: seq<seq<Byte>>, k: nat)
    requires EachFits(frames) && k < |frames|
    ensures EachFits(frames[..k]) && EachFits(frames[k + 1..])
    ensures Body(frames) == Body(frames[..k]) + [|frames[k]| as Byte] + frames[k] + Body(frames[k + 1..])
    ensures Body([]) == []
  {
    assert frames == frames[..k] + ([frames[k]] + frames[k + 1..]);
    BodySplits(frames[..k], [frames[k]] + frames[k + 1..]);
    BodyHead(frames[k], frames[k + 1..]);
    hide Body;
    assert Body(frames[..k]) + ([|frames[k]| as Byte] + frames[k] + Body(frames[k + 1..]))
        == Body(frames[..k]) + [|frames[k]| as Byte] + frames[k] + Body(frames[k + 1..]);
  }

  /** A packet in full: version 1, a replay's last, number 0x01020304, at 5 ms. */
  lemma WireLooks()
    ensures Wire(Packet(1, MemoryChunk, 0x01020304, 5, Hangover, 2, [[7, 8]])) ==
      [17, 4, 3, 2, 1, 5, 0, 0, 0, 3, 1, 2, 2, 7, 8]
  {
    BodyOfOne([7, 8]);
  }

  /** These frames were read whole before this error was met. */
  ghost predicate MetAfter(d: seq<Byte>, i: nat, count: nat, fs: seq<seq<Byte>>, error: Error) {
    && EachFits(fs) && i + |fs| < count
    && match error
       case RanOut(k) => k == i + |fs| && d == Body(fs)
       case Truncated(k) => k == i + |fs| && Body(fs) < d && |d| - |Body(fs)| - 1 < d[|Body(fs)|] as int
       case _ => false
  }

  /** Why a body is refused: it ends after i whole frames, or inside frame i. */
  lemma {:induction false} FrameErrors(d: seq<Byte>, i: nat, count: nat) returns (fs: seq<seq<Byte>>)
    requires i <= count && Frames(d, i, count).Err?
    ensures MetAfter(d, i, count, fs, Frames(d, i, count).error)
    decreases count - i
  {
    hide MetAfter;
    if d != [] && 1 + d[0] as int <= |d| {
      var end := 1 + d[0] as int;
      var rest := FrameErrors(d[end..], i + 1, count);
      hide Frames;
      fs := MetLater(d, i, count, rest, Frames(d[end..], i + 1, count).error);
    } else {
      fs := [];
      MetNow(d, i, count);
    }
  }

  lemma MetNow(d: seq<Byte>, i: nat, count: nat)
    requires i < count
    ensures d == [] ==> MetAfter(d, i, count, [], RanOut(i))
    ensures d != [] && 1 + d[0] as int > |d| ==> MetAfter(d, i, count, [], Truncated(i))
  {
  }

  lemma MetLater(d: seq<Byte>, i: nat, count: nat, rest: seq<seq<Byte>>, error: Error) returns (fs: seq<seq<Byte>>)
    requires d != [] && 1 + d[0] as int <= |d| && MetAfter(d[1 + d[0] as int..], i + 1, count, rest, error)
    ensures MetAfter(d, i, count, fs, error)
  {
    var end := 1 + d[0] as int;
    fs := [d[1..end]] + rest;
    BodyHead(d[1..end], rest);
    hide Body, EachFits;
    var front, tail := [d[0]] + d[1..end], d[end..];
    assert d == front + tail && Body(fs) == front + Body(rest);
    if error.Truncated? { assert tail == Body(rest) + tail[|Body(rest)|..]; }
  }

  /** Why a buffer is refused, in the order the parser looks: too short for a header, an
      unknown type in the low half of the first byte, an unknown tag, or its frames. */
  lemma ErrorsAre(data: seq<Byte>)
    ensures |data| < 12 <==> Parsed(data) == Err(ShortHeader)
    ensures |data| >= 12 && data[0] % 16 > 2 <==> Parsed(data) == Err(UnknownType)
    ensures |data| >= 12 && data[0] % 16 <= 2 && data[9] > 3 <==> Parsed(data) == Err(UnknownVad)
    ensures |data| >= 12 && data[0] % 16 <= 2 && data[9] <= 3 ==>
      var frames := Frames(data[12..], 0, data[10] as int);
      frames.Err? ==> Parsed(data) == Err(frames.error)
  {
    hide Frames, FromLe32, Body;
    if |data| >= 12 && Frames(data[12..], 0, data[10] as int).Err? {
      var _ := FrameErrors(data[12..], 0, data[10] as int);
    }
  }
}
