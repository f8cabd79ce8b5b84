/**
 The frames that the C client and the fake device exchange: a four-byte type and a two-byte length,
 both big-endian, then the payload.  A socket direction is the stream of the bytes written to it and
 how many of them have been read.  Two scripts decide what the system calls do: the `k`-th `write` (or
 `read`) moves at most `writing(k)` (or `reading(k)`) bytes, and fails if that is not positive.  Every split
 into short writes and reads, with or without failures, is one choice of scripts.
 */
module Framing {
  import opened Wrappers

  type byte = x: int | 0 <= x < 256

  type uint32 = x: int | 0 <= x < 0x1_0000_0000

  const HEADER_SIZE := 6
  const MAX_PAYLOAD := 0xFFFF

  datatype Frame = Frame(kind: uint32, payload: seq<byte>)

  function Byte(x: nat): byte {
    x % 256
  }

  /** The header as both senders fill it in: only the low sixteen bits of the length are kept. */
  function Header(kind: uint32, len: nat): (h: seq<byte>)
    ensures |h| == HEADER_SIZE
  {
    [Byte(kind / 0x100_0000), Byte(kind / 0x1_0000), Byte(kind / 0x100), Byte(kind), Byte(len / 0x100), Byte(len)]
  }

  function HeaderKind(h: seq<byte>): uint32
    requires |h| >= HEADER_SIZE
  {
    h[0] as int * 0x100_0000 + h[1] as int * 0x1_0000 + h[2] as int * 0x100 + h[3]
  }

  function HeaderLength(h: seq<byte>): nat
    requires |h| >= HEADER_SIZE
  {
    h[4] as int * 0x100 + h[5]
  }

  function Encode(f: Frame): seq<byte> {
    Header(f.kind, |f.payload|) + f.payload
  }

  function EncodeAll(frames: seq<Frame>): seq<byte> {
    if frames == [] then [] else Encode(frames[0]) + EncodeAll(frames[1..])
  }

  /** The first frame of a stream, unless it is incomplete or longer than the receiver's buffer. */
  function Decode(stream: seq<byte>, maxLen: nat): (f: Option<Frame>)
    ensures f.Some? ==> HEADER_SIZE + |f.value.payload| <= |stream| && |f.value.payload| <= maxLen
  {
    if |stream| < HEADER_SIZE then None
    else
      var len := HeaderLength(stream);
      if len > maxLen || HEADER_SIZE + len > |stream| then None
      else Some(Frame(HeaderKind(stream), stream[HEADER_SIZE..HEADER_SIZE + len]))
  }

  /** The frames a receiver gets out of a stream before it stops. */
  function DecodeAll(stream: seq<byte>, maxLen: nat): seq<Frame>
    decreases |stream|
  {
    match Decode(stream, maxLen)
    case None => []
    case Some(f) => [f] + DecodeAll(stream[HEADER_SIZE + |f.payload|..], maxLen)
  }

  // Round trips

  lemma HeaderRoundTrip(kind: uint32, len: nat, rest: seq<byte>)
    ensures HeaderKind(Header(kind, len) + rest) == kind
    ensures HeaderLength(Header(kind, len) + rest) == len % 0x1_0000
  {
    KindBytes(kind);
    LengthBytes(len);
  }

  lemma KindBytes(kind: uint32)
    ensures Byte(kind / 0x100_0000) * 0x100_0000 + Byte(kind / 0x1_0000) * 0x1_0000 + Byte(kind / 0x100) * 0x100 +
            Byte(kind) == kind
  {
    assert kind / 0x1_0000 == kind / 0x100 / 0x100;
    assert kind / 0x100_0000 == kind / 0x100 / 0x100 / 0x100;
  }

  lemma LengthBytes(len: nat)
    ensures Byte(len / 0x100) * 0x100 + Byte(len) == len % 0x1_0000
  {
  }

  /** The payload fits the two-byte length and the receiver's buffer. */
  predicate Fits(f: Frame, maxLen: nat) {
    |f.payload| <= 0xFFFF && |f.payload| <= maxLen
  }

  /**
   The bytes on the wire: four for the type and two for the length, the most significant first, and then
   the payload itself.  What does not fit the two bytes of the length is lost from it.
   */
  lemma WireFormat(f: Frame)
    ensures var e := Encode(f);
            && |e| == 6 + |f.payload| && e[6..] == f.payload
            && f.kind == 16777216 * e[0] as int + 65536 * e[1] as int + 256 * e[2] as int + e[3] as int
            && |f.payload| % 65536 == 256 * e[4] as int + e[5] as int
  {
    KindBytes(f.kind);
    LengthBytes(|f.payload|);
  }

  /** A frame comes back with its type and payload and nothing more, exactly when it fits. */
  lemma FrameRoundTrip(f: Frame, rest: seq<byte>, maxLen: nat)
    ensures Decode(Encode(f) + rest, maxLen) == Some(f) <==> Fits(f, maxLen)
  {
    var stream := Encode(f) + rest;
    assert stream == Header(f.kind, |f.payload|) + (f.payload + rest);
    HeaderRoundTrip(f.kind, |f.payload|, f.payload + rest);
    if Fits(f, maxLen) {
      assert stream[HEADER_SIZE..HEADER_SIZE + |f.payload|] == f.payload;
    }
  }

  /** A sequence of frames comes back in order, whatever part of a frame is still under way. */
  lemma {:induction false} FramesRoundTrip(frames: seq<Frame>, rest: seq<byte>, maxLen: nat)
    requires forall k | 0 <= k < |frames| :: Fits(frames[k], maxLen)
    requires Decode(rest, maxLen) == None
    ensures DecodeAll(EncodeAll(frames) + rest, maxLen) == frames
    decreases |frames|
  {
    hide Encode, Decode;
    if frames == [] {
      assert [] + rest == rest;
    } else {
      var f := frames[0];
      var tail := EncodeAll(frames[1..]) + rest;
      var stream := EncodeAll(frames) + rest;
      assert stream == Encode(f) + tail;
      FrameRoundTrip(f, tail, maxLen);
      EncodedLength(f);
      assert stream[HEADER_SIZE + |f.payload|..] == tail;
      FramesRoundTrip(frames[1..], rest, maxLen);
    }
  }

  lemma DecodeAllStep(stream: seq<byte>, maxLen: nat, f: Frame)
    requires Decode(stream, maxLen) == Some(f)
    ensures DecodeAll(stream, maxLen) == [f] + DecodeAll(stream[HEADER_SIZE + |f.payload|..], maxLen)
  {
  }

  datatype Received = Stuck | Received(frames: seq<Frame>, rest: seq<byte>)

  /** `n` successful receives: the frames, and what is left of the stream. */
  function ReceiveN(stream: seq<byte>, n: nat, maxLen: nat): Received {
    if n == 0 then Received([], stream)
    else
      match Decode(stream, maxLen)
      case None => Stuck
      case Some(f) =>
        match ReceiveN(stream[HEADER_SIZE + |f.payload|..], n - 1, maxLen)
        case Stuck => Stuck
        case Received(frames, rest) => Received([f] + frames, rest)
  }

  /** As many receives as sends return the sent frames and consume exactly the sent bytes. */
  lemma {:induction false} SentIsReceived(frames: seq<Frame>, rest: seq<byte>, maxLen: nat)
    requires forall k | 0 <= k < |frames| :: Fits(frames[k], maxLen)
    ensures ReceiveN(EncodeAll(frames) + rest, |frames|, maxLen) == Received(frames, rest)
    decreases |frames|
  {
    hide Encode, Decode;
    if frames == [] {
      assert [] + rest == rest;
    } else {
      var f := frames[0];
      var tail := EncodeAll(frames[1..]) + rest;
      var stream := EncodeAll(frames) + rest;
      assert stream == Encode(f) + tail;
      FrameRoundTrip(f, tail, maxLen);
      EncodedLength(f);
      assert stream[HEADER_SIZE + |f.payload|..] == tail;
      SentIsReceived(frames[1..], rest, maxLen);
      assert [f] + frames[1..] == frames;
    }
  }

  lemma {:induction false} EncodeAllSnoc(frames: seq<Frame>, f: Frame)
    ensures EncodeAll(frames + [f]) == EncodeAll(frames) + Encode(f)
    decreases |frames|
  {
    hide Encode;
    if frames == [] {
      assert [f][1..] == [];
    } else {
      assert (frames + [f])[1..] == frames[1..] + [f];
      EncodeAllSnoc(frames[1..], f);
    }
  }

  lemma EncodedLength(f: Frame)
    ensures |Encode(f)| == HEADER_SIZE + |f.payload|
  {
  }

  // The socket

  type Script = nat -> int

  /** The calls number `from` up to `to`: all went well, but for the last one if they failed. */
  ghost predicate Calls(script: Script, from: nat, to: nat, failed: bool) {
    && from <= to && (failed ==> from < to)
    && forall k | from <= k < to :: script(k) <= 0 <==> failed && k == to - 1
  }

  function Min(a: int, b: int): int {
    if a < b then a else b
  }

  class Channel {
    const writing: Script
    const reading: Script
    var stream: seq<byte>
    var consumed: nat
    var writeCalls: nat
    var readCalls: nat

    predicate Valid()
      reads this
    {
      consumed <= |stream|
    }

    function Unread(): seq<byte>
      requires Valid()
      reads this
    {
      stream[consumed..]
    }

    constructor (writing: Script, reading: Script)
      ensures this.writing == writing && this.reading == reading
      ensures Valid() && stream == [] && consumed == writeCalls == readCalls == 0
    {
      this.writing, this.reading := writing, reading;
      stream, consumed, writeCalls, readCalls := [], 0, 0, 0;
    }

    /** `write` */
    method Write(buf: array<byte>, from: nat, count: nat) returns (n: int)
      requires 0 < count && from + count <= buf.Length
      modifies this`stream, this`writeCalls
      ensures n == Min(writing(old(writeCalls)), count) && writeCalls == old(writeCalls) + 1
      ensures stream == old(stream) + if n > 0 then buf[from..from + n] else []
    {
      n := Min(writing(writeCalls), count);
      writeCalls := writeCalls + 1;
      if n > 0 {
        stream := stream + buf[from..from + n];
      }
    }

    /** `read`; at the end of the stream it moves nothing. */
    method Read(buf: array<byte>, from: nat, count: nat) returns (n: int)
      requires Valid() && 0 < count && from + count <= buf.Length
      modifies this`consumed, this`readCalls, buf
      ensures n == Min(Min(reading(old(readCalls)), count), |stream| - old(consumed)) && readCalls == old(readCalls) + 1
      ensures Valid() && consumed == old(consumed) + if n > 0 then n else 0
      ensures buf[..from] == old(buf[..from])
      ensures n > 0 ==> buf[from..from + n] == stream[old(consumed)..consumed]
    {
      n := Min(Min(reading(readCalls), count), |stream| - consumed);
      readCalls := readCalls + 1;
      if n > 0 {
        forall k | 0 <= k < n {
          buf[from + k] := stream[consumed + k];
        }
        consumed := consumed + n;
      }
    }

    /** The loop that writes `len` bytes, as both senders have it for the header and the payload. */
    method WriteAll(buf: array<byte>, len: nat) returns (ok: bool)
      requires len <= buf.Length
      modifies this`stream, this`writeCalls
      ensures Calls(writing, old(writeCalls), writeCalls, !ok)
      ensures writeCalls - old(writeCalls) <= |stream| - |old(stream)| + if ok then 0 else 1
      ensures if ok then stream == old(stream) + buf[..len] else old(stream) <= stream < old(stream) + buf[..len]
    {
      var sent := 0;
      while sent < len
        invariant sent <= len && stream == old(stream) + buf[..sent]
        invariant Calls(writing, old(writeCalls), writeCalls, false) && writeCalls - old(writeCalls) <= sent
      {
        var n := Write(buf, sent, len - sent);
        if n <= 0 {
          return false;
        }
        assert buf[..sent] + buf[sent..sent + n] == buf[..sent + n];
        sent := sent + n;
      }
      return true;
    }

    /** The loop that reads `len` bytes, as both receivers have it. */
    method ReadAll(buf: array<byte>, len: nat) returns (ok: bool)
      requires Valid() && len <= buf.Length
      modifies this`consumed, this`readCalls, buf
      ensures Valid() && old(consumed) <= consumed <= old(consumed) + len
      ensures ok <==> consumed == old(consumed) + len
      ensures ok ==> Calls(reading, old(readCalls), readCalls, false) && buf[..len] == stream[old(consumed)..consumed]
      ensures !ok ==>
                || Calls(reading, old(readCalls), readCalls, true)
                || (Calls(reading, old(readCalls), readCalls, false) && consumed == |stream|)
      ensures readCalls - old(readCalls) <= consumed - old(consumed) + if ok then 0 else 1
    {
      var total := 0;
      while total < len
        invariant total <= len && Valid() && consumed == old(consumed) + total
        invariant buf[..total] == stream[old(consumed)..consumed]
        invariant Calls(reading, old(readCalls), readCalls, false) && readCalls - old(readCalls) <= total
      {
        var n := Read(buf, total, len - total);
        if n <= 0 {
          return false;
        }
        assert buf[..total + n] == buf[..total] + buf[total..total + n];
        assert stream[old(consumed)..consumed] ==
               stream[old(consumed)..old(consumed) + total] + stream[old(consumed) + total..consumed];
        total := total + n;
      }
      return true;
    }

    method FillHeader(kind: uint32, len: nat) returns (header: array<byte>)
      ensures fresh(header) && header[..] == Header(kind, len)
    {
      header := new byte[HEADER_SIZE];
      header[0] := kind / 0x100_0000 % 256;
      header[1] := kind / 0x1_0000 % 256;
      header[2] := kind / 0x100 % 256;
      header[3] := kind % 256;
      header[4] := len / 0x100 % 256;
      header[5] := len % 256;
    }

    /** `send_frame` of the fake device: the length is not checked. */
    method SendUnchecked(kind: uint32, payload: array<byte>, len: nat) returns (ok: bool)
      requires len <= payload.Length
      modifies this`stream, this`writeCalls
      ensures var sent := Encode(Frame(kind, payload[..len]));
              if ok then stream == old(stream) + sent else old(stream) <= stream < old(stream) + sent
      ensures Calls(writing, old(writeCalls), writeCalls, !ok)
      ensures writeCalls - old(writeCalls) <= |stream| - |old(stream)| + if ok then 0 else 1
    {
      var header := FillHeader(kind, len);
      assert header[..HEADER_SIZE] == Header(kind, len);
      ok := WriteAll(header, HEADER_SIZE);
      if !ok {
        return;
      }
      assert (old(stream) + header[..HEADER_SIZE]) + payload[..len] ==
             old(stream) + Encode(Frame(kind, payload[..len]));
      ok := WriteAll(payload, len);
    }

    /**
     `send_frame` of the client: a payload that is too long is refused before anything is written; any
     other frame is sent unless a `write` fails.
     */
    method SendFrame(kind: uint32, payload: array<byte>, len: nat) returns (ok: bool)
      requires len <= payload.Length
      modifies this`stream, this`writeCalls
      ensures len > 0xFFFF ==> !ok && stream == old(stream) && writeCalls == old(writeCalls)
      ensures len <= 0xFFFF ==>
                var sent := Encode(Frame(kind, payload[..len]));
                && (if ok then stream == old(stream) + sent else old(stream) <= stream < old(stream) + sent)
                && Calls(writing, old(writeCalls), writeCalls, !ok)
      ensures writeCalls - old(writeCalls) <= |stream| - |old(stream)| + if ok then 0 else 1
    {
      if len > MAX_PAYLOAD {
        return false;
      }
      ok := SendUnchecked(kind, payload, len);
    }

    /**
     `recv_frame`, the same on both sides.  Success means the stream's next frame, and that exactly its
     bytes were consumed; without a failing `read` it fails only when there is no such frame.
     */
    method RecvFrame(payload: array<byte>, maxLen: nat) returns (ok: bool, kind: uint32, len: nat)
      requires Valid() && maxLen <= payload.Length
      modifies this`consumed, this`readCalls, payload
      ensures Valid() && old(consumed) <= consumed
      ensures readCalls - old(readCalls) <= consumed - old(consumed) + if ok then 0 else 1
      ensures ok ==> Calls(reading, old(readCalls), readCalls, false)
      ensures ok ==> len <= maxLen && Decode(old(Unread()), maxLen) == Some(Frame(kind, payload[..len]))
      ensures ok ==> consumed == old(consumed) + HEADER_SIZE + len
      ensures !ok ==>
                || Calls(reading, old(readCalls), readCalls, true)
                || (Calls(reading, old(readCalls), readCalls, false) && Decode(old(Unread()), maxLen) == None)
    {
      kind, len := 0, 0;
      var header := new byte[HEADER_SIZE];
      ok := ReadAll(header, HEADER_SIZE);
      if !ok {
        return;
      }
      ghost var unread := old(Unread());
      assert header[..HEADER_SIZE] == unread[..HEADER_SIZE];
      HeaderOf(header[..HEADER_SIZE], unread);
      kind := header[0] as int * 0x100_0000 + header[1] as int * 0x1_0000 + header[2] as int * 0x100 + header[3];
      len := header[4] as int * 0x100 + header[5];
      if len > maxLen {
        return false, kind, len;
      }
      ok := ReadAll(payload, len);
      assert ok ==> payload[..len] == unread[HEADER_SIZE..HEADER_SIZE + len];
    }

    /**
     `while (recv_frame(...))`: whatever the short reading, a prefix of the frames in the stream, and all of
     them unless a `read` fails.
     */
    method ReceiveFrames(payload: array<byte>, maxLen: nat) returns (received: seq<Frame>)
      requires Valid() && maxLen <= payload.Length
      modifies this`consumed, this`readCalls, payload
      ensures Valid() && received <= DecodeAll(old(Unread()), maxLen)
      ensures
        || Calls(reading, old(readCalls), readCalls, true)
        || (Calls(reading, old(readCalls), readCalls, false) && received == DecodeAll(old(Unread()), maxLen))
      ensures consumed >= old(consumed) + |EncodeAll(received)|
    {
      hide Decode, DecodeAll, Encode, EncodeAll;
      received := [];
      NothingEncoded();
      ghost var all := DecodeAll(Unread(), maxLen);
      while true
        invariant Valid() && received + DecodeAll(Unread(), maxLen) == all
        invariant consumed >= old(consumed) + |EncodeAll(received)|
        invariant Calls(reading, old(readCalls), readCalls, false)
        decreases |stream| - consumed
      {
        ghost var unread := Unread();
        var ok, kind, len := RecvFrame(payload, maxLen);
        if !ok {
          NothingToDecode(unread, maxLen);
          return;
        }
        var frame := Frame(kind, payload[..len]);
        assert Unread() == unread[HEADER_SIZE + len..];
        DecodeAllStep(unread, maxLen, frame);
        EncodeAllSnoc(received, frame);
        EncodedLength(frame);
        received := received + [frame];
      }
    }

    /** Either end sends the frames one after the other; the first failure ends it. */
    method SendFrames(frames: seq<Frame>) returns (ok: bool)
      requires forall k | 0 <= k < |frames| :: |frames[k].payload| <= 0xFFFF
      modifies this`stream, this`writeCalls
      ensures old(stream) <= stream
      ensures ok ==> stream == old(stream) + EncodeAll(frames)
      ensures Calls(writing, old(writeCalls), writeCalls, !ok)
    {
      hide Encode, EncodeAll;
      NothingEncoded();
      for i := 0 to |frames|
        invariant stream == old(stream) + EncodeAll(frames[..i])
        invariant Calls(writing, old(writeCalls), writeCalls, false)
      {
        var f := frames[i];
        var payload := new byte[|f.payload|](k requires 0 <= k < |f.payload| => f.payload[k]);
        assert payload[..|f.payload|] == f.payload;
        assert frames[..i + 1] == frames[..i] + [f];
        EncodeAllSnoc(frames[..i], f);
        if * {
          ok := SendFrame(f.kind, payload, payload.Length);
        } else {
          ok := SendUnchecked(f.kind, payload, payload.Length);
        }
        if !ok {
          return;
        }
      }
      assert frames[..|frames|] == frames;
      return true;
    }
  }

  lemma NothingEncoded()
    ensures EncodeAll([]) == []
  {
  }

  lemma NothingToDecode(stream: seq<byte>, maxLen: nat)
    ensures Decode(stream, maxLen) == None ==> DecodeAll(stream, maxLen) == []
  {
  }

  lemma HeaderOf(header: seq<byte>, stream: seq<byte>)
    requires |stream| >= |header| == HEADER_SIZE && header == stream[..HEADER_SIZE]
    ensures HeaderKind(stream) == HeaderKind(header) && HeaderLength(stream) == HeaderLength(header)
  {
  }

  /**
   End to end.  Frames that fit, sent over short writing and received over short reading, however the scripts
   split them: if no call fails, the receiver gets exactly the sent frames and consumes exactly the sent
   bytes; and whatever fails, it gets nothing that was not sent.
   */
  method Exchange(frames: seq<Frame>, maxLen: nat, writing: Script, reading: Script)
    returns (channel: Channel, received: seq<Frame>)
    requires forall k | 0 <= k < |frames| :: Fits(frames[k], maxLen)
    ensures fresh(channel) && channel.Valid() && received <= frames
    ensures (forall k: nat :: writing(k) > 0) && (forall k: nat :: reading(k) > 0) ==>
              received == frames && channel.stream == EncodeAll(frames) && channel.consumed == |channel.stream|
  {
    hide Decode, DecodeAll, Encode, EncodeAll, Calls;
    NeverFails(writing);
    NeverFails(reading);
    channel := new Channel(writing, reading);
    var ok := channel.SendFrames(frames);
    received := [];
    if ok {
      var buffer := new byte[maxLen];
      assert channel.Unread() == EncodeAll(frames) + [];
      NothingLeft(maxLen);
      FramesRoundTrip(frames, [], maxLen);
      received := channel.ReceiveFrames(buffer, maxLen);
    }
  }

  lemma NeverFails(script: Script)
    ensures (forall k: nat :: script(k) > 0) ==> forall from: nat, to: nat :: !Calls(script, from, to, true)
  {
    if forall k: nat :: script(k) > 0 {
      forall from: nat, to: nat
        ensures !Calls(script, from, to, true)
      {
        if from < to {
          assert script(to - 1) > 0;
        }
      }
    }
  }

  lemma NothingLeft(maxLen: nat)
    ensures Decode([], maxLen) == None
  {
  }
}
