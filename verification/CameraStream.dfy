/** Reassembly of camera frames from chunks (`on_state_msg`), with its size and in-flight caps. */
module CameraStream {
  import opened Wrappers

  const MAX_CAMERA_FRAME_BYTES := 8 * 1024 * 1024
  const MAX_INFLIGHT_CAMERA_KEYS := 4

  type Bytes = seq<bv8>

  /** A CameraImageResponse. */
  datatype Chunk = Chunk(key: nat, data: Bytes, done: bool, deviceId: nat)

  datatype Frame = Frame(key: nat, data: Bytes, deviceId: nat)

  /** A buffer, or None: the tombstone of a frame that outgrew the limit. */
  type Streams = map<nat, Option<Bytes>>

  /** The object that a subscription keeps between messages. */
  class CameraReassembly {
    var imageStream: Streams

    constructor ()
      ensures imageStream == map[]
    {
      imageStream := map[];
    }

    method OnStateMsg(c: Chunk) returns (emitted: Option<Frame>)
      modifies this
      ensures (imageStream, emitted) == OnChunk(old(imageStream), c)
    {
      hide Append;
      var buf := [];
      if c.key in imageStream && imageStream[c.key].Some? {
        buf := imageStream[c.key].value;
      } else {
        if c.key in imageStream {
          if c.done {
            imageStream := imageStream - {c.key};
          }
          return None;
        }
        if |imageStream| >= MAX_INFLIGHT_CAMERA_KEYS {
          return None;
        }
        OpenedStream(imageStream, c);
        imageStream := imageStream[c.key := Some(buf)];
      }
      emitted := AppendChunk(buf, c);
    }

    /** From the size check on: the chunk joins the buffer of its key. */
    method AppendChunk(kept: Bytes, c: Chunk) returns (emitted: Option<Frame>)
      requires c.key in imageStream && imageStream[c.key] == Some(kept)
      modifies this
      ensures (imageStream, emitted) == Append(old(imageStream), kept, c)
    {
      var buf := kept;
      if |buf| + |c.data| > MAX_CAMERA_FRAME_BYTES {
        if c.done {
          imageStream := imageStream - {c.key};
        } else {
          imageStream := imageStream[c.key := None];
        }
        return None;
      }
      buf := buf + c.data;
      imageStream := imageStream[c.key := Some(buf)];
      if c.done {
        imageStream := imageStream - {c.key};
        assert imageStream == old(imageStream) - {c.key};
        return Some(Frame(c.key, buf, c.deviceId));
      }
      assert imageStream == old(imageStream)[c.key := Some(buf)];
      return None;
    }
  }

  predicate Dropped(st: Streams, c: Chunk) {
    c.key !in st && |st| >= MAX_INFLIGHT_CAMERA_KEYS
  }

  /** The effect of one chunk: the streams afterwards and the frame it completes. */
  function OnChunk(st: Streams, c: Chunk): (Streams, Option<Frame>) {
    if Dropped(st, c) then (st, None)
    else if c.key in st && st[c.key] == None then (if c.done then st - {c.key} else st, None)
    else Append(st, if c.key in st then st[c.key].value else [], c)
  }

  function Append(st: Streams, kept: Bytes, c: Chunk): (Streams, Option<Frame>) {
    var buf := kept + c.data;
    if |buf| > MAX_CAMERA_FRAME_BYTES then
      (if c.done then st - {c.key} else st[c.key := None], None)
    else if c.done then
      (st - {c.key}, Some(Frame(c.key, buf, c.deviceId)))
    else
      (st[c.key := Some(buf)], None)
  }

  /** Opening an empty stream for a key makes no difference to what follows. */
  lemma OpenedStream(st: Streams, c: Chunk)
    requires c.key !in st
    ensures Append(st[c.key := Some([])], [], c) == Append(st, [], c)
  {
    assert st[c.key := Some([])] - {c.key} == st - {c.key};
    assert st[c.key := Some([])][c.key := None] == st[c.key := None];
    assert st[c.key := Some([])][c.key := Some([] + c.data)] == st[c.key := Some([] + c.data)];
  }

  datatype Run = Run(streams: Streams, frames: seq<Frame>, accepted: seq<Chunk>)

  /** Any sequence of chunks, over any keys. */
  function Receive(cs: seq<Chunk>): Run {
    if cs == [] then Run(map[], [], [])
    else
      var r := Receive(cs[..|cs| - 1]);
      var c := cs[|cs| - 1];
      var (st, frame) := OnChunk(r.streams, c);
      Run(st,
          r.frames + OptionSeq(frame),
          if Dropped(r.streams, c) then r.accepted else r.accepted + [c])
  }

  predicate NothingDropped(cs: seq<Chunk>) {
    cs == [] ||
    (NothingDropped(cs[..|cs| - 1]) && !Dropped(Receive(cs[..|cs| - 1]).streams, cs[|cs| - 1]))
  }

  // The specification: the chunks of one key, split at `done`

  function OfKey(cs: seq<Chunk>, key: nat): seq<Chunk> {
    if cs == [] then []
    else OfKey(cs[..|cs| - 1], key) + (if cs[|cs| - 1].key == key then [cs[|cs| - 1]] else [])
  }

  function FramesOf(fs: seq<Frame>, key: nat): seq<Frame> {
    if fs == [] then []
    else FramesOf(fs[..|fs| - 1], key) + (if fs[|fs| - 1].key == key then [fs[|fs| - 1]] else [])
  }

  /** The chunks after the last done chunk. */
  function Unfinished(cs: seq<Chunk>): seq<Chunk> {
    if cs == [] || cs[|cs| - 1].done then []
    else Unfinished(cs[..|cs| - 1]) + [cs[|cs| - 1]]
  }

  function Concat(cs: seq<Chunk>): Bytes {
    if cs == [] then [] else Concat(cs[..|cs| - 1]) + cs[|cs| - 1].data
  }

  /** The frame that `c` completes after the chunks `cs` of its key, if it fits. */
  function Completed(cs: seq<Chunk>, c: Chunk): seq<Frame> {
    var data := Concat(Unfinished(cs)) + c.data;
    if c.done && |data| <= 8388608 then [Frame(c.key, data, c.deviceId)] else []
  }

  /** One frame for each done chunk whose frame fits. */
  function SpecFrames(cs: seq<Chunk>): seq<Frame> {
    if cs == [] then [] else SpecFrames(cs[..|cs| - 1]) + Completed(cs[..|cs| - 1], cs[|cs| - 1])
  }

  // The streams are exactly the unfinished frames

  /** What is kept for the unfinished chunks of one key. */
  function Buffer(rest: seq<Chunk>): Option<Bytes> {
    if |Concat(rest)| <= 8388608 then Some(Concat(rest)) else None
  }

  ghost predicate Holds(st: Streams, key: nat, rest: seq<Chunk>) {
    (key in st <==> rest != []) && (key in st ==> st[key] == Buffer(rest))
  }

  ghost predicate StreamFits(st: Streams, cs: seq<Chunk>, key: nat) {
    Holds(st, key, Unfinished(OfKey(cs, key)))
  }

  lemma Snoc(cs: seq<Chunk>, c: Chunk)
    ensures (cs + [c])[..|cs + [c]| - 1] == cs && (cs + [c])[|cs + [c]| - 1] == c
  {
  }

  lemma ConcatSnoc(cs: seq<Chunk>, c: Chunk)
    ensures Concat(cs + [c]) == Concat(cs) + c.data
  {
    Snoc(cs, c);
  }

  lemma UnfinishedSnoc(cs: seq<Chunk>, c: Chunk)
    ensures Unfinished(cs + [c]) == if c.done then [] else Unfinished(cs) + [c]
  {
    Snoc(cs, c);
  }

  lemma OfKeySnoc(cs: seq<Chunk>, c: Chunk, key: nat)
    ensures OfKey(cs + [c], key) == OfKey(cs, key) + if c.key == key then [c] else []
  {
    Snoc(cs, c);
  }

  /** One chunk on the buffer of its key. */
  lemma ChunkOnBuffer(st: Streams, rest: seq<Chunk>, c: Chunk)
    requires Holds(st, c.key, rest) && !Dropped(st, c)
    ensures Holds(OnChunk(st, c).0, c.key, if c.done then [] else rest + [c])
    ensures var data := Concat(rest) + c.data;
            OptionSeq(OnChunk(st, c).1) ==
            if c.done && |data| <= 8388608 then [Frame(c.key, data, c.deviceId)] else []
  {
    ConcatSnoc(rest, c);
    NothingConcatenated();
    hide Concat;
    assert rest == [] ==> Concat(rest) + c.data == c.data;
  }

  lemma NothingConcatenated()
    ensures Concat([]) == []
  {
  }

  lemma OwnChunkFits(st: Streams, cs: seq<Chunk>, c: Chunk)
    requires StreamFits(st, cs, c.key) && !Dropped(st, c)
    ensures StreamFits(OnChunk(st, c).0, cs + [c], c.key)
    ensures OptionSeq(OnChunk(st, c).1) == Completed(OfKey(cs, c.key), c)
  {
    hide OnChunk, Dropped, Concat, Unfinished, OfKey, Holds, OptionSeq;
    OfKeySnoc(cs, c, c.key);
    UnfinishedSnoc(OfKey(cs, c.key), c);
    ChunkOnBuffer(st, Unfinished(OfKey(cs, c.key)), c);
  }

  lemma OtherChunkFits(st: Streams, cs: seq<Chunk>, c: Chunk, key: nat)
    requires StreamFits(st, cs, key) && c.key != key
    ensures StreamFits(OnChunk(st, c).0, cs + [c], key)
    ensures OnChunk(st, c).1.Some? ==> OnChunk(st, c).1.value.key == c.key
    ensures OfKey(cs + [c], key) == OfKey(cs, key) && (key in OnChunk(st, c).0 <==> key in st)
  {
    hide Concat, Unfinished, Buffer;
    OfKeySnoc(cs, c, key);
    assert OfKey(cs, key) + [] == OfKey(cs, key);
  }

  function OptionSeq(f: Option<Frame>): seq<Frame> {
    if f.Some? then [f.value] else []
  }

  lemma FramesAppend(fs: seq<Frame>, f: Option<Frame>, key: nat)
    ensures FramesOf(fs + OptionSeq(f), key) ==
            FramesOf(fs, key) + if f.Some? && f.value.key == key then [f.value] else []
  {
    if f.Some? {
      assert (fs + [f.value])[..|fs|] == fs;
    } else {
      assert fs + [] == fs;
    }
  }

  /** The accepted chunks up to `c`, one more step of `AcceptedRefines`. */
  lemma AcceptRefines(r: Run, c: Chunk, key: nat)
    requires StreamFits(r.streams, r.accepted, key) && !Dropped(r.streams, c)
    requires FramesOf(r.frames, key) == SpecFrames(OfKey(r.accepted, key))
    ensures StreamFits(OnChunk(r.streams, c).0, r.accepted + [c], key)
    ensures FramesOf(r.frames + OptionSeq(OnChunk(r.streams, c).1), key) == SpecFrames(OfKey(r.accepted + [c], key))
  {
    Snoc(r.accepted, c);
    FramesAppend(r.frames, OnChunk(r.streams, c).1, key);
    if c.key == key {
      OwnChunkFits(r.streams, r.accepted, c);
      Snoc(OfKey(r.accepted, key), c);
    } else {
      OtherChunkFits(r.streams, r.accepted, c, key);
      assert OfKey(r.accepted + [c], key) == OfKey(r.accepted, key);
    }
  }

  lemma {:induction false} AcceptedRefines(cs: seq<Chunk>, key: nat)
    ensures var r := Receive(cs);
            StreamFits(r.streams, r.accepted, key) && FramesOf(r.frames, key) == SpecFrames(OfKey(r.accepted, key))
  {
    if cs != [] {
      AcceptedRefines(cs[..|cs| - 1], key);
      var r := Receive(cs[..|cs| - 1]);
      var c := cs[|cs| - 1];
      if !Dropped(r.streams, c) {
        AcceptRefines(r, c, key);
      } else {
        assert r.frames + [] == r.frames;
      }
    }
  }

  lemma {:induction false} NothingDroppedAccepts(cs: seq<Chunk>)
    ensures NothingDropped(cs) <==> Receive(cs).accepted == cs
    ensures |Receive(cs).accepted| <= |cs|
  {
    if cs != [] {
      NothingDroppedAccepts(cs[..|cs| - 1]);
      Snoc(Receive(cs[..|cs| - 1]).accepted, cs[|cs| - 1]);
      assert cs == cs[..|cs| - 1] + [cs[|cs| - 1]];
    }
  }

  /**
   Refinement.  Whatever the interleaving, the frames emitted for a key are the done-terminated
   concatenations of its accepted chunks that fit, in order; with nothing dropped, of all its chunks.
   */
  lemma CameraRefinement(cs: seq<Chunk>, key: nat)
    ensures FramesOf(Receive(cs).frames, key) == SpecFrames(OfKey(Receive(cs).accepted, key))
    ensures NothingDropped(cs) ==> FramesOf(Receive(cs).frames, key) == SpecFrames(OfKey(cs, key))
  {
    AcceptedRefines(cs, key);
    NothingDroppedAccepts(cs);
  }

  // What is dropped

  /** The keys of the frames that are under way: the accepted chunks of the key do not end in a done chunk. */
  ghost function UnderWay(cs: seq<Chunk>): set<nat> {
    set c | c in cs && Unfinished(OfKey(cs, c.key)) != [] :: c.key
  }

  lemma {:induction false} OfKeyOccurs(cs: seq<Chunk>, key: nat)
    ensures OfKey(cs, key) != [] <==> exists c :: c in cs && c.key == key
  {
    if cs != [] {
      var init := cs[..|cs| - 1];
      OfKeyOccurs(init, key);
      assert cs == init + [cs[|cs| - 1]];
      if c :| c in init && c.key == key {
        assert c in cs;
      }
    }
  }

  lemma StreamsAreUnderWay(cs: seq<Chunk>)
    ensures Receive(cs).streams.Keys == UnderWay(Receive(cs).accepted)
  {
    var r := Receive(cs);
    forall key
      ensures key in r.streams <==> key in UnderWay(r.accepted)
    {
      AcceptedRefines(cs, key);
      OfKeyOccurs(r.accepted, key);
      if key in r.streams {
        var c :| c in r.accepted && c.key == key;
      }
    }
  }

  /**
   A chunk is dropped exactly when it would begin a frame while four or more other keys have a frame under
   way; every other chunk is accepted.
   */
  lemma DroppedExactly(cs: seq<Chunk>, c: Chunk)
    ensures var accepted := Receive(cs).accepted;
            && (Receive(cs + [c]).accepted == accepted <==>
                  Unfinished(OfKey(accepted, c.key)) == [] && |UnderWay(accepted)| >= 4)
            && (Receive(cs + [c]).accepted != accepted ==> Receive(cs + [c]).accepted == accepted + [c])
  {
    Snoc(cs, c);
    StreamsAreUnderWay(cs);
    AcceptedRefines(cs, c.key);
    KeysCount(Receive(cs).streams);
  }

  lemma KeysCount(st: Streams)
    ensures |st.Keys| == |st|
  {
  }

  function KeysOf(cs: seq<Chunk>): set<nat> {
    set c | c in cs :: c.key
  }

  lemma {:induction false} AllAccepted(cs: seq<Chunk>)
    requires |KeysOf(cs)| <= 4
    ensures Receive(cs).accepted == cs
  {
    if cs != [] {
      var init := cs[..|cs| - 1];
      var c := cs[|cs| - 1];
      assert cs == init + [c];
      assert KeysOf(cs) == KeysOf(init) + {c.key};
      FewerKeys(KeysOf(init), KeysOf(cs));
      AllAccepted(init);
      DroppedExactly(init, c);
      if Unfinished(OfKey(init, c.key)) == [] {
        assert c.key !in UnderWay(init);
        FewerKeys(UnderWay(init) + {c.key}, KeysOf(cs));
      }
    }
  }

  lemma FewerKeys(a: set<nat>, b: set<nat>)
    requires a <= b
    ensures |a| <= |b|
  {
    assert b == a + (b - a);
  }

  /** A device with at most four cameras loses nothing: every frame that fits is delivered, in order. */
  lemma FewCamerasLoseNothing(cs: seq<Chunk>, key: nat)
    requires |KeysOf(cs)| <= 4
    ensures FramesOf(Receive(cs).frames, key) == SpecFrames(OfKey(cs, key))
  {
    AllAccepted(cs);
    CameraRefinement(cs, key);
  }

  // Bounds, drops included

  lemma {:induction false} CameraBounds(cs: seq<Chunk>)
    ensures var st := Receive(cs).streams;
            |st| <= 4 && forall k | k in st && st[k].Some? :: |st[k].value| <= 8388608
  {
    if cs != [] {
      CameraBounds(cs[..|cs| - 1]);
    }
  }

  /** Chunks `from` to `to` of `cs` are one frame: they end with the only done chunk among them. */
  ghost predicate OneFrame(cs: seq<Chunk>, from: nat, to: nat) {
    from <= to < |cs| && cs[to].done && forall i | from <= i < to :: !cs[i].done
  }

  /** The frame is made of the chunks `from` to `to`. */
  ghost predicate FrameAt(f: Frame, cs: seq<Chunk>, from: nat, to: nat) {
    OneFrame(cs, from, to) && f.data == Concat(cs[from..to + 1]) && f.deviceId == cs[to].deviceId
  }

  ghost predicate IsFrameOf(f: Frame, cs: seq<Chunk>) {
    exists from: nat, to: nat :: FrameAt(f, cs, from, to)
  }

  /** `rest` is the end of `own`, with no done chunk in it. */
  ghost predicate IsTail(rest: seq<Chunk>, own: seq<Chunk>) {
    |rest| <= |own| && own[|own| - |rest|..] == rest && forall i | 0 <= i < |rest| :: !rest[i].done
  }

  /** What is in flight for a key is the tail of the key's own chunks. */
  ghost predicate TailInFlight(r: Run, own: seq<Chunk>, key: nat) {
    key in r.streams ==> IsTail(Unfinished(OfKey(r.accepted, key)), own)
  }

  lemma TailExtends(rest: seq<Chunk>, own: seq<Chunk>, c: Chunk)
    requires IsTail(rest, own) && !c.done
    ensures IsTail(rest + [c], own + [c])
  {
    assert (own + [c])[|own| - |rest|..] == own[|own| - |rest|..] + [c];
  }

  lemma TailIsFrame(rest: seq<Chunk>, own: seq<Chunk>, c: Chunk)
    requires IsTail(rest, own) && c.done
    ensures IsFrameOf(Frame(c.key, Concat(rest) + c.data, c.deviceId), own + [c])
  {
    var first := |own| - |rest|;
    Snoc(rest, c);
    assert (own + [c])[first..|own| + 1] == own[first..] + [c];
    assert forall i | first <= i < |own| :: (own + [c])[i] == rest[i - first];
    assert OneFrame(own + [c], first, |own|);
    assert FrameAt(Frame(c.key, Concat(rest) + c.data, c.deviceId), own + [c], first, |own|);
  }

  ghost predicate AllFrames(fs: seq<Frame>, own: seq<Chunk>) {
    forall i | 0 <= i < |fs| :: |fs[i].data| <= 8388608 && IsFrameOf(fs[i], own)
  }

  lemma LongerHistory(fs: seq<Frame>, own: seq<Chunk>, c: Chunk)
    requires AllFrames(fs, own)
    ensures AllFrames(fs, own + [c])
  {
    forall i | 0 <= i < |fs|
      ensures IsFrameOf(fs[i], own + [c])
    {
      var from: nat, to: nat :| FrameAt(fs[i], own, from, to);
      assert (own + [c])[from..to + 1] == own[from..to + 1];
      assert FrameAt(fs[i], own + [c], from, to);
    }
  }

  lemma ChunkKeepsTail(r: Run, own: seq<Chunk>, c: Chunk)
    requires StreamFits(r.streams, r.accepted, c.key) && TailInFlight(r, own, c.key) && !Dropped(r.streams, c)
    ensures TailInFlight(Run(OnChunk(r.streams, c).0, [], r.accepted + [c]), own + [c], c.key)
    ensures AllFrames(OptionSeq(OnChunk(r.streams, c).1), own + [c])
  {
    hide OnChunk, Dropped, Concat, Unfinished, OfKey, IsTail, IsFrameOf;
    var accepted := OfKey(r.accepted, c.key);
    var rest := Unfinished(accepted);
    OwnChunkFits(r.streams, r.accepted, c);
    OfKeySnoc(r.accepted, c, c.key);
    UnfinishedSnoc(accepted, c);
    EmptyIsTail(own);
    if c.done {
      TailIsFrame(rest, own, c);
    } else {
      TailExtends(rest, own, c);
    }
  }

  lemma EmptyIsTail(own: seq<Chunk>)
    ensures IsTail([], own)
  {
  }

  /** One more step of `FramesAreConsecutive`. */
  lemma OneMoreChunk(r: Run, own: seq<Chunk>, c: Chunk, key: nat)
    requires StreamFits(r.streams, r.accepted, key) && TailInFlight(r, own, key)
    requires AllFrames(FramesOf(r.frames, key), own) && !Dropped(r.streams, c)
    ensures var own' := own + if c.key == key then [c] else [];
            var r' := Run(OnChunk(r.streams, c).0, r.frames + OptionSeq(OnChunk(r.streams, c).1), r.accepted + [c]);
            AllFrames(FramesOf(r'.frames, key), own') && TailInFlight(r', own', key)
  {
    FramesAppend(r.frames, OnChunk(r.streams, c).1, key);
    if c.key == key {
      LongerHistory(FramesOf(r.frames, key), own, c);
      ChunkKeepsTail(r, own, c);
    } else {
      OtherChunkFits(r.streams, r.accepted, c, key);
      Snoc(r.accepted, c);
      assert own + [] == own;
    }
  }

  /**
   Even with drops, every emitted frame is at most the limit and is the concatenation of consecutive
   chunks of its key that end in a done chunk: it never spans two frames.
   */
  lemma {:induction false} FramesAreConsecutive(cs: seq<Chunk>, key: nat)
    ensures AllFrames(FramesOf(Receive(cs).frames, key), OfKey(cs, key))
    ensures TailInFlight(Receive(cs), OfKey(cs, key), key)
  {
    if cs != [] {
      var init := cs[..|cs| - 1];
      FramesAreConsecutive(init, key);
      AcceptedRefines(init, key);
      var r := Receive(init);
      var c := cs[|cs| - 1];
      if !Dropped(r.streams, c) {
        OneMoreChunk(r, OfKey(init, key), c, key);
      } else {
        OneDroppedChunk(r, OfKey(init, key), c, key);
      }
    }
  }

  lemma OneDroppedChunk(r: Run, own: seq<Chunk>, c: Chunk, key: nat)
    requires TailInFlight(r, own, key) && AllFrames(FramesOf(r.frames, key), own) && Dropped(r.streams, c)
    ensures var own' := own + if c.key == key then [c] else [];
            AllFrames(FramesOf(r.frames + [], key), own') && TailInFlight(r, own', key)
  {
    LongerHistory(FramesOf(r.frames, key), own, c);
    assert r.frames + [] == r.frames;
    assert own + [] == own;
  }
}
