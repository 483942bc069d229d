/** The serial frame buffer: fixed 23-byte status frames out of whatever pieces the serial port delivers. */
module StatusFrames {
  import opened Wrappers
  import opened Deframing

  const FRAME_START: bv8 := 0x7b
  const FRAME_END: bv8 := 0x7d
  const FRAME_LENGTH: nat := 23
  const CAPACITY: nat := 512
  const READ_SIZE: nat := 256

  function Decide(data: Bytes): Decision {
    if data == [] then NeedMore
    else if data[0] != FRAME_START then Skip(false)
    else if |data| < FRAME_LENGTH then NeedMore
    else if data[FRAME_LENGTH - 1] == FRAME_END then Take(FRAME_LENGTH)
    else Skip(false)
  }

  lemma DecideIsSound()
    ensures Sound(Decide) && Local(Decide)
  {
    forall b: Bytes, c: Bytes | !Decide(b).NeedMore? ensures Decide(b + c) == Decide(b) {
      assert (b + c)[0] == b[0];
    }
  }

  predicate WellFormed(f: Bytes) {
    |f| == FRAME_LENGTH && f[0] == FRAME_START && f[FRAME_LENGTH - 1] == FRAME_END
  }

  /** The frames are the well-formed ones, and what stays in the buffer is shorter than a frame. */
  lemma FramesAndResidue(data: Bytes)
    ensures Sound(Decide)
    ensures |Parse(Decide, data).rest| < FRAME_LENGTH
    ensures forall f :: f in Parse(Decide, data).frames ==> WellFormed(f)
    ensures forall f :: WellFormed(f) <==> IsFrame(Decide, f)
  {
    DecideIsSound();
    OnlyFramesComeOut(Decide, data);
    assert Decide(Parse(Decide, data).rest).NeedMore?;
  }

  /** Index of the last start byte, or the length if there is none. */
  function LastStart(data: Bytes, upTo: nat): (r: nat)
    requires upTo <= |data|
    ensures r == |data| || (r < upTo && data[r] == FRAME_START)
    ensures forall i :: (if r == |data| then 0 else r + 1) <= i < upTo ==> data[i] != FRAME_START
  {
    if upTo == 0 then |data| else if data[upTo - 1] == FRAME_START then upTo - 1 else LastStart(data, upTo - 1)
  }

  function CutTo(capacity: nat, data: Bytes): Bytes {
    if |data| > capacity then data[|data| - capacity..] else data
  }

  function Trimmed(capacity: nat, data: Bytes): Bytes {
    if |data| <= capacity then data
    else
      var start := LastStart(data, |data|);
      CutTo(capacity, if start < |data| then data[start..] else data)
  }

  /**
   Too much data is cut to the newest bytes within capacity, and to the last byte that may start a frame and what follows
   it: whatever is kept goes back either to that byte or as far as the capacity allows.
   */
  lemma TrimmedKeepsTheNewest(capacity: nat, data: Bytes)
    requires |data| > capacity
    ensures
      var r := Trimmed(capacity, data);
      && |r| <= capacity && r == data[|data| - |r|..]
      && (forall i :: 0 < i < |r| && r[0] == FRAME_START ==> r[i] != FRAME_START)
      && (|r| < capacity ==> r != [] && r[0] == FRAME_START)
      && ((exists i :: |data| - capacity <= i < |data| && data[i] == FRAME_START) && capacity > 0 ==>
            r != [] && r[0] == FRAME_START)
  {
  }

  /** One read: append, trim, drain. */
  function Received(capacity: nat, before: Parsed, chunk: Bytes): Parsed
    requires Sound(Decide)
  {
    Joined(before, Parse(Decide, Trimmed(capacity, before.rest + chunk)))
  }

  function AllReceived(capacity: nat, chunks: seq<Bytes>): Parsed
    requires Sound(Decide)
  {
    if chunks == [] then Parsed([], [], 0)
    else var last := |chunks| - 1; Received(capacity, AllReceived(capacity, chunks[..last]), chunks[last])
  }

  /**
   With reads no longer than the read buffer the capacity is never reached, and the frames delivered are those of
   one parse of the whole stream, however it was cut into reads.
   */
  lemma {:induction false} DeframingRefinesParse(chunks: seq<Bytes>)
    requires forall c :: c in chunks ==> |c| <= READ_SIZE
    ensures Sound(Decide)
    ensures AllReceived(CAPACITY, chunks) == Parse(Decide, Concat(chunks))
    ensures |AllReceived(CAPACITY, chunks).rest| < FRAME_LENGTH
    ensures forall f :: f in AllReceived(CAPACITY, chunks).frames ==> WellFormed(f)
  {
    DecideIsSound();
    FramesAndResidue(Concat(chunks));
    if chunks != [] {
      var last := |chunks| - 1;
      DeframingRefinesParse(chunks[..last]);
      ChunkingDoesNotMatter(Decide, chunks);
      ChunkingDoesNotMatter(Decide, chunks[..last]);
    }
  }

  /** A stream of well-formed frames is delivered unchanged. */
  lemma FramesAreDelivered(frames: seq<Bytes>, chunks: seq<Bytes>)
    requires forall f :: f in frames ==> WellFormed(f)
    requires forall c :: c in chunks ==> |c| <= READ_SIZE
    requires Concat(chunks) == Concat(frames)
    ensures Sound(Decide) && AllReceived(CAPACITY, chunks) == Parsed(frames, [], 0)
  {
    DeframingRefinesParse(chunks);
    FramesAndResidue([]);
    FramesComeBack(Decide, frames);
  }

  class FrameBuffer {
    const capacity: nat
    var data: Bytes

    constructor (capacity: nat)
      ensures this.capacity == capacity && data == []
    {
      this.capacity := capacity;
      data := [];
    }

    method Append(bytes: Bytes)
      modifies this
      ensures data == if bytes == [] then old(data) else Trimmed(capacity, old(data) + bytes)
    {
      if bytes == [] {
        return;
      }
      data := data + bytes;
      Trim();
    }

    method Trim()
      modifies this
      ensures data == Trimmed(capacity, old(data))
    {
      hide Decide, Sound;
      if |data| <= capacity {
        return;
      }
      var startIndex := |data|;
      var index := |data|;
      while index > 0
        invariant 0 <= index <= |data| && data == old(data) && startIndex == |data|
        invariant LastStart(data, |data|) == LastStart(data, index)
      {
        if data[index - 1] == FRAME_START {
          startIndex := index - 1;
          break;
        }
        index := index - 1;
      }
      assert startIndex == LastStart(data, |data|);
      if startIndex < |data| && startIndex > 0 {
        data := data[startIndex..];
      }
      if |data| > capacity {
        data := data[|data| - capacity..];
      }
    }

    /** The next frame of the buffered bytes, if there is one; otherwise only the residue is kept. */
    method Pop() returns (frame: Option<Bytes>)
      modifies this
      ensures Sound(Decide)
      ensures Parse(Decide, old(data)) == Popped(Decide, frame, data)
      ensures frame.Some? ==> WellFormed(frame.value) && |data| < |old(data)|
    {
      DecideIsSound();
      while true
        invariant Parse(Decide, data) == Parse(Decide, old(data)) && |data| <= |old(data)|
        decreases |data|
      {
        var firstStart := 0;
        while firstStart < |data| && data[firstStart] != FRAME_START
          invariant firstStart <= |data| <= |old(data)|
          invariant Parse(Decide, data[firstStart..]) == Parse(Decide, data)
        {
          assert data[firstStart..][1..] == data[firstStart + 1..];
          firstStart := firstStart + 1;
        }
        data := data[firstStart..];
        if data == [] {
          return None;
        }
        if |data| < FRAME_LENGTH {
          return None;
        }
        if data[FRAME_LENGTH - 1] == FRAME_END {
          frame := Some(data[..FRAME_LENGTH]);
          data := data[FRAME_LENGTH..];
          return;
        }
        data := data[1..];
      }
    }

    /** Hand out every frame that the buffered bytes complete. */
    method Drain() returns (frames: seq<Bytes>)
      modifies this
      ensures Sound(Decide) && Parse(Decide, old(data)) == Parsed(frames, data, 0)
    {
      DecideIsSound();
      frames := [];
      var frame := Pop();
      while frame.Some?
        invariant Parse(Decide, old(data)) == Joined(Taken(frames), Popped(Decide, frame, data))
        decreases if frame.Some? then |data| + 1 else 0
      {
        ghost var before := data;
        frames := frames + [frame.value];
        JoiningIsAssociative(Taken(frames[..|frames| - 1]), Taken([frame.value]), Parse(Decide, before));
        frame := Pop();
      }
    }

    /** What a completed read does: append the bytes, hand out every frame. */
    method OnRead(bytes: Bytes) returns (frames: seq<Bytes>)
      modifies this
      ensures Sound(Decide)
      ensures bytes != [] ==> Parse(Decide, Trimmed(capacity, old(data) + bytes)) == Parsed(frames, data, 0)
      ensures bytes == [] ==> frames == [] && data == old(data)
    {
      DecideIsSound();
      frames := [];
      if bytes != [] {
        Append(bytes);
        frames := Drain();
      }
    }

    method Clear()
      modifies this
      ensures data == []
    {
      data := [];
    }
  }
}
