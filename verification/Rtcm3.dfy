/** The RTCM3 frame buffer: variable-length frames of the RTCM 10403.x transport layer (section 4), checked by CRC-24Q. */
module Rtcm3 {
  import opened Wrappers
  import opened Deframing
  import C = Crc24q

  const PREAMBLE: bv8 := 0xd3
  const HEADER_LENGTH: nat := 3
  const CRC_LENGTH: nat := 3
  const MAXIMUM_FRAME: nat := 1029
  const DEFAULT_BUFFER: nat := 8192

  /** The ten length bits: the low two of the second byte and all of the third. */
  function PayloadLength(high: bv8, low: bv8): (n: nat)
    ensures n <= 1023
  {
    (if high & 2 != 0 then 512 else 0) + (if high & 1 != 0 then 256 else 0) + low as nat
  }

  function FrameLength(data: Bytes): (n: nat)
    requires |data| >= HEADER_LENGTH
    ensures HEADER_LENGTH + CRC_LENGTH <= n <= MAXIMUM_FRAME
  {
    HEADER_LENGTH + PayloadLength(data[1], data[2]) + CRC_LENGTH
  }

  function ExpectedCrc(data: Bytes, end: nat): bv32
    requires 3 <= end <= |data|
  {
    (((data[end - 3] as bv32) << 16) | ((data[end - 2] as bv32) << 8)) | (data[end - 1] as bv32)
  }

  /** The last three of the `n` bytes are the CRC of those before them. */
  predicate CrcMatches(data: Bytes, n: nat)
    requires 3 <= n <= |data|
  {
    C.Crc(data[..n - CRC_LENGTH]) == ExpectedCrc(data, n)
  }

  /** What the header alone says: wait, drop the first byte, or a frame of this length if its CRC matches. */
  function Candidate(data: Bytes): (d: Decision)
    ensures d.Take? ==> |data| >= HEADER_LENGTH && d.length == FrameLength(data) <= |data|
  {
    if data == [] then NeedMore
    else if data[0] != PREAMBLE then Skip(false)
    else if |data| < HEADER_LENGTH then NeedMore
    else if data[1] & 0xfc != 0 then Skip(false)
    else if |data| < FrameLength(data) then NeedMore
    else Take(FrameLength(data))
  }

  function Decide(data: Bytes): Decision {
    var d := Candidate(data);
    if d.Take? && !CrcMatches(data, d.length) then Skip(true) else d
  }

  lemma CrcOfPrefix(b: Bytes, c: Bytes, n: nat)
    requires 3 <= n <= |b|
    ensures CrcMatches(b + c, n) == CrcMatches(b, n)
  {
    assert (b + c)[..n - CRC_LENGTH] == b[..n - CRC_LENGTH];
    assert (b + c)[n - 3] == b[n - 3] && (b + c)[n - 2] == b[n - 2] && (b + c)[n - 1] == b[n - 1];
  }

  lemma CandidateStands(b: Bytes, c: Bytes)
    requires !Candidate(b).NeedMore?
    ensures Candidate(b + c) == Candidate(b)
  {
    assert (b + c)[0] == b[0];
    if b[0] == PREAMBLE {
      assert (b + c)[1] == b[1] && (b + c)[2] == b[2];
    }
  }

  lemma DecideStands(b: Bytes, c: Bytes)
    requires !Decide(b).NeedMore?
    ensures Decide(b + c) == Decide(b)
  {
    CandidateStands(b, c);
    if Candidate(b).Take? {
      CrcOfPrefix(b, c, Candidate(b).length);
    }
  }

  lemma CandidateIsLocal(b: Bytes, n: nat)
    requires Candidate(b) == Take(n)
    ensures n <= |b| && Candidate(b[..n]) == Take(n)
  {
    assert b[..n][0] == b[0] && b[..n][1] == b[1] && b[..n][2] == b[2];
  }

  lemma DecideIsLocal(b: Bytes, n: nat)
    requires Decide(b) == Take(n)
    ensures n <= |b| && IsFrame(Decide, b[..n])
  {
    CandidateIsLocal(b, n);
    assert b == b[..n] + b[n..];
    CrcOfPrefix(b[..n], b[n..], n);
  }

  lemma DecideIsSound()
    ensures Sound(Decide) && Local(Decide)
  {
    forall b: Bytes, c: Bytes | !Decide(b).NeedMore? ensures Decide(b + c) == Decide(b) {
      DecideStands(b, c);
    }
    forall b: Bytes | Decide(b).Take? && Decide(b).length <= |b| ensures IsFrame(Decide, b[..Decide(b).length]) {
      DecideIsLocal(b, Decide(b).length);
    }
  }

  /** Preamble, six zero bits, a ten-bit length that fits, and a remainder of zero. */
  predicate WellFormed(f: Bytes) {
    && |f| >= HEADER_LENGTH + CRC_LENGTH && f[0] == PREAMBLE && f[1] & 0xfc == 0
    && |f| == FrameLength(f) && C.Crc(f) == 0
  }

  lemma ExpectedIsWord(f: Bytes)
    requires |f| >= 3
    ensures ExpectedCrc(f, |f|) == C.WordOf(f[|f| - 3..])
  {
    OrIsXor(f[|f| - 3], f[|f| - 2], f[|f| - 1]);
    var tail := f[|f| - 3..];
    assert tail[0] == f[|f| - 3] && tail[1] == f[|f| - 2] && tail[2] == f[|f| - 1];
  }

  lemma OrIsXor(a: bv8, b: bv8, c: bv8)
    ensures (((a as bv32) << 16) | ((b as bv32) << 8)) | (c as bv32)
            == C.Add(C.Add(C.High(a), C.Middle(b)), C.Low(c))
  {
  }

  /** A frame is taken exactly when it is well formed: its last bytes match exactly when its remainder is zero. */
  lemma FrameExactlyWhenWellFormed(f: Bytes)
    ensures IsFrame(Decide, f) <==> WellFormed(f)
  {
    if |f| >= HEADER_LENGTH + CRC_LENGTH {
      var message, tail := f[..|f| - 3], f[|f| - 3..];
      assert f == message + tail;
      C.RemainderIsZeroExactlyWhen(message, tail);
      ExpectedIsWord(f);
      assert CrcMatches(f, |f|) <==> C.Crc(f) == 0;
    }
  }

  lemma TakenIsWellFormed(data: Bytes, n: nat)
    requires Decide(data) == Take(n)
    ensures n <= |data| && WellFormed(data[..n])
  {
    DecideIsLocal(data, n);
    FrameExactlyWhenWellFormed(data[..n]);
  }

  /** For arbitrary input every frame that comes out is well formed, and less than one frame stays buffered. */
  lemma FramesAndResidue(data: Bytes)
    ensures Sound(Decide)
    ensures |Parse(Decide, data).rest| < MAXIMUM_FRAME
    ensures forall f :: f in Parse(Decide, data).frames ==> WellFormed(f)
  {
    DecideIsSound();
    OnlyFramesComeOut(Decide, data);
    forall f | f in Parse(Decide, data).frames ensures WellFormed(f) {
      FrameExactlyWhenWellFormed(f);
    }
    assert Decide(Parse(Decide, data).rest).NeedMore?;
  }

  // ---------------------------------------------------------------------------------------------
  // The bounded buffer
  // ---------------------------------------------------------------------------------------------

  function Capped(maximum: nat, data: Bytes): Bytes {
    if |data| > maximum then data[|data| - maximum..] else data
  }

  function Received(maximum: nat, before: Parsed, chunk: Bytes): Parsed
    requires Sound(Decide)
  {
    Joined(before, Parse(Decide, Capped(maximum, before.rest + chunk)))
  }

  function AllReceived(maximum: nat, chunks: seq<Bytes>): Parsed
    requires Sound(Decide)
  {
    if chunks == [] then Parsed([], [], 0)
    else var last := |chunks| - 1; Received(maximum, AllReceived(maximum, chunks[..last]), chunks[last])
  }

  /** With room for an unfinished frame and a chunk, nothing is dropped and the chunking does not matter. */
  lemma {:induction false} DeframingRefinesParse(maximum: nat, chunks: seq<Bytes>, chunkSize: nat)
    requires forall c :: c in chunks ==> |c| <= chunkSize
    requires MAXIMUM_FRAME - 1 + chunkSize <= maximum
    ensures Sound(Decide) && AllReceived(maximum, chunks) == Parse(Decide, Concat(chunks))
  {
    DecideIsSound();
    if chunks != [] {
      var last := |chunks| - 1;
      DeframingRefinesParse(maximum, chunks[..last], chunkSize);
      FramesAndResidue(Concat(chunks[..last]));
      ChunkingDoesNotMatter(Decide, chunks);
      ChunkingDoesNotMatter(Decide, chunks[..last]);
    }
  }

  // ---------------------------------------------------------------------------------------------
  // Making frames
  // ---------------------------------------------------------------------------------------------

  function HighLength(n: nat): bv8
    requires n <= 1023
  {
    if n < 256 then 0 else if n < 512 then 1 else if n < 768 then 2 else 3
  }

  function ByteOf(n: nat): (b: bv8)
    requires n < 256
    ensures b as nat == n
  {
    if n == 0 then 0 else ByteOf(n - 1) + 1
  }

  function CrcBytes(word: bv32): Bytes {
    [((word >> 16) & 0xff) as bv8, ((word >> 8) & 0xff) as bv8, (word & 0xff) as bv8]
  }

  function Covered(payload: Bytes): Bytes
    requires |payload| <= 1023
  {
    [PREAMBLE, HighLength(|payload|), ByteOf(|payload| % 256)] + payload
  }

  /** The frame that carries a payload. */
  function Encoded(payload: Bytes): Bytes
    requires |payload| <= 1023
  {
    Covered(payload) + CrcBytes(C.Crc(Covered(payload)))
  }

  lemma WordOfCrcBytes(word: bv32)
    requires C.In24(word)
    ensures C.WordOf(CrcBytes(word)) == word
  {
    CrcBytesJoin(word, ((word >> 16) & 0xff) as bv8, ((word >> 8) & 0xff) as bv8, (word & 0xff) as bv8);
  }

  lemma CrcBytesJoin(word: bv32, a: bv8, b: bv8, c: bv8)
    requires C.In24(word)
    requires a == ((word >> 16) & 0xff) as bv8 && b == ((word >> 8) & 0xff) as bv8 && c == (word & 0xff) as bv8
    ensures C.Add(C.Add(C.High(a), C.Middle(b)), C.Low(c)) == word
  {
  }

  /** The quarter of the length range that the two high bits name. */
  lemma HighLengthBits(n: nat)
    requires n <= 1023
    ensures HighLength(n) & 0xfc == 0
    ensures PayloadLength(HighLength(n), ByteOf(n % 256)) == n
  {
    HighBits(HighLength(n));
  }

  lemma HighBits(high: bv8)
    requires high == 0 || high == 1 || high == 2 || high == 3
    ensures high & 0xfc == 0
    ensures (high & 2 != 0 <==> high == 2 || high == 3) && (high & 1 != 0 <==> high == 1 || high == 3)
  {
  }

  /** Encoding gives well-formed frames that still hold their payload. */
  lemma EncodedIsWellFormed(payload: Bytes)
    requires |payload| <= 1023
    ensures WellFormed(Encoded(payload))
    ensures Encoded(payload)[HEADER_LENGTH..|payload| + HEADER_LENGTH] == payload
  {
    var covered := Covered(payload);
    HighLengthBits(|payload|);
    C.CrcIsTheRegister(covered);
    WordOfCrcBytes(C.Crc(covered));
    C.RemainderIsZeroExactlyWhen(covered, CrcBytes(C.Crc(covered)));
  }

  // ---------------------------------------------------------------------------------------------
  // The object
  // ---------------------------------------------------------------------------------------------

  class Rtcm3FrameBuffer {
    const maxBufferSize: nat
    var invalidCrcCount: nat
    var data: Bytes

    constructor (maximum: nat)
      ensures maxBufferSize == Max(HEADER_LENGTH + CRC_LENGTH, maximum) && data == [] && invalidCrcCount == 0
    {
      maxBufferSize := Max(HEADER_LENGTH + CRC_LENGTH, maximum);
      invalidCrcCount, data := 0, [];
    }

    method Append(bytes: Bytes)
      modifies this`data
      ensures data == if bytes == [] then old(data) else Capped(maxBufferSize, old(data) + bytes)
    {
      if bytes == [] {
        return;
      }
      data := data + bytes;
      if |data| > maxBufferSize {
        data := data[|data| - maxBufferSize..];
      }
    }

    /** The next frame, if the buffered bytes hold one; every corrupt candidate on the way is counted. */
    method Pop() returns (frame: Option<Bytes>)
      modifies this
      ensures Sound(Decide) && invalidCrcCount >= old(invalidCrcCount)
      ensures Parse(Decide, old(data)) == WithRejected(Popped(Decide, frame, data), invalidCrcCount - old(invalidCrcCount))
      ensures frame.Some? ==> WellFormed(frame.value) && |data| < |old(data)|
    {
      DecideIsSound();
      while true
        invariant invalidCrcCount >= old(invalidCrcCount) && |data| <= |old(data)|
        invariant Parse(Decide, old(data))
                  == WithRejected(Parse(Decide, data), invalidCrcCount - old(invalidCrcCount))
        decreases |data|
      {
        SkipNoise();
        var decision := Examine();
        match decision
        case NeedMore =>
          ParseWaits(Decide, data);
          return None;
        case Skip(corrupt) =>
          ParseSkips(Decide, data, corrupt);
          if corrupt {
            invalidCrcCount := invalidCrcCount + 1;
          }
          data := data[1..];
        case Take(frameLength) =>
          ParseTakes(Decide, data, frameLength);
          TakenIsWellFormed(data, frameLength);
          frame := Some(data[..frameLength]);
          data := data[frameLength..];
          return;
      }
    }

    /** Look at the candidate in front. */
    method Examine() returns (decision: Decision)
      requires data != [] ==> data[0] == PREAMBLE
      ensures decision == Decide(data)
    {
      decision := ExamineHeader();
      if decision.Take? {
        var matches := CheckCrc(decision.length);
        if !matches {
          decision := Skip(true);
        }
      }
    }

    method ExamineHeader() returns (decision: Decision)
      requires data != [] ==> data[0] == PREAMBLE
      ensures decision == Candidate(data)
    {
      if |data| < HEADER_LENGTH {
        return NeedMore;
      }
      if data[1] & 0xfc != 0 {
        return Skip(false);
      }
      var frameLength := HEADER_LENGTH + PayloadLength(data[1], data[2]) + CRC_LENGTH;
      if |data| < frameLength {
        return NeedMore;
      }
      return Take(frameLength);
    }

    method CheckCrc(frameLength: nat) returns (matches: bool)
      requires CRC_LENGTH <= frameLength <= |data|
      ensures matches == CrcMatches(data, frameLength)
    {
      var crc := C.Compute(data, frameLength - CRC_LENGTH);
      matches := crc == ExpectedCrc(data, frameLength);
    }

    /** Drop everything before the next preamble. */
    method SkipNoise()
      requires Sound(Decide)
      modifies this`data
      ensures Parse(Decide, data) == Parse(Decide, old(data)) && |data| <= |old(data)|
      ensures data != [] ==> data[0] == PREAMBLE
    {
      var startIndex := 0;
      while startIndex < |data| && data[startIndex] != PREAMBLE
        invariant startIndex <= |data| && data == old(data)
        invariant Parse(Decide, data[startIndex..]) == Parse(Decide, data)
      {
        assert data[startIndex..][1..] == data[startIndex + 1..];
        startIndex := startIndex + 1;
      }
      data := data[startIndex..];
    }

    /** After `frames` and `frame`, pop once more; `total` is the parse of what was buffered at first. */
    method PopAgain(frames: seq<Bytes>, frame: Bytes, ghost total: Parsed, ghost count: nat)
      returns (frames': seq<Bytes>, frame': Option<Bytes>)
      requires Sound(Decide) && count <= invalidCrcCount
      requires total == WithRejected(Joined(Taken(frames), Popped(Decide, Some(frame), data)), invalidCrcCount - count)
      modifies this
      ensures invalidCrcCount >= old(invalidCrcCount) && frames' == frames + [frame]
      ensures frame'.Some? ==> |data| < |old(data)|
      ensures total == WithRejected(Joined(Taken(frames'), Popped(Decide, frame', data)), invalidCrcCount - count)
    {
      ghost var pending, before := Parse(Decide, data), invalidCrcCount;
      frames' := frames + [frame];
      frame' := Pop();
      OneMoreFrame(total, frames, frame, pending, Popped(Decide, frame', data), before - count, invalidCrcCount - before);
    }

    /** Hand out every frame that the buffered bytes complete. */
    method Drain() returns (frames: seq<Bytes>)
      modifies this
      ensures Sound(Decide) && invalidCrcCount >= old(invalidCrcCount)
      ensures Parse(Decide, old(data)) == Parsed(frames, data, invalidCrcCount - old(invalidCrcCount))
    {
      DecideIsSound();
      ghost var total, count := Parse(Decide, data), invalidCrcCount;
      frames := [];
      var frame := Pop();
      while frame.Some?
        invariant invalidCrcCount >= count
        invariant total == WithRejected(Joined(Taken(frames), Popped(Decide, frame, data)), invalidCrcCount - count)
        decreases if frame.Some? then |data| + 1 else 0
      {
        frames, frame := PopAgain(frames, frame.value, total, count);
      }
    }
  }
}
