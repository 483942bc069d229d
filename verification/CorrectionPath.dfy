/** From the caster to the receiver: the NTRIP response parser feeds the RTCM3 frame buffer. */
module CorrectionPath {
  import opened Wrappers
  import opened Deframing
  import N = Ntrip
  import R = Rtcm3

  /** The correction frames passed on after a list of reads, each read going through both stages at once. */
  function Delivered(maxHeader: nat, maxBuffer: nat, chunks: seq<Bytes>): Parsed
    requires Sound(R.Decide)
  {
    if chunks == [] then Parsed([], [], 0)
    else
      var last := |chunks| - 1;
      var (st, _) := N.AllAppended(maxHeader, chunks[..last]);
      var (_, result) := N.Appended(maxHeader, st, chunks[last]);
      R.Received(maxBuffer, Delivered(maxHeader, maxBuffer, chunks[..last]), result.rtcm)
  }

  /**
   With room in the buffer for an unfinished frame and a read: whatever arrives and however it is cut, the frames
   passed on are those of one parse of the correction data in everything received so far.
   */
  lemma {:induction false} PathRefinesParse(maxHeader: nat, maxBuffer: nat, chunks: seq<Bytes>, readSize: nat)
    requires forall c :: c in chunks ==> |c| <= readSize
    requires R.MAXIMUM_FRAME - 1 + readSize <= maxBuffer
    ensures Sound(R.Decide)
    ensures Delivered(maxHeader, maxBuffer, chunks) == Parse(R.Decide, N.Payload(maxHeader, Concat(chunks)))
  {
    R.DecideIsSound();
    if chunks != [] {
      var last := |chunks| - 1;
      var before, s := chunks[..last], Concat(chunks[..last]);
      PathRefinesParse(maxHeader, maxBuffer, before, readSize);
      N.ResponseIsJudgedAsAWhole(maxHeader, before);
      var st := N.AllAppended(maxHeader, before).0;
      N.AppendReflects(maxHeader, st, s, chunks[last]);
      ConcatLast(chunks);
      OneMoreRead(maxBuffer, Delivered(maxHeader, maxBuffer, before), N.Payload(maxHeader, s),
                  N.Appended(maxHeader, st, chunks[last]).1.rtcm);
    }
  }

  lemma OneMoreRead(maxBuffer: nat, before: Parsed, payload: Bytes, rtcm: Bytes)
    requires Sound(R.Decide) && before == Parse(R.Decide, payload)
    requires R.MAXIMUM_FRAME - 1 + |rtcm| <= maxBuffer
    ensures R.Received(maxBuffer, before, rtcm) == Parse(R.Decide, payload + rtcm)
  {
    R.FramesAndResidue(payload);
    ParseInParts(R.Decide, payload, rtcm);
  }

  lemma ConcatLast(chunks: seq<Bytes>)
    requires chunks != []
    ensures Concat(chunks) == Concat(chunks[..|chunks| - 1]) + chunks[|chunks| - 1]
  {
    var last := |chunks| - 1;
    assert chunks == chunks[..last] + [chunks[last]];
    ConcatAppends(chunks[..last], [chunks[last]]);
    assert Concat([chunks[last]]) == chunks[last] + [] == chunks[last];
  }

  /**
   Round trip: an accepted header followed by well-formed frames, delivered in any reads, passes on exactly those
   frames, in order and complete, and counts no CRC error.
   */
  lemma FramesArriveUnchanged(maxHeader: nat, maxBuffer: nat, header: Bytes, frames: seq<Bytes>, chunks: seq<Bytes>,
                              readSize: nat)
    requires N.HeaderEnd(header, 0) == Some(|header|) && |header| <= maxHeader && N.ResponseAccepted(header)
    requires forall f :: f in frames ==> R.WellFormed(f)
    requires forall c :: c in chunks ==> |c| <= readSize
    requires R.MAXIMUM_FRAME - 1 + readSize <= maxBuffer
    requires Concat(chunks) == header + Concat(frames)
    ensures Sound(R.Decide) && Delivered(maxHeader, maxBuffer, chunks) == Parsed(frames, [], 0)
  {
    PathRefinesParse(maxHeader, maxBuffer, chunks, readSize);
    N.AcceptedHeaderPassesTheRest(maxHeader, header, Concat(frames));
    forall f | f in frames ensures IsFrame(R.Decide, f) {
      R.FrameExactlyWhenWellFormed(f);
    }
    FramesComeBack(R.Decide, frames);
  }

  /** Nothing is ever passed on that is not a well-formed frame, and nothing at all before the header is accepted. */
  lemma OnlyCheckedFrames(maxHeader: nat, maxBuffer: nat, chunks: seq<Bytes>, readSize: nat)
    requires forall c :: c in chunks ==> |c| <= readSize
    requires R.MAXIMUM_FRAME - 1 + readSize <= maxBuffer
    ensures Sound(R.Decide)
    ensures forall f :: f in Delivered(maxHeader, maxBuffer, chunks).frames ==> R.WellFormed(f)
    ensures !N.Judged(maxHeader, Concat(chunks)).Accepted? ==> Delivered(maxHeader, maxBuffer, chunks).frames == []
  {
    PathRefinesParse(maxHeader, maxBuffer, chunks, readSize);
    R.FramesAndResidue(N.Payload(maxHeader, Concat(chunks)));
  }

  /** A client and its node: what happens to one read. */
  class CorrectionReceiver {
    const parser: N.NtripResponseParser
    const frameBuffer: R.Rtcm3FrameBuffer

    constructor (maxHeader: nat, maxBuffer: nat)
      ensures fresh(parser) && fresh(frameBuffer)
      ensures parser.maxHeaderSize == Max(1, maxHeader) && parser.View() == N.INITIAL
      ensures frameBuffer.maxBufferSize == Max(R.HEADER_LENGTH + R.CRC_LENGTH, maxBuffer) && frameBuffer.data == []
    {
      parser := new N.NtripResponseParser(maxHeader);
      frameBuffer := new R.Rtcm3FrameBuffer(maxBuffer);
    }

    method OnBytes(bytes: Bytes) returns (frames: seq<Bytes>)
      modifies parser, frameBuffer
      ensures Sound(R.Decide)
      ensures var (st, result) := N.Appended(parser.maxHeaderSize, old(parser.View()), bytes);
              && parser.View() == st
              && (if result.error == N.NoError && result.rtcm != []
                  then && frameBuffer.invalidCrcCount >= old(frameBuffer.invalidCrcCount)
                       && Parse(R.Decide, R.Capped(frameBuffer.maxBufferSize, old(frameBuffer.data) + result.rtcm))
                          == Parsed(frames, frameBuffer.data,
                                    frameBuffer.invalidCrcCount - old(frameBuffer.invalidCrcCount))
                  else frames == [] && frameBuffer.data == old(frameBuffer.data))
    {
      R.DecideIsSound();
      frames := [];
      var result := parser.Append(bytes);
      if result.error != N.NoError {
        return;
      }
      if result.rtcm != [] {
        frameBuffer.Append(result.rtcm);
        frames := frameBuffer.Drain();
      }
    }
  }
}
