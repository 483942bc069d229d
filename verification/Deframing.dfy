/**
 Cutting a byte stream into frames: a decision looks at the front of the buffered bytes and either waits for more,
 drops the first byte, or takes a frame.  Decisions that never change their mind make the chunking irrelevant.
 */
module Deframing {
  import opened Wrappers

  type Bytes = seq<bv8>

  datatype Decision = NeedMore | Skip(corrupt: bool) | Take(length: nat)

  /** `rejected` counts the candidates dropped as corrupt. */
  datatype Parsed = Parsed(frames: seq<Bytes>, rest: Bytes, rejected: nat)

  /** A decision fits the bytes, and once made it stands whatever follows. */
  ghost predicate Sound(decide: Bytes -> Decision) {
    && decide([]).NeedMore?
    && (forall b :: decide(b).Take? ==> 0 < decide(b).length <= |b|)
    && (forall b, c {:trigger decide(b + c)} :: !decide(b).NeedMore? ==> decide(b + c) == decide(b))
  }

  function Parse(decide: Bytes -> Decision, data: Bytes): (p: Parsed)
    requires Sound(decide)
    ensures decide(p.rest).NeedMore? && |p.rest| <= |data|
    decreases |data|
  {
    match decide(data)
    case NeedMore => Parsed([], data, 0)
    case Skip(corrupt) =>
      var p := Parse(decide, data[1..]);
      Parsed(p.frames, p.rest, if corrupt then p.rejected + 1 else p.rejected)
    case Take(n) =>
      var p := Parse(decide, data[n..]);
      Parsed([data[..n]] + p.frames, p.rest, p.rejected)
  }

  /** One parse followed by another. */
  function Joined(p: Parsed, q: Parsed): Parsed {
    Parsed(p.frames + q.frames, q.rest, p.rejected + q.rejected)
  }

  function Length(d: Decision): nat
    requires !d.NeedMore?
  {
    if d.Take? then d.length else 1
  }

  /** What the first decision contributes. */
  function First(d: Decision, data: Bytes): Parsed
    requires !d.NeedMore? && Length(d) <= |data|
  {
    Parsed(if d.Take? then [data[..d.length]] else [], [], if d == Skip(true) then 1 else 0)
  }

  lemma ParseUnfolds(decide: Bytes -> Decision, data: Bytes)
    requires Sound(decide) && !decide(data).NeedMore?
    ensures 0 < Length(decide(data)) <= |data|
    ensures Parse(decide, data) == Joined(First(decide(data), data), Parse(decide, data[Length(decide(data))..]))
  {
  }

  lemma JoiningIsAssociative(p: Parsed, q: Parsed, r: Parsed)
    ensures Joined(Joined(p, q), r) == Joined(p, Joined(q, r))
  {
    assert (p.frames + q.frames) + r.frames == p.frames + (q.frames + r.frames);
  }

  /** The same parse with more candidates rejected before it. */
  function WithRejected(p: Parsed, rejected: nat): Parsed { Parsed(p.frames, p.rest, p.rejected + rejected) }

  lemma ParseWaits(decide: Bytes -> Decision, data: Bytes)
    requires Sound(decide) && decide(data).NeedMore?
    ensures Parse(decide, data) == Parsed([], data, 0)
  {
  }

  lemma ParseSkips(decide: Bytes -> Decision, data: Bytes, corrupt: bool)
    requires Sound(decide) && decide(data) == Skip(corrupt)
    ensures data != []
    ensures Parse(decide, data) == WithRejected(Parse(decide, data[1..]), if corrupt then 1 else 0)
  {
  }

  lemma ParseTakes(decide: Bytes -> Decision, data: Bytes, n: nat)
    requires Sound(decide) && decide(data) == Take(n)
    ensures 0 < n <= |data|
    ensures Parse(decide, data) == Joined(Taken([data[..n]]), Parse(decide, data[n..]))
  {
  }

  function Taken(frames: seq<Bytes>): Parsed { Parsed(frames, [], 0) }

  /** What a pop that handed out `frame` and left `data` has parsed and still has to parse. */
  function Popped(decide: Bytes -> Decision, frame: Option<Bytes>, data: Bytes): Parsed
    requires Sound(decide)
  {
    if frame.None? then Parsed([], data, 0) else Joined(Taken([frame.value]), Parse(decide, data))
  }

  /** One more frame handed out, and what the next pop made of the rest. */
  lemma OneMoreFrame(total: Parsed, frames: seq<Bytes>, f: Bytes, p: Parsed, q: Parsed, r: nat, e: nat)
    requires total == WithRejected(Joined(Taken(frames), Joined(Taken([f]), p)), r) && p == WithRejected(q, e)
    ensures total == WithRejected(Joined(Taken(frames + [f]), q), r + e)
  {
    JoiningIsAssociative(Taken(frames), Taken([f]), q);
  }

  /** Parsing can stop anywhere and go on with what was left over. */
  lemma {:induction false} ParseInParts(decide: Bytes -> Decision, a: Bytes, b: Bytes)
    requires Sound(decide)
    ensures var p := Parse(decide, a); Parse(decide, a + b) == Joined(p, Parse(decide, p.rest + b))
    decreases |a|
  {
    if decide(a).NeedMore? {
      assert Parse(decide, a) == Parsed([], a, 0);
      assert [] + Parse(decide, a + b).frames == Parse(decide, a + b).frames;
    } else {
      var n := FirstOfBoth(decide, a, b);
      ParseInParts(decide, a[n..], b);
      JoiningIsAssociative(First(decide(a), a), Parse(decide, a[n..]), Parse(decide, Parse(decide, a).rest + b));
    }
  }

  lemma FirstOfBoth(decide: Bytes -> Decision, a: Bytes, b: Bytes) returns (n: nat)
    requires Sound(decide) && !decide(a).NeedMore?
    ensures n == Length(decide(a)) && 0 < n <= |a|
    ensures Parse(decide, a) == Joined(First(decide(a), a), Parse(decide, a[n..]))
    ensures Parse(decide, a + b) == Joined(First(decide(a), a), Parse(decide, a[n..] + b))
  {
    n := Length(decide(a));
    assert decide(a + b) == decide(a);
    ParseUnfolds(decide, a);
    ParseUnfolds(decide, a + b);
    assert (a + b)[n..] == a[n..] + b && (a + b)[..n] == a[..n];
  }

  function Concat(chunks: seq<Bytes>): Bytes {
    if chunks == [] then [] else chunks[0] + Concat(chunks[1..])
  }

  lemma {:induction false} ConcatAppends(a: seq<Bytes>, b: seq<Bytes>)
    ensures Concat(a + b) == Concat(a) + Concat(b)
  {
    if a == [] {
      assert a + b == b;
    } else {
      assert (a + b)[1..] == a[1..] + b;
      ConcatAppends(a[1..], b);
    }
  }

  /** What comes out of a buffer that is drained after every chunk. */
  function Drained(decide: Bytes -> Decision, chunks: seq<Bytes>): Parsed
    requires Sound(decide)
  {
    if chunks == [] then Parsed([], [], 0)
    else
      var last := |chunks| - 1;
      var before := Drained(decide, chunks[..last]);
      Joined(before, Parse(decide, before.rest + chunks[last]))
  }

  /** Whatever the chunks, draining after each of them gives one parse of the whole stream. */
  lemma {:induction false} ChunkingDoesNotMatter(decide: Bytes -> Decision, chunks: seq<Bytes>)
    requires Sound(decide)
    ensures Drained(decide, chunks) == Parse(decide, Concat(chunks))
  {
    if chunks != [] {
      var last := |chunks| - 1;
      ChunkingDoesNotMatter(decide, chunks[..last]);
      ParseInParts(decide, Concat(chunks[..last]), chunks[last]);
      ConcatAppends(chunks[..last], [chunks[last]]);
      assert chunks == chunks[..last] + [chunks[last]];
      assert Concat([chunks[last]]) == chunks[last] + Concat([chunks[last]][1..]);
      assert chunks[last] + [] == chunks[last];
    }
  }

  /** A frame is what the decision takes whole. */
  predicate IsFrame(decide: Bytes -> Decision, f: Bytes) { decide(f) == Take(|f|) }

  /** Taking a frame looks at nothing beyond it. */
  ghost predicate Local(decide: Bytes -> Decision) {
    forall b :: decide(b).Take? && decide(b).length <= |b| ==> IsFrame(decide, b[..decide(b).length])
  }

  /** Round trip: a stream of frames parses into exactly those frames. */
  lemma {:induction false} FramesComeBack(decide: Bytes -> Decision, frames: seq<Bytes>)
    requires Sound(decide) && forall f :: f in frames ==> IsFrame(decide, f)
    ensures Parse(decide, Concat(frames)) == Parsed(frames, [], 0)
  {
    if frames != [] {
      var f, tail := frames[0], Concat(frames[1..]);
      assert IsFrame(decide, f) && decide(f + tail) == Take(|f|);
      assert (f + tail)[|f|..] == tail && (f + tail)[..|f|] == f;
      FramesComeBack(decide, frames[1..]);
    }
  }

  /** Whatever the input, everything that is taken is a frame. */
  lemma {:induction false} OnlyFramesComeOut(decide: Bytes -> Decision, data: Bytes)
    requires Sound(decide) && Local(decide)
    ensures forall f :: f in Parse(decide, data).frames ==> IsFrame(decide, f)
    decreases |data|
  {
    var d := decide(data);
    if !d.NeedMore? {
      OnlyFramesComeOut(decide, data[if d.Take? then d.length else 1..]);
    }
  }
}
