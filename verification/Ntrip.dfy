/** The NTRIP response parser: the header is judged once it is complete, everything after it is correction data. */
module Ntrip {
  import opened Wrappers
  import opened Deframing

  const CR: bv8 := 0x0d
  const LF: bv8 := 0x0a
  const DEFAULT_HEADER: nat := 8192

  /** "ICY 200", "HTTP/" and " 200" as bytes. */
  const ICY_200: Bytes := [0x49, 0x43, 0x59, 0x20, 0x32, 0x30, 0x30]
  const HTTP: Bytes := [0x48, 0x54, 0x54, 0x50, 0x2f]
  const CODE_200: Bytes := [0x20, 0x32, 0x30, 0x30]

  datatype Error = NoError | HeaderTooLarge | ResponseRejected

  datatype Result = Result(headerComplete: bool, accepted: bool, error: Error, rtcm: Bytes)

  datatype State = State(buffer: Bytes, headerComplete: bool, accepted: bool, error: Error)

  const INITIAL := State([], false, false, NoError)

  predicate EndsAt(s: Bytes, i: nat) {
    i + 4 <= |s| && s[i] == CR && s[i + 1] == LF && s[i + 2] == CR && s[i + 3] == LF
  }

  /** One past the first blank line, from `from` on. */
  function HeaderEnd(s: Bytes, from: nat): (r: Option<nat>)
    ensures r.Some? ==> from + 4 <= r.value <= |s| && EndsAt(s, r.value - 4)
    ensures forall i :: from <= i && (r.Some? ==> i < r.value - 4) ==> !EndsAt(s, i)
    decreases |s| - from
  {
    if from + 4 > |s| then None else if EndsAt(s, from) then Some(from + 4) else HeaderEnd(s, from + 1)
  }

  function LineEnd(s: Bytes, from: nat): (r: nat)
    requires from <= |s|
    ensures from <= r <= |s|
    decreases |s| - from
  {
    if from == |s| || s[from] == CR || s[from] == LF then from else LineEnd(s, from + 1)
  }

  predicate StartsWith(s: Bytes, prefix: Bytes) { prefix <= s }

  predicate OccursAt(s: Bytes, i: nat, target: Bytes) {
    i + |target| <= |s| && s[i..i + |target|] == target
  }

  predicate Contains(s: Bytes, target: Bytes) {
    exists i :: 0 <= i < |s| + 1 && OccursAt(s, i, target)
  }

  /** What a complete header says. */
  predicate ResponseAccepted(header: Bytes) {
    var line := header[..LineEnd(header, 0)];
    StartsWith(line, ICY_200) || (StartsWith(line, HTTP) && Contains(line, CODE_200))
  }

  function Appended(maximum: nat, st: State, bytes: Bytes): (State, Result) {
    if st.headerComplete then
      (st, Result(true, st.accepted, st.error, if st.accepted then bytes else []))
    else if st.error != NoError then (st, Result(false, false, st.error, []))
    else
      var buffer := st.buffer + bytes;
      var end := HeaderEnd(buffer, 0);
      if end.None? then
        var error := if |buffer| > maximum then HeaderTooLarge else NoError;
        (st.(buffer := buffer, error := error), Result(false, false, error, []))
      else if end.value > maximum then
        (st.(buffer := buffer, error := HeaderTooLarge), Result(false, false, HeaderTooLarge, []))
      else
        var accepted := ResponseAccepted(buffer[..end.value]);
        var error := if accepted then NoError else ResponseRejected;
        (State([], true, accepted, error),
         Result(true, accepted, error, if accepted then buffer[end.value..] else []))
  }

  // ---------------------------------------------------------------------------------------------
  // Whole streams
  // ---------------------------------------------------------------------------------------------

  /** The parser after a list of reads, and the correction data it has passed on. */
  function AllAppended(maximum: nat, chunks: seq<Bytes>): (State, Bytes) {
    if chunks == [] then (INITIAL, [])
    else
      var last := |chunks| - 1;
      var (st, rtcm) := AllAppended(maximum, chunks[..last]);
      var (st', result) := Appended(maximum, st, chunks[last]);
      (st', rtcm + result.rtcm)
  }

  datatype Verdict = Pending | TooLarge | Rejected | Accepted(end: nat)

  /** What the bytes received so far amount to, however they arrived. */
  function Judged(maximum: nat, s: Bytes): (v: Verdict)
    ensures v.Accepted? ==> v.end <= |s|
  {
    var end := HeaderEnd(s, 0);
    if end.Some? && end.value <= maximum then
      if ResponseAccepted(s[..end.value]) then Accepted(end.value) else Rejected
    else if |s| > maximum then TooLarge else Pending
  }

  function Payload(maximum: nat, s: Bytes): Bytes {
    var v := Judged(maximum, s); if v.Accepted? then s[v.end..] else []
  }

  lemma EndStays(s: Bytes, t: Bytes, i: nat)
    requires i + 4 <= |s|
    ensures EndsAt(s + t, i) == EndsAt(s, i)
  {
    assert forall k :: 0 <= k < |s| ==> (s + t)[k] == s[k];
  }

  /** More bytes never move the end of a header that is complete, nor complete one inside what was there before. */
  lemma {:induction false} HeaderEndStays(s: Bytes, t: Bytes, from: nat)
    ensures var r := HeaderEnd(s, from);
            if r.Some? then HeaderEnd(s + t, from) == r
            else HeaderEnd(s + t, from).Some? ==> HeaderEnd(s + t, from).value > |s|
    decreases |s| - from
  {
    if from + 4 <= |s| {
      EndStays(s, t, from);
      if !EndsAt(s, from) {
        HeaderEndStays(s, t, from + 1);
      }
    }
  }

  /** The verdict only ever changes from pending, and an accepted header stays where it is. */
  lemma VerdictStays(maximum: nat, s: Bytes, t: Bytes)
    ensures !Judged(maximum, s).Pending? ==> Judged(maximum, s + t) == Judged(maximum, s)
    ensures Judged(maximum, s).Accepted? ==> Payload(maximum, s + t) == Payload(maximum, s) + t
  {
    HeaderEndStays(s, t, 0);
    var end := HeaderEnd(s, 0);
    if end.Some? {
      assert (s + t)[..end.value] == s[..end.value];
      assert (s + t)[end.value..] == s[end.value..] + t;
    }
  }

  ghost predicate Reflects(st: State, v: Verdict, s: Bytes) {
    match v
    case Pending => st == State(s, false, false, NoError)
    case TooLarge => !st.headerComplete && st.error == HeaderTooLarge
    case Rejected => st == State([], true, false, ResponseRejected)
    case Accepted(_) => st == State([], true, true, NoError)
  }

  lemma AppendReflects(maximum: nat, st: State, s: Bytes, chunk: Bytes)
    requires Reflects(st, Judged(maximum, s), s)
    ensures var (st', result) := Appended(maximum, st, chunk);
            && Reflects(st', Judged(maximum, s + chunk), s + chunk)
            && Payload(maximum, s) + result.rtcm == Payload(maximum, s + chunk)
            && |result.rtcm| <= |chunk|
            && result.accepted == Judged(maximum, s + chunk).Accepted?
  {
    VerdictStays(maximum, s, chunk);
    if Judged(maximum, s).Pending? {
      HeaderEndStays(s, chunk, 0);
    }
  }

  /**
   However the response is cut into reads, the verdict and the correction data passed on are those of the whole
   stream received so far.
   */
  lemma {:induction false} ResponseIsJudgedAsAWhole(maximum: nat, chunks: seq<Bytes>)
    ensures var (st, rtcm) := AllAppended(maximum, chunks);
            var s := Concat(chunks);
            Reflects(st, Judged(maximum, s), s) && rtcm == Payload(maximum, s)
  {
    if chunks != [] {
      var last := |chunks| - 1;
      ResponseIsJudgedAsAWhole(maximum, chunks[..last]);
      var st := AllAppended(maximum, chunks[..last]).0;
      AppendReflects(maximum, st, Concat(chunks[..last]), chunks[last]);
      assert chunks == chunks[..last] + [chunks[last]];
      ConcatAppends(chunks[..last], [chunks[last]]);
      assert Concat([chunks[last]]) == chunks[last] + [] == chunks[last];
    }
  }

  /** An accepted header within the limit, followed by anything: what follows is passed on. */
  lemma AcceptedHeaderPassesTheRest(maximum: nat, header: Bytes, body: Bytes)
    requires HeaderEnd(header, 0) == Some(|header|) && |header| <= maximum && ResponseAccepted(header)
    ensures Judged(maximum, header + body) == Accepted(|header|) && Payload(maximum, header + body) == body
  {
    HeaderEndStays(header, body, 0);
    assert (header + body)[..|header|] == header && (header + body)[|header|..] == body;
  }

  // ---------------------------------------------------------------------------------------------
  // The object
  // ---------------------------------------------------------------------------------------------

  class NtripResponseParser {
    const maxHeaderSize: nat
    var buffer: Bytes
    var headerComplete: bool
    var accepted: bool
    var error: Error

    constructor (maximum: nat)
      ensures maxHeaderSize == Max(1, maximum) && View() == INITIAL
    {
      maxHeaderSize := Max(1, maximum);
      buffer, headerComplete, accepted, error := [], false, false, NoError;
    }

    ghost function View(): State
      reads this
    {
      State(buffer, headerComplete, accepted, error)
    }

    method FindHeaderEnd() returns (end: Option<nat>)
      ensures end == HeaderEnd(buffer, 0)
    {
      var index := 0;
      while index + 3 < |buffer|
        invariant HeaderEnd(buffer, 0) == HeaderEnd(buffer, index)
        decreases |buffer| - index
      {
        if buffer[index] == CR && buffer[index + 1] == LF && buffer[index + 2] == CR && buffer[index + 3] == LF {
          return Some(index + 4);
        }
        index := index + 1;
      }
      return None;
    }

    method IsAccepted(headerEnd: nat) returns (r: bool)
      requires headerEnd <= |buffer|
      ensures r == ResponseAccepted(buffer[..headerEnd])
    {
      var header := buffer[..headerEnd];
      var firstLineEnd := 0;
      while firstLineEnd < |header| && header[firstLineEnd] != CR && header[firstLineEnd] != LF
        invariant firstLineEnd <= |header| && LineEnd(header, 0) == LineEnd(header, firstLineEnd)
      {
        firstLineEnd := firstLineEnd + 1;
      }
      var line := header[..firstLineEnd];
      if StartsWith(line, ICY_200) {
        return true;
      }
      if !StartsWith(line, HTTP) {
        return false;
      }
      r := ContainsText(line, CODE_200);
    }

    static method ContainsText(value: Bytes, target: Bytes) returns (found: bool)
      ensures found == (target != [] && Contains(value, target))
    {
      if target == [] || |value| < |target| {
        return false;
      }
      found := false;
      var start := 0;
      while start + |target| <= |value|
        invariant forall i :: 0 <= i < start ==> !OccursAt(value, i, target)
        decreases |value| - start
      {
        found := MatchesAt(value, start, target);
        if found {
          return;
        }
        start := start + 1;
      }
    }

    static method MatchesAt(value: Bytes, start: nat, target: Bytes) returns (matches: bool)
      requires start + |target| <= |value|
      ensures matches == OccursAt(value, start, target)
    {
      matches := true;
      var index := 0;
      while index < |target|
        invariant index <= |target|
        invariant forall k :: 0 <= k < index ==> value[start + k] == target[k]
      {
        if value[start + index] != target[index] {
          assert value[start..start + |target|][index] != target[index];
          return false;
        }
        index := index + 1;
      }
    }

    method Append(bytes: Bytes) returns (result: Result)
      modifies this
      ensures (View(), result) == Appended(maxHeaderSize, old(View()), bytes)
    {
      if headerComplete {
        return Result(true, accepted, error, if accepted then bytes else []);
      }
      if error != NoError {
        return Result(false, false, error, []);
      }
      buffer := buffer + bytes;
      var headerEnd := FindHeaderEnd();
      if headerEnd.None? {
        if |buffer| > maxHeaderSize {
          error := HeaderTooLarge;
        }
        return Result(false, false, error, []);
      }
      if headerEnd.value > maxHeaderSize {
        error := HeaderTooLarge;
        return Result(false, false, error, []);
      }
      accepted := IsAccepted(headerEnd.value);
      headerComplete := true;
      if !accepted {
        error := ResponseRejected;
      }
      result := Result(true, accepted, error, if accepted then buffer[headerEnd.value..] else []);
      buffer := [];
    }

    method Reset()
      modifies this
      ensures View() == INITIAL
    {
      buffer, headerComplete, accepted, error := [], false, false, NoError;
    }
  }
}
