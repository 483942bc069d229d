/**
 Mission checkpoints: the record of how far a mission got, the checks a record must pass to be stored or loaded,
 and what the segments a vehicle really completed have to do with the record on disk.
 Serialization is not part of this model: a stored record is loaded as it was saved.
 */
module MissionCheckpoints {
  import opened Wrappers

  /** `geometryValid`: finite numbers, coordinates on the globe. `turns`: the turn angle is above the tolerance. */
  datatype Segment = Segment(geometryValid: bool, turns: bool)

  datatype Kind = Cleaning | ReturnHome | OtherKind

  /** `target` is the return target, with whether its coordinate is valid. */
  datatype Checkpoint = Checkpoint(
    runId: string, kind: Kind, loop: bool, loopCount: nat, currentLoop: nat, totalLoops: nat,
    next: nat, total: nat, completed: nat, segments: seq<Segment>, target: Option<bool>)

  predicate Valid(c: Checkpoint) {
    && c.runId != "" && !c.kind.OtherKind?
    && c.total != 0 && |c.segments| == c.total
    && c.next <= c.total && c.completed <= c.total
    && (!c.loop ==> c.totalLoops == 1)
    && (c.totalLoops != 0 ==> c.currentLoop < c.totalLoops)
    && (c.target.Some? ==> c.target.value)
    && (c.kind.ReturnHome? ==> c.target.Some?)
    && forall s :: s in c.segments ==> s.geometryValid
  }

  class MissionCheckpointStore {
    var file: Option<Checkpoint>

    constructor ()
      ensures file == None
    {
      file := None;
    }

    /** The record replaces the file in one step, or the file stays as it was. */
    method Save(record: Checkpoint, writes: bool) returns (ok: bool)
      modifies this
      ensures ok == (Valid(record) && writes)
      ensures file == if ok then Some(record) else old(file)
    {
      if !Valid(record) || !writes { return false; }
      file := Some(record);
      ok := true;
    }

    method LoadLatest() returns (r: Option<Checkpoint>)
      ensures r == if file.Some? && Valid(file.value) then file else None
    {
      if file.None? || !Valid(file.value) { return None; }
      r := file;
    }

    method Clear(removes: bool) returns (ok: bool)
      modifies this
      ensures ok == (old(file).None? || removes)
      ensures file == if removes then None else old(file)
    {
      if file.None? { return true; }
      if !removes { return false; }
      file := None;
      ok := true;
    }
  }

  // ---------------------------------------------------------------------------------------------
  // Places in a mission
  // ---------------------------------------------------------------------------------------------

  /** Segment `segment` in pass `loop`. */
  datatype Place = Place(loop: nat, segment: nat)

  function NextPlace(p: Place, n: nat): Place {
    if p.segment + 1 < n then Place(p.loop, p.segment + 1) else Place(p.loop + 1, 0)
  }

  /** The place a checkpoint says comes next. */
  function Mark(c: Checkpoint): Place {
    if c.next < c.total then Place(c.currentLoop, c.next) else Place(c.currentLoop + 1, 0)
  }

  function Number(p: Place, n: nat): nat { p.loop * n + p.segment }

  /** The completed count is the number of the marked place. */
  predicate Counted(c: Checkpoint) { c.completed == c.currentLoop * c.total + c.next }

  lemma NextNumber(p: Place, n: nat)
    requires p.segment < n
    ensures NextPlace(p, n).segment < n && Number(NextPlace(p, n), n) == Number(p, n) + 1
  {
    assert (p.loop + 1) * n == p.loop * n + n;
  }

  lemma MarkNumber(c: Checkpoint)
    requires Counted(c) && c.next <= c.total && c.total > 0
    ensures Mark(c).segment < c.total && Number(Mark(c), c.total) == c.completed
  {
    assert (c.currentLoop + 1) * c.total == c.currentLoop * c.total + c.total;
  }

  /** The record written after one more segment of the current pass. */
  function AfterSegment(c: Checkpoint): Checkpoint { c.(next := c.next + 1, completed := c.completed + 1) }

  /** The record written when the next pass begins. */
  function AfterPass(c: Checkpoint): Checkpoint { c.(currentLoop := c.currentLoop + 1, next := 0) }

  /**
   The check rejects a mission's own progress exactly when it has completed as many segments as one pass has:
   progress is counted across passes but limited to one.
   */
  lemma ProgressIsRejectedExactlyAfterOnePass(c: Checkpoint)
    requires Valid(c) && Counted(c) && c.next < c.total
    ensures Counted(AfterSegment(c)) && Mark(AfterSegment(c)) == NextPlace(Mark(c), c.total)
    ensures Valid(AfterSegment(c)) <==> c.completed < c.total
    ensures Valid(AfterSegment(c)) <==> c.currentLoop == 0
  {
    if c.currentLoop == 0 {
      assert c.currentLoop * c.total == 0;
    } else {
      AtLeastOnce(c.currentLoop, c.total);
    }
  }

  lemma AtLeastOnce(k: nat, n: nat)
    requires k >= 1
    ensures k * n >= n
  {
    assert k * n == (k - 1) * n + n;
  }

  lemma NextPassKeepsCount(c: Checkpoint)
    requires Valid(c) && Counted(c) && c.next == c.total
    ensures Counted(AfterPass(c)) && Mark(AfterPass(c)) == Mark(c)
    ensures Valid(AfterPass(c)) <==> (c.totalLoops != 0 ==> c.currentLoop + 1 < c.totalLoops)
  {
    assert (c.currentLoop + 1) * c.total == c.currentLoop * c.total + c.total;
  }

  /** A valid, counted record at the end of a pass is at the end of the first. */
  lemma OnlyTheFirstPassEnds(c: Checkpoint)
    requires Valid(c) && Counted(c) && c.next == c.total
    ensures c.currentLoop == 0 && Mark(c) == Place(1, 0)
  {
    if c.currentLoop >= 1 {
      AtLeastOnce(c.currentLoop, c.total);
    }
  }

  // ---------------------------------------------------------------------------------------------
  // The segments completed
  // ---------------------------------------------------------------------------------------------

  predicate Follows(p: Place, q: Place, n: nat) { q == p || q == NextPlace(p, n) }

  /** A log of completed segments that starts at the first one and never skips or goes back. */
  ghost predicate Orderly(log: seq<Place>, n: nat) {
    && (log != [] ==> log[0] == Place(0, 0))
    && (forall i :: 0 <= i < |log| ==> log[i].segment < n)
    && forall i :: 0 < i < |log| ==> Follows(log[i - 1], log[i], n)
  }

  /** From position `from` on, every segment comes right after the one before it: nothing repeats. */
  ghost predicate Advances(log: seq<Place>, from: nat, n: nat) {
    forall i :: from < i < |log| ==> log[i] == NextPlace(log[i - 1], n)
  }

  /** The record marks the place after the last completed segment, or that segment where it was not recorded yet. */
  predicate Reached(log: seq<Place>, c: Checkpoint) {
    if log == [] then Mark(c) == Place(0, 0) else Follows(log[|log| - 1], Mark(c), c.total)
  }

  /** Every segment of the first pass was completed. */
  ghost predicate Covered(log: seq<Place>, n: nat) { forall s: nat :: s < n ==> Place(0, s) in log }

  /** Numbered through all passes, the completed segments start at zero and advance by nothing or one. */
  lemma OrderlyAdvancesByAtMostOne(log: seq<Place>, n: nat)
    requires Orderly(log, n)
    ensures log != [] ==> Number(log[0], n) == 0
    ensures forall i :: 0 < i < |log| ==> Number(log[i - 1], n) <= Number(log[i], n) <= Number(log[i - 1], n) + 1
  {
    forall i | 0 < i < |log|
      ensures Number(log[i - 1], n) <= Number(log[i], n) <= Number(log[i - 1], n) + 1
    {
      assert Follows(log[i - 1], log[i], n);
      NextNumber(log[i - 1], n);
    }
  }

  /** A log that reached a place passed every place before it. */
  lemma {:induction false} OrderlySkipsNothing(log: seq<Place>, n: nat, number: nat) returns (i: nat)
    requires Orderly(log, n) && log != [] && number <= Number(log[|log| - 1], n)
    ensures i < |log| && Number(log[i], n) == number
    decreases |log|
  {
    var last := |log| - 1;
    assert Number(log[0], n) == 0;
    if number == Number(log[last], n) {
      i := last;
    } else {
      assert Follows(log[last - 1], log[last], n);
      NextNumber(log[last - 1], n);
      assert log[..last][last - 1] == log[last - 1];
      OrderlyPrefix(log, n);
      i := OrderlySkipsNothing(log[..last], n, number);
    }
  }

  lemma OrderlyPrefix(log: seq<Place>, n: nat)
    requires Orderly(log, n) && log != []
    ensures Orderly(log[..|log| - 1], n)
  {
    var log' := log[..|log| - 1];
    forall i | 0 < i < |log'| ensures Follows(log'[i - 1], log'[i], n) {
      assert Follows(log[i - 1], log[i], n);
    }
  }

  lemma SmallNumber(p: Place, n: nat)
    requires p.segment < n && Number(p, n) < n
    ensures p == Place(0, Number(p, n))
  {
    if p.loop >= 1 {
      AtLeastOnce(p.loop, n);
    }
  }

  /** Once a log has reached the end of the first pass, every segment was completed. */
  lemma EndOfPassCoversEverySegment(log: seq<Place>, c: Checkpoint)
    requires c.total > 0 && Orderly(log, c.total) && Reached(log, c) && Mark(c) == Place(1, 0)
    ensures Covered(log, c.total)
  {
    var n := c.total;
    var last := log[|log| - 1];
    NextNumber(last, n);
    assert Number(Place(1, 0), n) == n;
    forall s: nat | s < n ensures Place(0, s) in log {
      var i := OrderlySkipsNothing(log, n, s);
      SmallNumber(log[i], n);
    }
  }
}
