/**
 Region recognition: the captured points of a group, in order, are cut into boundaries joined by connection pairs.
 Geometry is an oracle; what is modelled is the cutting, the naming and the connecting.
 */
module RegionRecognizer {
  import opened Wrappers
  import opened CleaningModel
  import opened ChainSolver

  datatype Kind = B | C

  datatype Failure =
    | CaptureTypeInvalid | InsufficientBoundaryPoints | ConnectionPointsUnpaired | ConnectionWithoutAdjacentArea
    | BoundaryRejected | ConnectorRejected

  // ---------------------------------------------------------------------------------------------
  // The language of point sequences
  // ---------------------------------------------------------------------------------------------

  function Run(n: nat): (r: seq<Kind>)
    ensures |r| == n
  {
    seq(n, _ => B)
  }

  /** Boundary runs of these lengths, joined by pairs of connection points. */
  function Layout(runs: seq<nat>): seq<Kind> {
    if runs == [] then [] else if |runs| == 1 then Run(runs[0]) else Run(runs[0]) + [C, C] + Layout(runs[1..])
  }

  ghost predicate IsLayout(kinds: seq<Kind>, runs: seq<nat>) {
    runs != [] && (forall i :: 0 <= i < |runs| ==> runs[i] >= 4) && kinds == Layout(runs)
  }

  /** At least four boundary points, then any number of times two connection points and at least four more. */
  ghost predicate InLanguage(kinds: seq<Kind>) { exists runs :: IsLayout(kinds, runs) }

  function LeadingRun(kinds: seq<Kind>): (n: nat)
    ensures n <= |kinds|
    ensures forall i :: 0 <= i < n ==> kinds[i] == B
    ensures n < |kinds| ==> kinds[n] == C
  {
    if kinds == [] || kinds[0] == C then 0
    else
      var n := LeadingRun(kinds[1..]);
      assert forall i :: 0 <= i < 1 + n ==> kinds[i] == B by {
        forall i | 0 <= i < 1 + n ensures kinds[i] == B {
          if i > 0 {
            assert kinds[1..][i - 1] == kinds[i];
          }
        }
      }
      1 + n
  }

  lemma {:induction false} RunLength(kinds: seq<Kind>, n: nat)
    requires n <= |kinds| && (forall k :: 0 <= k < n ==> kinds[k] == B) && (n < |kinds| ==> kinds[n] == C)
    ensures LeadingRun(kinds) == n
  {
    if n > 0 {
      RunLength(kinds[1..], n - 1);
    }
  }

  /** What follows the leading run: nothing, or a pair and the rest. */
  predicate PairAt(kinds: seq<Kind>, m: nat) { m + 1 < |kinds| && kinds[m] == C && kinds[m + 1] == C }

  lemma RunPairAndTail(kinds: seq<Kind>, m: nat, tail: seq<Kind>)
    requires kinds == Run(m) + [C, C] + tail
    ensures LeadingRun(kinds) == m && PairAt(kinds, m) && kinds[m + 2..] == tail
  {
    RunLength(kinds, m);
  }

  lemma LayoutUnfolds(kinds: seq<Kind>, runs: seq<nat>)
    requires IsLayout(kinds, runs)
    ensures var m := LeadingRun(kinds);
            m >= 4 && (m == |kinds| || (PairAt(kinds, m) && IsLayout(kinds[m + 2..], runs[1..])))
  {
    if |runs| == 1 {
      RunLength(kinds, runs[0]);
    } else {
      RunPairAndTail(kinds, runs[0], Layout(runs[1..]));
    }
  }

  lemma RunIsLayout(kinds: seq<Kind>)
    requires LeadingRun(kinds) == |kinds| >= 4
    ensures IsLayout(kinds, [|kinds|])
  {
    assert kinds == Run(|kinds|);
  }

  lemma LayoutGrows(kinds: seq<Kind>, runs: seq<nat>)
    requires var m := LeadingRun(kinds); m >= 4 && PairAt(kinds, m) && IsLayout(kinds[m + 2..], runs)
    ensures IsLayout(kinds, [LeadingRun(kinds)] + runs)
  {
    var m := LeadingRun(kinds);
    assert kinds[..m] == Run(m);
    assert kinds == kinds[..m] + [C, C] + kinds[m + 2..];
    assert ([m] + runs)[1..] == runs;
  }

  /** The rest of a sequence after its leading run of length `m`. */
  ghost predicate GoesOn(kinds: seq<Kind>, m: nat) { PairAt(kinds, m) && InLanguage(kinds[m + 2..]) }

  lemma LanguageReads(kinds: seq<Kind>)
    requires InLanguage(kinds)
    ensures var m := LeadingRun(kinds); m >= 4 && (m == |kinds| || GoesOn(kinds, m))
  {
    var runs :| IsLayout(kinds, runs);
    LayoutUnfolds(kinds, runs);
  }

  lemma RunIsRead(kinds: seq<Kind>)
    requires LeadingRun(kinds) == |kinds| >= 4
    ensures InLanguage(kinds)
  {
    RunIsLayout(kinds);
  }

  lemma PairIsRead(kinds: seq<Kind>)
    requires LeadingRun(kinds) >= 4 && GoesOn(kinds, LeadingRun(kinds))
    ensures InLanguage(kinds)
  {
    var runs :| IsLayout(kinds[LeadingRun(kinds) + 2..], runs);
    LayoutGrows(kinds, runs);
  }

  /** One step of reading a sequence of the language. */
  lemma LanguageUnfolds(kinds: seq<Kind>)
    ensures var m := LeadingRun(kinds);
            InLanguage(kinds) <==> m >= 4 && (m == |kinds| || GoesOn(kinds, m))
  {
    var m := LeadingRun(kinds);
    if InLanguage(kinds) {
      LanguageReads(kinds);
    }
    if m >= 4 && m == |kinds| {
      RunIsRead(kinds);
    }
    if m >= 4 && GoesOn(kinds, m) {
      PairIsRead(kinds);
    }
  }

  lemma LanguageStartsWithRun(kinds: seq<Kind>)
    requires InLanguage(kinds)
    ensures |kinds| >= 4 && kinds[0] == B
  {
    LanguageUnfolds(kinds);
  }

  // ---------------------------------------------------------------------------------------------
  // Segmentation
  // ---------------------------------------------------------------------------------------------

  /** A boundary as an index range, both ends given: `[first, last)`. */
  datatype Range = Range(first: nat, last: nat)

  predicate RunAt(kinds: seq<Kind>, r: Range) {
    r.first + 4 <= r.last <= |kinds| && forall k :: r.first <= k < r.last ==> kinds[k] == B
  }

  /** The `i`-th pair follows the `i`-th run, and the next run follows the pair. */
  predicate JoinedAt(kinds: seq<Kind>, boundaries: seq<Range>, pairs: seq<nat>, i: nat) {
    && i < |pairs| && i < |boundaries| && pairs[i] == boundaries[i].last && PairAt(kinds, pairs[i])
    && (i + 1 < |boundaries| ==> boundaries[i + 1].first == pairs[i] + 2)
  }

  /** Where the runs and pairs so far end. */
  function EndOf(boundaries: seq<Range>, pairs: seq<nat>): nat {
    if |pairs| >= |boundaries| then if pairs == [] then 0 else pairs[|pairs| - 1] + 2
    else boundaries[|boundaries| - 1].last
  }

  /** Runs and pairs alternate without a gap from the first point to `end`. */
  ghost predicate Tiles(kinds: seq<Kind>, boundaries: seq<Range>, pairs: seq<nat>, end: nat) {
    && |pairs| <= |boundaries| <= |pairs| + 1 && end == EndOf(boundaries, pairs)
    && (boundaries != [] ==> boundaries[0].first == 0)
    && (forall i :: 0 <= i < |boundaries| ==> RunAt(kinds, boundaries[i]))
    && (forall i :: 0 <= i < |pairs| ==> JoinedAt(kinds, boundaries, pairs, i))
  }

  datatype Segmentation = Segments(boundaries: seq<Range>, pairs: seq<nat>) | Refused(failure: Failure)

  lemma TilesWithRun(kinds: seq<Kind>, boundaries: seq<Range>, pairs: seq<nat>, r: Range)
    requires Tiles(kinds, boundaries, pairs, r.first) && |pairs| == |boundaries| && RunAt(kinds, r)
    ensures Tiles(kinds, boundaries + [r], pairs, r.last)
  {
    var longer := boundaries + [r];
    forall i | 0 <= i < |pairs| ensures JoinedAt(kinds, longer, pairs, i) {
      assert JoinedAt(kinds, boundaries, pairs, i);
    }
    forall i | 0 <= i < |longer| ensures RunAt(kinds, longer[i]) {
      assert i < |boundaries| ==> RunAt(kinds, boundaries[i]);
    }
  }

  lemma TilesWithPair(kinds: seq<Kind>, boundaries: seq<Range>, pairs: seq<nat>, last: nat)
    requires Tiles(kinds, boundaries, pairs, last) && |pairs| + 1 == |boundaries| && PairAt(kinds, last)
    ensures Tiles(kinds, boundaries, pairs + [last], last + 2)
  {
    var longer := pairs + [last];
    forall i | 0 <= i < |longer| ensures JoinedAt(kinds, boundaries, longer, i) {
      assert i < |pairs| ==> JoinedAt(kinds, boundaries, pairs, i);
    }
  }

  /** Reading on from `first`, when the leading run ends at `last`. */
  lemma LanguageFrom(kinds: seq<Kind>, first: nat, last: nat)
    requires first <= last <= |kinds| && last == first + LeadingRun(kinds[first..])
    ensures InLanguage(kinds[first..])
            <==> last - first >= 4 && (last == |kinds| || GoesOn(kinds, last))
  {
    var s, m := kinds[first..], last - first;
    LanguageUnfolds(s);
    assert PairAt(s, m) <==> PairAt(kinds, last);
    if PairAt(kinds, last) {
      assert s[m + 2..] == kinds[last + 2..];
    }
  }

  /** A failure of the sequence of points, not of their geometry. */
  predicate OfTheSequence(failure: Failure) { !failure.BoundaryRejected? && !failure.ConnectorRejected? }

  datatype Piece = LastRun | RunAndPair | Bad(failure: Failure)

  /** One sub-area: its boundary run and, unless it is the last one, the connection pair after it. */
  method ReadPiece(kinds: seq<Kind>, first: nat) returns (last: nat, piece: Piece)
    requires first < |kinds|
    ensures piece.Bad? ==> !InLanguage(kinds[first..]) && OfTheSequence(piece.failure)
    ensures piece.Bad? ==> !piece.failure.CaptureTypeInvalid?
    ensures !piece.Bad? ==> RunAt(kinds, Range(first, last))
    ensures piece.LastRun? ==> last == |kinds| && InLanguage(kinds[first..])
    ensures piece.RunAndPair? ==>
              && PairAt(kinds, last) && last + 2 < |kinds|
              && (InLanguage(kinds[first..]) <==> InLanguage(kinds[last + 2..]))
  {
    last := ScanWhile(kinds, first, B);
    LanguageFrom(kinds, first, last);
    if last - first < 4 {
      return last, Bad(InsufficientBoundaryPoints);
    }
    if last == |kinds| {
      return last, LastRun;
    }
    var end := ScanWhile(kinds, last, C);
    if end - last != 2 {
      NotAPair(kinds, last, end);
      return last, Bad(ConnectionPointsUnpaired);
    }
    if end == |kinds| {
      EmptyIsNoLayout();
      assert kinds[end..] == [];
      return last, Bad(ConnectionWithoutAdjacentArea);
    }
    return last, RunAndPair;
  }

  /** The segmentation succeeds exactly on the language, and then its ranges and pairs tile all the points. */
  method Segment(kinds: seq<Kind>) returns (r: Segmentation)
    ensures r.Segments? <==> InLanguage(kinds)
    ensures r.Refused? ==> OfTheSequence(r.failure) && !r.failure.CaptureTypeInvalid?
    ensures r.Segments? ==>
              && Tiles(kinds, r.boundaries, r.pairs, |kinds|)
              && |r.boundaries| == |r.pairs| + 1
  {
    var boundaries: seq<Range> := [];
    var pairs: seq<nat> := [];
    var cursor := 0;
    while cursor < |kinds|
      invariant cursor <= |kinds| && |pairs| == |boundaries|
      invariant Tiles(kinds, boundaries, pairs, cursor)
      invariant InLanguage(kinds) <==> InLanguage(kinds[cursor..])
    {
      var last, piece := ReadPiece(kinds, cursor);
      if piece.Bad? {
        return Refused(piece.failure);
      }
      TilesWithRun(kinds, boundaries, pairs, Range(cursor, last));
      boundaries := boundaries + [Range(cursor, last)];
      if piece.LastRun? {
        return Segments(boundaries, pairs);
      }
      TilesWithPair(kinds, boundaries, pairs, last);
      pairs := pairs + [last];
      cursor := last + 2;
    }
    EmptyIsNoLayout();
    assert kinds[cursor..] == [];
    return Refused(InsufficientBoundaryPoints);
  }

  lemma EmptyIsNoLayout()
    ensures !InLanguage([])
  {
    LanguageUnfolds([]);
  }

  /** A block of connection points that is not a pair is in no layout. */
  lemma NotAPair(kinds: seq<Kind>, start: nat, end: nat)
    requires start < end <= |kinds| && end != start + 2
    requires forall k :: start <= k < end ==> kinds[k] == C
    requires end < |kinds| ==> kinds[end] == B
    ensures !GoesOn(kinds, start)
  {
    if GoesOn(kinds, start) {
      LanguageStartsWithRun(kinds[start + 2..]);
    }
  }

  /** The first position from `from` on that holds something else. */
  method ScanWhile(kinds: seq<Kind>, from: nat, kind: Kind) returns (r: nat)
    requires from <= |kinds|
    ensures from <= r <= |kinds|
    ensures forall k :: from <= k < r ==> kinds[k] == kind
    ensures r < |kinds| ==> kinds[r] != kind
    ensures kind == B ==> r == from + LeadingRun(kinds[from..])
  {
    r := from;
    while r < |kinds| && kinds[r] == kind
      invariant from <= r <= |kinds| && forall k :: from <= k < r ==> kinds[k] == kind
    {
      r := r + 1;
    }
    if kind == B {
      RunLength(kinds[from..], r - from);
    }
  }

  // ---------------------------------------------------------------------------------------------
  // Names
  // ---------------------------------------------------------------------------------------------

  function Digit(n: nat): char
    requires n < 10
  {
    "0123456789"[n]
  }

  /** Decimal notation without leading zeros. */
  function Decimal(n: nat): (s: string)
    ensures |s| == 1 <==> n < 10
    ensures s != ""
  {
    if n < 10 then [Digit(n)] else Decimal(n / 10) + [Digit(n % 10)]
  }

  lemma {:induction false} DecimalIsInjective(m: nat, n: nat)
    requires Decimal(m) == Decimal(n)
    ensures m == n
  {
    var a, b := Decimal(m), Decimal(n);
    assert a[|a| - 1] == Digit(m % 10) && b[|b| - 1] == Digit(n % 10);
    if m >= 10 {
      assert a[..|a| - 1] == Decimal(m / 10) && b[..|b| - 1] == Decimal(n / 10);
      DecimalIsInjective(m / 10, n / 10);
    }
  }

  function AreaId(groupId: Id, i: nat): Id { groupId + "-sa" + Decimal(i + 1) }

  lemma AreaIdsDiffer(groupId: Id, i: nat, j: nat)
    requires AreaId(groupId, i) == AreaId(groupId, j)
    ensures i == j
  {
    var prefix := groupId + "-sa";
    assert AreaId(groupId, i)[|prefix|..] == Decimal(i + 1) && AreaId(groupId, j)[|prefix|..] == Decimal(j + 1);
    DecimalIsInjective(i + 1, j + 1);
  }

  // ---------------------------------------------------------------------------------------------
  // Recognition
  // ---------------------------------------------------------------------------------------------

  /** A boundary whose points may have been put into a different order, and how certain that order is. */
  datatype Boundary = Boundary(indexes: seq<nat>, confidence: real)

  /** The geometric judgements: an acceptable order of a boundary, and an acceptable connector. */
  datatype Geometry = Geometry(
    arrange: (seq<ModelPoint>, Range) -> Option<Boundary>,
    connects: (seq<ModelPoint>, seq<Boundary>, nat, nat) -> bool,
    autoConfirm: real)

  function KindOf(p: ModelPoint): Option<Kind> {
    if p.captureType == "" || p.captureType == "boundary" then Some(B)
    else if p.captureType == "connection" then Some(C) else None
  }

  predicate KindsOf(points: seq<ModelPoint>, kinds: seq<Kind>) {
    |kinds| == |points| && forall i :: 0 <= i < |points| ==> KindOf(points[i]) == Some(kinds[i])
  }

  datatype Recognition = Recognized(group: Group, confirmed: bool) | Unrecognized(failure: Failure)

  /** Areas named in order, connectors from each area to the next, all of them confirmed or none. */
  ghost predicate WellConnected(group: Group, confirmed: bool) {
    && group.subAreas != [] && |group.connectors| == |group.subAreas| - 1
    && (forall i :: 0 <= i < |group.subAreas| ==>
          group.subAreas[i].id == AreaId(group.id, i) && group.subAreas[i].confirmed == confirmed)
    && (forall i :: 0 <= i < |group.connectors| ==>
          && group.connectors[i].from == AreaId(group.id, i) && group.connectors[i].to == AreaId(group.id, i + 1)
          && group.connectors[i].confirmed == confirmed)
  }

  function MinReal(a: real, b: real): real { if a <= b then a else b }

  method ReadKinds(points: seq<ModelPoint>) returns (kinds: Option<seq<Kind>>)
    ensures kinds.Some? ==> KindsOf(points, kinds.value)
    ensures kinds.None? <==> exists i :: 0 <= i < |points| && KindOf(points[i]).None?
  {
    var read: seq<Kind> := [];
    var i := 0;
    while i < |points|
      invariant i <= |points| && KindsOf(points[..i], read)
    {
      var kind := KindOf(points[i]);
      if kind.None? {
        return None;
      }
      read := read + [kind.value];
      i := i + 1;
    }
    assert points[..i] == points;
    return Some(read);
  }

  function IdsAt(points: seq<ModelPoint>, indexes: seq<nat>): seq<Id> {
    seq(|indexes|, i requires 0 <= i < |indexes| => if indexes[i] < |points| then points[indexes[i]].id else "")
  }

  /** One area per boundary, holding the boundary's points in their order. */
  function AreasOf(group: Group, boundaries: seq<Boundary>, confirmed: bool): seq<SubArea> {
    seq(|boundaries|, i requires 0 <= i < |boundaries| =>
      SubArea(AreaId(group.id, i), IdsAt(group.points, boundaries[i].indexes), confirmed))
  }

  /** The connector of pair `i`: from area `i` to the next one, between the two points of the pair. */
  function ConnectorOf(group: Group, i: nat, pair: nat, confirmed: bool): Connector
    requires pair + 1 < |group.points|
  {
    Connector(group.id + "-c" + Decimal(i + 1), group.points[pair].id, group.points[pair + 1].id,
              AreaId(group.id, i), AreaId(group.id, i + 1), confirmed)
  }

  predicate PairsInside(group: Group, pairs: seq<nat>) {
    forall i :: 0 <= i < |pairs| ==> pairs[i] + 1 < |group.points|
  }

  function ConnectorsOf(group: Group, pairs: seq<nat>, confirmed: bool): seq<Connector>
    requires PairsInside(group, pairs)
  {
    seq(|pairs|, i requires 0 <= i < |pairs| => ConnectorOf(group, i, pairs[i], confirmed))
  }

  /** The least certainty of any boundary, at most one. */
  function Certainty(boundaries: seq<Boundary>): real {
    if boundaries == [] then 1.0
    else var last := |boundaries| - 1; MinReal(Certainty(boundaries[..last]), boundaries[last].confidence)
  }

  lemma NoAreas(group: Group)
    ensures AreasOf(group, [], false) == [] && Certainty([]) == 1.0
  {
  }

  lemma OneMoreArea(group: Group, boundaries: seq<Boundary>, next: Boundary)
    ensures AreasOf(group, boundaries + [next], false)
         == AreasOf(group, boundaries, false)
          + [SubArea(AreaId(group.id, |boundaries|), IdsAt(group.points, next.indexes), false)]
  {
    hide AreaId, IdsAt;
    var before, after := AreasOf(group, boundaries, false), AreasOf(group, boundaries + [next], false);
    forall i | 0 <= i < |boundaries| ensures after[i] == before[i] {
      assert (boundaries + [next])[i] == boundaries[i];
    }
  }

  lemma OneMoreBoundary(boundaries: seq<Boundary>, next: Boundary)
    ensures Certainty(boundaries + [next]) == MinReal(Certainty(boundaries), next.confidence)
  {
    assert (boundaries + [next])[..|boundaries|] == boundaries;
  }

  method BuildAreas(group: Group, ranges: seq<Range>, geometry: Geometry)
    returns (areas: Option<seq<SubArea>>, boundaries: seq<Boundary>, confidence: real)
    ensures areas.Some? ==>
              && Arranged(group.points, ranges, geometry, boundaries)
              && areas.value == AreasOf(group, boundaries, false) && confidence == Certainty(boundaries)
    ensures areas.None? ==> exists i :: 0 <= i < |ranges| && geometry.arrange(group.points, ranges[i]).None?
  {
    hide AreasOf, Certainty, AreaId, IdsAt;
    var built: seq<SubArea> := [];
    boundaries, confidence := [], 1.0;
    NoAreas(group);
    var i := 0;
    while i < |ranges|
      invariant i <= |ranges| && Arranged(group.points, ranges[..i], geometry, boundaries)
      invariant built == AreasOf(group, boundaries, false) && confidence == Certainty(boundaries)
    {
      var boundary := geometry.arrange(group.points, ranges[i]);
      if boundary.None? {
        return None, [], 0.0;
      }
      confidence := MinReal(confidence, boundary.value.confidence);
      var ids := PointIds(group.points, boundary.value.indexes);
      OneMoreArea(group, boundaries, boundary.value);
      OneMoreBoundary(boundaries, boundary.value);
      boundaries := boundaries + [boundary.value];
      built := built + [SubArea(AreaId(group.id, i), ids, false)];
      i := i + 1;
    }
    assert ranges[..i] == ranges;
    areas := Some(built);
  }

  method PointIds(points: seq<ModelPoint>, indexes: seq<nat>) returns (ids: seq<Id>)
    ensures ids == IdsAt(points, indexes)
  {
    ids := [];
    var i := 0;
    while i < |indexes|
      invariant i <= |indexes| && ids == IdsAt(points, indexes[..i])
    {
      ids := ids + [if indexes[i] < |points| then points[indexes[i]].id else ""];
      i := i + 1;
    }
    assert indexes[..i] == indexes;
  }

  /** The geometry accepts every run, and these are the boundaries it makes of them. */
  ghost predicate Arranged(points: seq<ModelPoint>, ranges: seq<Range>, geometry: Geometry, boundaries: seq<Boundary>) {
    && |boundaries| == |ranges|
    && forall i :: 0 <= i < |ranges| ==> geometry.arrange(points, ranges[i]) == Some(boundaries[i])
  }

  ghost predicate AllConnect(points: seq<ModelPoint>, boundaries: seq<Boundary>, pairs: seq<nat>, geometry: Geometry) {
    forall i :: 0 <= i < |pairs| ==> geometry.connects(points, boundaries, i, pairs[i])
  }

  method BuildConnectors(group: Group, areas: seq<SubArea>, boundaries: seq<Boundary>, pairs: seq<nat>,
                         geometry: Geometry) returns (connectors: Option<seq<Connector>>)
    requires |boundaries| == |pairs| + 1 && areas == AreasOf(group, boundaries, false) && PairsInside(group, pairs)
    ensures connectors.Some? <==> AllConnect(group.points, boundaries, pairs, geometry)
    ensures connectors.Some? ==> connectors.value == ConnectorsOf(group, pairs, false)
  {
    var built: seq<Connector> := [];
    var i := 0;
    while i < |pairs|
      invariant i <= |pairs| && built == ConnectorsOf(group, pairs[..i], false)
      invariant forall k :: 0 <= k < i ==> geometry.connects(group.points, boundaries, k, pairs[k])
    {
      if !geometry.connects(group.points, boundaries, i, pairs[i]) {
        return None;
      }
      built := built + [Connector(group.id + "-c" + Decimal(i + 1), group.points[pairs[i]].id,
                                  group.points[pairs[i] + 1].id, areas[i].id, areas[i + 1].id, false)];
      i := i + 1;
    }
    assert pairs[..i] == pairs;
    return Some(built);
  }

  /** The captured points spell a sequence of the language. */
  ghost predicate PointsInLanguage(points: seq<ModelPoint>) {
    exists kinds :: KindsOf(points, kinds) && InLanguage(kinds)
  }

  lemma KindsAreUnique(points: seq<ModelPoint>, kinds: seq<Kind>)
    requires KindsOf(points, kinds)
    ensures PointsInLanguage(points) <==> InLanguage(kinds)
  {
    if PointsInLanguage(points) {
      var k :| KindsOf(points, k) && InLanguage(k);
      assert k == kinds;
    }
  }

  /** The recognized group, every part of it confirmed or none. */
  function Assembled(group: Group, areas: seq<SubArea>, connectors: seq<Connector>, confirmed: bool): Group {
    Group(group.id, group.points,
          seq(|areas|, i requires 0 <= i < |areas| => SubArea(areas[i].id, areas[i].pointIds, confirmed)),
          seq(|connectors|, i requires 0 <= i < |connectors| => connectors[i].(confirmed := confirmed)))
  }

  // ---------------------------------------------------------------------------------------------
  // A group has at most one layout
  // ---------------------------------------------------------------------------------------------

  /** The points are runs of boundary points, pairs of connection points between them, and nothing else. */
  ghost predicate LaidOut(points: seq<ModelPoint>, ranges: seq<Range>, pairs: seq<nat>) {
    exists kinds :: KindsOf(points, kinds) && Tiles(kinds, ranges, pairs, |kinds|) && |ranges| == |pairs| + 1
  }

  /** Run `i` of a complete tiling ends where its boundary points do. */
  lemma TiledRun(kinds: seq<Kind>, ranges: seq<Range>, pairs: seq<nat>, i: nat)
    requires Tiles(kinds, ranges, pairs, |kinds|) && |ranges| == |pairs| + 1 && i < |ranges|
    ensures RunAt(kinds, ranges[i]) && ranges[i].last == ranges[i].first + LeadingRun(kinds[ranges[i].first..])
    ensures i < |pairs| <==> ranges[i].last < |kinds|
  {
    var r := ranges[i];
    assert RunAt(kinds, r);
    if i < |pairs| {
      assert JoinedAt(kinds, ranges, pairs, i);
    }
    RunLength(kinds[r.first..], r.last - r.first);
  }

  /** A complete tiling is a reading in the language, from any of its runs on. */
  lemma {:induction false} TilingIsRead(kinds: seq<Kind>, ranges: seq<Range>, pairs: seq<nat>, i: nat)
    requires Tiles(kinds, ranges, pairs, |kinds|) && |ranges| == |pairs| + 1 && i < |ranges|
    ensures ranges[i].first <= |kinds| && InLanguage(kinds[ranges[i].first..])
    decreases |ranges| - i
  {
    TiledRun(kinds, ranges, pairs, i);
    if i < |pairs| {
      TilingIsRead(kinds, ranges, pairs, i + 1);
      PairGoesOn(kinds, ranges, pairs, i);
    }
    LanguageFrom(kinds, ranges[i].first, ranges[i].last);
  }

  lemma PairGoesOn(kinds: seq<Kind>, ranges: seq<Range>, pairs: seq<nat>, i: nat)
    requires Tiles(kinds, ranges, pairs, |kinds|) && |ranges| == |pairs| + 1 && i < |pairs|
    requires ranges[i + 1].first <= |kinds| && InLanguage(kinds[ranges[i + 1].first..])
    ensures GoesOn(kinds, ranges[i].last)
  {
    assert JoinedAt(kinds, ranges, pairs, i);
    LanguageStartsWithRun(kinds[ranges[i + 1].first..]);
  }

  /** Two complete tilings that begin run `i` at the same point end it at the same point. */
  lemma SameRun(
      kinds: seq<Kind>, ranges: seq<Range>, pairs: seq<nat>, ranges': seq<Range>, pairs': seq<nat>, i: nat)
    requires Tiles(kinds, ranges, pairs, |kinds|) && |ranges| == |pairs| + 1 && i < |ranges|
    requires Tiles(kinds, ranges', pairs', |kinds|) && |ranges'| == |pairs'| + 1 && i < |ranges'|
    requires ranges[i].first == ranges'[i].first
    ensures ranges[i] == ranges'[i] && (i < |pairs| <==> i < |pairs'|)
  {
    TiledRun(kinds, ranges, pairs, i);
    TiledRun(kinds, ranges', pairs', i);
  }

  /** Where both go on after run `i`, they go on with the same pair and the same start of the next run. */
  lemma SamePair(
      kinds: seq<Kind>, ranges: seq<Range>, pairs: seq<nat>, ranges': seq<Range>, pairs': seq<nat>, i: nat)
    requires Tiles(kinds, ranges, pairs, |kinds|) && |ranges| == |pairs| + 1 && i < |pairs|
    requires Tiles(kinds, ranges', pairs', |kinds|) && |ranges'| == |pairs'| + 1 && i < |pairs'|
    requires ranges[i] == ranges'[i]
    ensures pairs[i] == pairs'[i] && ranges[i + 1].first == ranges'[i + 1].first
  {
    assert JoinedAt(kinds, ranges, pairs, i) && JoinedAt(kinds, ranges', pairs', i);
  }

  lemma {:induction false} TilingsAgree(
      kinds: seq<Kind>, ranges: seq<Range>, pairs: seq<nat>, ranges': seq<Range>, pairs': seq<nat>, i: nat)
    requires Tiles(kinds, ranges, pairs, |kinds|) && |ranges| == |pairs| + 1 && i < |ranges|
    requires Tiles(kinds, ranges', pairs', |kinds|) && |ranges'| == |pairs'| + 1
    ensures i < |ranges'| && ranges[i] == ranges'[i] && (i < |pairs| <==> i < |pairs'|)
    ensures i < |pairs| ==> pairs[i] == pairs'[i]
  {
    if i > 0 {
      TilingsAgree(kinds, ranges, pairs, ranges', pairs', i - 1);
      SamePair(kinds, ranges, pairs, ranges', pairs', i - 1);
    }
    SameRun(kinds, ranges, pairs, ranges', pairs', i);
    if i < |pairs| {
      SamePair(kinds, ranges, pairs, ranges', pairs', i);
    }
  }

  /** No points are laid out in two ways. */
  lemma LayoutIsUnique(
      points: seq<ModelPoint>, ranges: seq<Range>, pairs: seq<nat>, ranges': seq<Range>, pairs': seq<nat>)
    requires LaidOut(points, ranges, pairs) && LaidOut(points, ranges', pairs')
    ensures ranges == ranges' && pairs == pairs'
  {
    var kinds :| KindsOf(points, kinds) && Tiles(kinds, ranges, pairs, |kinds|) && |ranges| == |pairs| + 1;
    var kinds' :| KindsOf(points, kinds') && Tiles(kinds', ranges', pairs', |kinds'|) && |ranges'| == |pairs'| + 1;
    assert kinds == kinds';
    forall i | 0 <= i < |ranges|
      ensures i < |ranges'| && ranges[i] == ranges'[i] && (i < |pairs| ==> i < |pairs'| && pairs[i] == pairs'[i])
    {
      TilingsAgree(kinds, ranges, pairs, ranges', pairs', i);
    }
    TilingsAgree(kinds, ranges', pairs', ranges, pairs, |ranges'| - 1);
  }

  /** Points are laid out exactly when they spell a sequence of the language. */
  lemma LaidOutExactlyInTheLanguage(points: seq<ModelPoint>, ranges: seq<Range>, pairs: seq<nat>)
    requires LaidOut(points, ranges, pairs)
    ensures PointsInLanguage(points) && PairsInside(Group("", points, [], []), pairs)
  {
    var kinds :| KindsOf(points, kinds) && Tiles(kinds, ranges, pairs, |kinds|) && |ranges| == |pairs| + 1;
    TilingIsRead(kinds, ranges, pairs, 0);
    assert kinds[0..] == kinds;
    forall i | 0 <= i < |pairs| ensures pairs[i] + 1 < |points| {
      assert JoinedAt(kinds, ranges, pairs, i);
    }
  }

  /** The points are laid out in these runs and pairs, and the geometry accepts all of them. */
  ghost predicate Recognizable(
      input: Group, geometry: Geometry, ranges: seq<Range>, pairs: seq<nat>, boundaries: seq<Boundary>) {
    && LaidOut(input.points, ranges, pairs)
    && Arranged(input.points, ranges, geometry, boundaries) && AllConnect(input.points, boundaries, pairs, geometry)
  }

  /** The group recognized in a layout: one area per run, one connector per pair. */
  function RecognizedGroup(input: Group, pairs: seq<nat>, boundaries: seq<Boundary>, confirmed: bool): Group
    requires PairsInside(input, pairs)
  {
    Group(input.id, input.points, AreasOf(input, boundaries, confirmed), ConnectorsOf(input, pairs, confirmed))
  }

  /** `r` is what a recognizable layout is recognized as. */
  ghost predicate RecognizedAs(
      input: Group, geometry: Geometry, ranges: seq<Range>, pairs: seq<nat>, boundaries: seq<Boundary>, r: Recognition) {
    && Recognizable(input, geometry, ranges, pairs, boundaries) && PairsInside(input, pairs)
    && var confirmed := Certainty(boundaries) >= geometry.autoConfirm;
       r == Recognized(RecognizedGroup(input, pairs, boundaries, confirmed), confirmed)
  }

  /** The layout, the boundaries, and so the recognized group, are determined by the points and the geometry. */
  lemma RecognizedOneWay(
      input: Group, geometry: Geometry, ranges: seq<Range>, pairs: seq<nat>, boundaries: seq<Boundary>, r: Recognition,
      ranges': seq<Range>, pairs': seq<nat>, boundaries': seq<Boundary>)
    requires RecognizedAs(input, geometry, ranges, pairs, boundaries, r)
    requires Recognizable(input, geometry, ranges', pairs', boundaries')
    ensures ranges == ranges' && pairs == pairs' && boundaries == boundaries'
  {
    LayoutIsUnique(input.points, ranges, pairs, ranges', pairs');
  }

  lemma RecognizedIsWellConnected(
      input: Group, geometry: Geometry, ranges: seq<Range>, pairs: seq<nat>, boundaries: seq<Boundary>, r: Recognition)
    requires RecognizedAs(input, geometry, ranges, pairs, boundaries, r)
    ensures WellConnected(r.group, r.confirmed)
  {
    assert |boundaries| == |pairs| + 1;
  }

  /** A point captured as part of a boundary; that is also what a point without a type is taken for. */
  predicate OfBoundary(p: ModelPoint) { p.captureType == "boundary" || p.captureType == "" }

  predicate OfConnection(p: ModelPoint) { p.captureType == "connection" }

  /** Runs of four boundary points or more from the first point to the last, and two connection points between them. */
  ghost predicate Alternates(points: seq<ModelPoint>, ranges: seq<Range>, pairs: seq<nat>) {
    && |ranges| == |pairs| + 1 && ranges[0].first == 0 && ranges[|pairs|].last == |points|
    && (forall i :: 0 <= i < |ranges| ==>
          && 4 <= ranges[i].last - ranges[i].first && ranges[i].last <= |points|
          && forall k :: ranges[i].first <= k < ranges[i].last ==> OfBoundary(points[k]))
    && (forall i :: 0 <= i < |pairs| ==>
          && ranges[i].last == pairs[i] && pairs[i] + 2 == ranges[i + 1].first && pairs[i] + 1 < |points|
          && OfConnection(points[pairs[i]]) && OfConnection(points[pairs[i] + 1]))
  }

  lemma LayoutAlternates(points: seq<ModelPoint>, ranges: seq<Range>, pairs: seq<nat>)
    requires LaidOut(points, ranges, pairs)
    ensures Alternates(points, ranges, pairs)
  {
    var kinds :| KindsOf(points, kinds) && Tiles(kinds, ranges, pairs, |kinds|) && |ranges| == |pairs| + 1;
    forall i | 0 <= i < |pairs|
      ensures ranges[i].last == pairs[i] && pairs[i] + 2 == ranges[i + 1].first && pairs[i] + 1 < |points|
      ensures OfConnection(points[pairs[i]]) && OfConnection(points[pairs[i] + 1])
    {
      assert JoinedAt(kinds, ranges, pairs, i);
    }
    forall i | 0 <= i < |ranges|
      ensures 4 <= ranges[i].last - ranges[i].first && ranges[i].last <= |points|
      ensures forall k :: ranges[i].first <= k < ranges[i].last ==> OfBoundary(points[k])
    {
      assert RunAt(kinds, ranges[i]);
    }
  }

  lemma {:induction false} CertaintyIsTheLeast(boundaries: seq<Boundary>, x: real)
    ensures Certainty(boundaries) >= x <==>
              1.0 >= x && forall i :: 0 <= i < |boundaries| ==> boundaries[i].confidence >= x
  {
    if boundaries != [] {
      CertaintyIsTheLeast(boundaries[..|boundaries| - 1], x);
    }
  }

  /**
   What is recognized, point by point: area `i` holds the points of run `i` in the order the geometry gave them, connector
   `i` starts and ends at the two points of pair `i`, and all of it is confirmed exactly if every boundary is certain
   enough.
   */
  lemma RecognizedPointByPoint(
      input: Group, geometry: Geometry, ranges: seq<Range>, pairs: seq<nat>, boundaries: seq<Boundary>, r: Recognition)
    requires RecognizedAs(input, geometry, ranges, pairs, boundaries, r)
    ensures Alternates(input.points, ranges, pairs) && |boundaries| == |ranges|
    ensures r.group.id == input.id && r.group.points == input.points
    ensures |r.group.subAreas| == |ranges| && |r.group.connectors| == |pairs|
    ensures forall i, k ::
              0 <= i < |ranges| && 0 <= k < |boundaries[i].indexes| && boundaries[i].indexes[k] < |input.points| ==>
              && |r.group.subAreas[i].pointIds| == |boundaries[i].indexes|
              && r.group.subAreas[i].pointIds[k] == input.points[boundaries[i].indexes[k]].id
    ensures forall i :: 0 <= i < |pairs| ==>
              && r.group.connectors[i].startPointId == input.points[pairs[i]].id
              && r.group.connectors[i].endPointId == input.points[pairs[i] + 1].id
    ensures r.confirmed <==>
              1.0 >= geometry.autoConfirm
              && forall i :: 0 <= i < |boundaries| ==> boundaries[i].confidence >= geometry.autoConfirm
  {
    LayoutAlternates(input.points, ranges, pairs);
    CertaintyIsTheLeast(boundaries, geometry.autoConfirm);
  }

  /**
   Recognition of a group whose points are already in capture order: it succeeds exactly when they have a layout whose
   runs and pairs the geometry accepts, and the recognized group is then the one of that layout.
   */
  method RecognizeGroup(input: Group, geometry: Geometry) returns (r: Recognition)
    ensures r.Recognized? ==>
              && WellConnected(r.group, r.confirmed)
              && exists ranges, pairs, boundaries :: RecognizedAs(input, geometry, ranges, pairs, boundaries, r)
    ensures r.Unrecognized? ==>
              forall ranges, pairs, boundaries :: !Recognizable(input, geometry, ranges, pairs, boundaries)
    ensures r.Unrecognized? && OfTheSequence(r.failure) <==>
              !PointsInLanguage(input.points)
    ensures r == Unrecognized(CaptureTypeInvalid) <==>
              exists i :: 0 <= i < |input.points| && !OfBoundary(input.points[i]) && !OfConnection(input.points[i])
  {
    var kinds := ReadKinds(input.points);
    if kinds.None? {
      NoKindsNoLayout(input.points);
      return Unrecognized(CaptureTypeInvalid);
    }
    KindsAreUnique(input.points, kinds.value);
    var segments := Segment(kinds.value);
    if segments.Refused? {
      OutsideTheLanguage(input, geometry);
      return Unrecognized(segments.failure);
    }
    var ranges, pairs := segments.boundaries, segments.pairs;
    assert LaidOut(input.points, ranges, pairs);
    LaidOutExactlyInTheLanguage(input.points, ranges, pairs);
    r := RecognizeLayout(input, geometry, ranges, pairs);
  }

  method RecognizeLayout(input: Group, geometry: Geometry, ranges: seq<Range>, pairs: seq<nat>)
    returns (r: Recognition)
    requires LaidOut(input.points, ranges, pairs) && PairsInside(input, pairs)
    ensures r.Recognized? ==>
              && WellConnected(r.group, r.confirmed)
              && exists boundaries :: RecognizedAs(input, geometry, ranges, pairs, boundaries, r)
    ensures r.Unrecognized? ==>
              && !OfTheSequence(r.failure)
              && forall ranges', pairs', boundaries' :: !Recognizable(input, geometry, ranges', pairs', boundaries')
  {
    var areas, boundaries, confidence := BuildAreas(input, ranges, geometry);
    if areas.None? {
      OnlyThisLayout(input, geometry, ranges, pairs, []);
      return Unrecognized(BoundaryRejected);
    }
    var connectors := BuildConnectors(input, areas.value, boundaries, pairs, geometry);
    if connectors.None? {
      OnlyThisLayout(input, geometry, ranges, pairs, boundaries);
      return Unrecognized(ConnectorRejected);
    }
    var confirmed := confidence >= geometry.autoConfirm;
    r := Recognized(Assembled(input, areas.value, connectors.value, confirmed), confirmed);
    assert r.group == RecognizedGroup(input, pairs, boundaries, confirmed);
    assert RecognizedAs(input, geometry, ranges, pairs, boundaries, r);
    RecognizedIsWellConnected(input, geometry, ranges, pairs, boundaries, r);
  }

  lemma NoKindsNoLayout(points: seq<ModelPoint>)
    requires exists i :: 0 <= i < |points| && KindOf(points[i]).None?
    ensures !PointsInLanguage(points)
    ensures forall ranges, pairs :: !LaidOut(points, ranges, pairs)
  {
  }

  lemma NotLaidOut(points: seq<ModelPoint>, ranges: seq<Range>, pairs: seq<nat>)
    requires !PointsInLanguage(points)
    ensures !LaidOut(points, ranges, pairs)
  {
    if LaidOut(points, ranges, pairs) {
      LaidOutExactlyInTheLanguage(points, ranges, pairs);
    }
  }

  lemma OutsideTheLanguage(input: Group, geometry: Geometry)
    requires !PointsInLanguage(input.points)
    ensures forall ranges, pairs, boundaries :: !Recognizable(input, geometry, ranges, pairs, boundaries)
  {
    forall ranges, pairs, boundaries ensures !Recognizable(input, geometry, ranges, pairs, boundaries) {
      NotLaidOut(input.points, ranges, pairs);
    }
  }

  /** Where the geometry refuses the layout there is, no other layout is recognizable. */
  lemma OnlyThisLayout(
      input: Group, geometry: Geometry, ranges: seq<Range>, pairs: seq<nat>, boundaries: seq<Boundary>)
    requires LaidOut(input.points, ranges, pairs)
    requires
      || (exists i :: 0 <= i < |ranges| && geometry.arrange(input.points, ranges[i]).None?)
      || (Arranged(input.points, ranges, geometry, boundaries) && !AllConnect(input.points, boundaries, pairs, geometry))
    ensures forall ranges', pairs', boundaries' :: !Recognizable(input, geometry, ranges', pairs', boundaries')
  {
    forall ranges', pairs', boundaries' ensures !Recognizable(input, geometry, ranges', pairs', boundaries') {
      if LaidOut(input.points, ranges', pairs') {
        LayoutIsUnique(input.points, ranges, pairs, ranges', pairs');
        if Arranged(input.points, ranges, geometry, boundaries) && Arranged(input.points, ranges, geometry, boundaries') {
          assert boundaries == boundaries';
        }
      }
    }
  }

  // ---------------------------------------------------------------------------------------------
  // Recognition and the chain solver
  // ---------------------------------------------------------------------------------------------

  function Identity(n: nat): (r: seq<nat>)
    ensures |r| == n && forall i :: 0 <= i < n ==> r[i] == i
  {
    seq(n, i requires 0 <= i < n => i)
  }

  lemma AreasAreIndexed(group: Group, confirmed: bool, i: nat)
    requires WellConnected(group, confirmed) && i < |group.subAreas|
    ensures UniqueIds(group.subAreas) && IndexOf(group.subAreas, AreaId(group.id, i)) == i
  {
    forall j, k | 0 <= j < k < |group.subAreas| ensures group.subAreas[j].id != group.subAreas[k].id {
      if group.subAreas[j].id == group.subAreas[k].id {
        AreaIdsDiffer(group.id, j, k);
      }
    }
    IndexIsUnique(group.subAreas, i);
  }

  lemma ConnectorEdge(group: Group, i: nat)
    requires WellConnected(group, true) && i < |group.connectors|
    ensures EdgeOf(group.subAreas, group.connectors[i]) == (i, i + 1)
  {
    AreasAreIndexed(group, true, i);
    AreasAreIndexed(group, true, i + 1);
  }

  lemma RecognizedEdges(group: Group)
    requires WellConnected(group, true)
    ensures UniqueIds(group.subAreas) && UsableConnectors(group)
    ensures EdgesOf(group) == Steps(Identity(|group.subAreas|))
  {
    AreasAreIndexed(group, true, 0);
    forall i | 0 <= i < |group.connectors|
      ensures EdgeOf(group.subAreas, group.connectors[i]) == (i, i + 1)
    {
      ConnectorEdge(group, i);
    }
  }

  /** Whatever is recognized and confirmed is a chain in the order of capture, and the solver says so. */
  lemma RecognizedSolvesInOrder(group: Group, r: Result)
    requires WellConnected(group, true) && Answers(group, r)
    ensures r == Ok(Identity(|group.subAreas|))
  {
    var n := |group.subAreas|;
    RecognizedEdges(group);
    assert IsChain(group, Identity(n));
    if n == 1 {
      assert Identity(1) == [0];
    } else {
      ChainIsUnique(group, r.order, Identity(n));
    }
  }

  /** Recognized but not confirmed, two areas or more are refused until somebody confirms them. */
  lemma UnconfirmedIsRefused(group: Group, r: Result)
    requires WellConnected(group, false) && Answers(group, r) && |group.subAreas| >= 2
    ensures r.Err?
  {
    assert !group.connectors[0].confirmed;
  }
}
