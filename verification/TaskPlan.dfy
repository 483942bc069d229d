/**
 Assembling the task plan: the lanes of every area in chain order, odd lanes reversed, joined by transfers.
 Distances come from a metric, lanes from the coverage planner; both are parameters.
 */
module TaskPlan {
  import opened Wrappers
  import opened CleaningModel
  import Chain = ChainSolver

  const POINT_EPSILON: real := 0.00001

  datatype Lane = Lane(id: Id, start: Point, end: Point)

  datatype Segment = Segment(
    index: nat, cleaning: bool, groupId: Id, areaId: Id, laneId: Id, start: Point, end: Point)

  datatype Error =
    | ModelNotConfirmed | ModelEmpty | PlanSpeedInvalid | OriginMissing | SubAreaMissing | ChainError(error: Chain.Error)
    | SubAreaNotConfirmed | CoverageError | GroupConnectorMissing | SubAreaConnectorMissing | ConnectorPointMissing
    | EvenCleaningLanesRequired

  /** `dist` is the distance of two points; `lanes` the coverage of an area, None where it has none. */
  datatype Context = Context(dist: (Point, Point) -> real, lanes: (Group, SubArea) -> Option<seq<Lane>>)

  /** The errors of assembling, as opposed to those of the model as a whole. */
  predicate FromAssembly(e: Error) {
    !e.ModelNotConfirmed? && !e.ModelEmpty? && !e.PlanSpeedInvalid? && !e.OriginMissing? && !e.EvenCleaningLanesRequired?
  }

  predicate NoDetour(dist: (Point, Point) -> real, p: Point, q: Point, r: Point) {
    dist(p, r) <= dist(p, q) + dist(q, r)
  }

  ghost predicate Metric(dist: (Point, Point) -> real) {
    (forall p :: dist(p, p) == 0.0) && forall p, q, r :: NoDetour(dist, p, q, r)
  }

  /** A coverage always has lanes, and an even number of them. */
  ghost predicate Covering(lanes: (Group, SubArea) -> Option<seq<Lane>>) {
    forall g, a :: lanes(g, a).Some? ==> |lanes(g, a).value| > 0 && |lanes(g, a).value| % 2 == 0
  }

  predicate Same(dist: (Point, Point) -> real, p: Point, q: Point) { dist(p, q) <= POINT_EPSILON }

  function FindPoint(points: seq<ModelPoint>, id: Id): (r: Option<Point>)
  {
    if points == [] then None else if points[0].id == id then Some(points[0].at) else FindPoint(points[1..], id)
  }

  function FindConnector(connectors: seq<Connector>, from: Id, to: Id): (r: Option<Connector>)
    ensures r.Some? ==> r.value in connectors && r.value.from == from && r.value.to == to
    ensures r.None? ==> forall c :: c in connectors ==> !(c.from == from && c.to == to)
  {
    if connectors == [] then None
    else if connectors[0].from == from && connectors[0].to == to then Some(connectors[0])
    else FindConnector(connectors[1..], from, to)
  }

  // ---------------------------------------------------------------------------------------------
  // What a plan's segments amount to
  // ---------------------------------------------------------------------------------------------

  function Cleaned(segments: seq<Segment>): seq<Segment> {
    if segments == [] then []
    else
      var last := |segments| - 1;
      if segments[last].cleaning then Cleaned(segments[..last]) + [segments[last]] else Cleaned(segments[..last])
  }

  function Transfers(segments: seq<Segment>): nat {
    if segments == [] then 0
    else
      var last := |segments| - 1; Transfers(segments[..last]) + if segments[last].cleaning then 0 else 1
  }

  function Length(dist: (Point, Point) -> real, segments: seq<Segment>): real {
    if segments == [] then 0.0
    else var last := |segments| - 1; Length(dist, segments[..last]) + dist(segments[last].start, segments[last].end)
  }

  lemma Appended(dist: (Point, Point) -> real, segments: seq<Segment>, s: Segment)
    ensures Cleaned(segments + [s]) == if s.cleaning then Cleaned(segments) + [s] else Cleaned(segments)
    ensures Transfers(segments + [s]) == Transfers(segments) + if s.cleaning then 0 else 1
    ensures Length(dist, segments + [s]) == Length(dist, segments) + dist(s.start, s.end)
  {
    assert (segments + [s])[..|segments|] == segments;
  }

  ghost predicate Numbered(segments: seq<Segment>) {
    forall i :: 0 <= i < |segments| ==> segments[i].index == i
  }

  /** Every segment starts where the one before ended, give or take three point tolerances. */
  ghost predicate Connected(dist: (Point, Point) -> real, segments: seq<Segment>) {
    forall i :: 0 < i < |segments| ==> dist(segments[i - 1].end, segments[i].start) <= 3.0 * POINT_EPSILON
  }

  // ---------------------------------------------------------------------------------------------
  // The visits a plan makes
  // ---------------------------------------------------------------------------------------------

  /** A lane as it is driven: group, area, lane, start, end. */
  type Driving = (Id, Id, Id, Point, Point)

  datatype Visit = Visit(group: Group, area: SubArea, lanes: seq<Lane>)

  /** Lane `k` of a visit as it is driven: every second one backwards. */
  function Driven(v: Visit, k: nat): Driving
    requires k < |v.lanes|
  {
    LaneContent(v.group, v.area, v.lanes[k], k % 2 != 0)
  }

  function DrivenUpTo(v: Visit, k: nat): seq<Driving>
    requires k <= |v.lanes|
  {
    if k == 0 then [] else DrivenUpTo(v, k - 1) + [Driven(v, k - 1)]
  }

  function AllDriven(visits: seq<Visit>): seq<Driving> {
    if visits == [] then []
    else
      var last := |visits| - 1; AllDriven(visits[..last]) + DrivenUpTo(visits[last], |visits[last].lanes|)
  }

  function Content(s: Segment): Driving { (s.groupId, s.areaId, s.laneId, s.start, s.end) }

  function Contents(segments: seq<Segment>): seq<Driving> {
    seq(|segments|, i requires 0 <= i < |segments| => Content(segments[i]))
  }

  predicate IsVisit(context: Context, group: Group, order: seq<nat>, k: nat, v: Visit) {
    && k < |order| && order[k] < |group.subAreas|
    && v.group == group && v.area == group.subAreas[order[k]] && v.area.confirmed
    && context.lanes(group, v.area) == Some(v.lanes)
  }

  ghost predicate VisitedInOrder(context: Context, group: Group, order: seq<nat>, visits: seq<Visit>) {
    && Chain.Answers(group, Chain.Ok(order)) && |visits| == |order|
    && forall k :: 0 <= k < |visits| ==> IsVisit(context, group, order, k, visits[k])
  }

  /** The first `k` areas of the order, each visited in its turn. */
  ghost predicate AreVisits(context: Context, group: Group, order: seq<nat>, visits: seq<Visit>, k: nat) {
    |visits| == k && forall i :: 0 <= i < k ==> IsVisit(context, group, order, i, visits[i])
  }

  function LastVisit(visits: seq<Visit>): Option<Visit> {
    if visits == [] then None else Some(visits[|visits| - 1])
  }

  /** The visits of one group: all its areas, in the order of its chain. */
  ghost predicate GroupVisited(context: Context, group: Group, visits: seq<Visit>) {
    exists order :: VisitedInOrder(context, group, order, visits)
  }

  /** A confirmed connector leads from area `from` to area `to`, and both its points are known. */
  predicate Connects(group: Group, from: Id, to: Id) {
    var c := FindConnector(group.connectors, from, to);
    && c.Some? && c.value.confirmed
    && FindPoint(group.points, c.value.startPointId).Some? && FindPoint(group.points, c.value.endPointId).Some?
  }

  /** From one visit to the next: the same area name, or the same group name and a connector between them. */
  predicate Adjoining(v: Visit, w: Visit) {
    v.area.id != w.area.id ==> v.group.id == w.group.id && Connects(w.group, v.area.id, w.area.id)
  }

  /** Each visit adjoins the one before it, the first one `last`. */
  ghost predicate Entered(last: Option<Visit>, visits: seq<Visit>) {
    && (last.Some? && visits != [] ==> Adjoining(last.value, visits[0]))
    && forall i :: 0 < i < |visits| ==> Adjoining(visits[i - 1], visits[i])
  }

  // ---------------------------------------------------------------------------------------------
  // The route of a plan
  // ---------------------------------------------------------------------------------------------

  lemma Joined(a: seq<Segment>, b: seq<Segment>, c: seq<Segment>, d: seq<Segment>)
    ensures a + b + c + d == a + (b + c + d)
  {
  }

  /** Where the last lane ended. */
  datatype Stop = Stop(groupId: Id, areaId: Id, at: Point)

  /** A transfer, left out where it would lead nowhere; `n` segments come before it. */
  function Hop(context: Context, n: nat, groupId: Id, areaId: Id, from: Point, end: Point): seq<Segment> {
    if Same(context.dist, from, end) then [] else [Segment(n, false, groupId, areaId, "", from, end)]
  }

  /** To the connector's start, along it, and on to the lane. */
  function ConnectorRoute(
      context: Context, n: nat, stop: Stop, group: Group, areaId: Id, start: Point, end: Point, laneStart: Point)
    : seq<Segment>
  {
    var there := Hop(context, n, group.id, stop.areaId, stop.at, start);
    var along := Hop(context, n + |there|, group.id, stop.areaId, start, end);
    there + along + Hop(context, n + |there| + |along|, group.id, areaId, end, laneStart)
  }

  /** From the last stop to the start of a lane: directly within an area, along the connector between areas. */
  function LeadIn(context: Context, n: nat, stop: Option<Stop>, group: Group, areaId: Id, laneStart: Point)
    : seq<Segment>
  {
    if stop.None? then []
    else if stop.value.areaId == areaId then Hop(context, n, group.id, areaId, stop.value.at, laneStart)
    else if !Connects(group, stop.value.areaId, areaId) then []
    else
      var c := FindConnector(group.connectors, stop.value.areaId, areaId).value;
      ConnectorRoute(
        context, n, stop.value, group, areaId,
        FindPoint(group.points, c.startPointId).value, FindPoint(group.points, c.endPointId).value, laneStart)
  }

  function LaneRoute(context: Context, n: nat, stop: Option<Stop>, group: Group, d: Driving): seq<Segment> {
    var lead := LeadIn(context, n, stop, group, d.1, d.3);
    lead + [Segment(n + |lead|, true, d.0, d.1, d.2, d.3, d.4)]
  }

  function StopIn(v: Visit, k: nat, stop: Option<Stop>): Option<Stop>
    requires k <= |v.lanes|
  {
    if k == 0 then stop else Some(Stop(v.group.id, v.area.id, Driven(v, k - 1).4))
  }

  /** `before` continued by the first `k` lanes of a visit. */
  function VisitRoute(context: Context, before: seq<Segment>, stop: Option<Stop>, v: Visit, k: nat): seq<Segment>
    requires k <= |v.lanes|
  {
    if k == 0 then before
    else
      var s := VisitRoute(context, before, stop, v, k - 1);
      s + LaneRoute(context, |s|, StopIn(v, k - 1, stop), v.group, Driven(v, k - 1))
  }

  function StopAfter(visits: seq<Visit>): Option<Stop> {
    if visits == [] then None
    else var v := visits[|visits| - 1]; StopIn(v, |v.lanes|, StopAfter(visits[..|visits| - 1]))
  }

  /** All segments of the visits, transfers included. */
  function Route(context: Context, visits: seq<Visit>): seq<Segment> {
    if visits == [] then []
    else
      var v, before := visits[|visits| - 1], visits[..|visits| - 1];
      VisitRoute(context, Route(context, before), StopAfter(before), v, |v.lanes|)
  }

  // ---------------------------------------------------------------------------------------------
  // Assembling
  // ---------------------------------------------------------------------------------------------

  lemma StaysThere(dist: (Point, Point) -> real, p: Point)
    requires Metric(dist)
    ensures dist(p, p) == 0.0
  {
  }

  class PlanBuilder {
    const context: Context
    var segments: seq<Segment>
    var cleaningLaneCount: nat
    var transferSegmentCount: nat
    var totalLength: real
    var previousEnd: Option<Point>
    var previousGroupId: Id
    var previousAreaId: Id

    constructor (context: Context)
      ensures this.context == context && Valid() && AtLaneEnd() && segments == []
    {
      this.context := context;
      segments, cleaningLaneCount, transferSegmentCount, totalLength := [], 0, 0, 0.0;
      previousEnd, previousGroupId, previousAreaId := None, "", "";
    }

    /** The counters and the length are those of the segments, which are numbered and connected. */
    ghost predicate Valid()
      reads this`segments, this`totalLength, this`cleaningLaneCount, this`transferSegmentCount
    {
      && cleaningLaneCount == |Cleaned(segments)| && transferSegmentCount == Transfers(segments)
      && totalLength == Length(context.dist, segments)
      && Numbered(segments) && Connected(context.dist, segments)
    }

    /** The vehicle is within `tolerance` of `p`. */
    ghost predicate Near(p: Point, tolerance: real)
      reads this`segments
    {
      segments != [] && context.dist(segments[|segments| - 1].end, p) <= tolerance
    }

    /** Between lanes the vehicle is exactly where the last lane ended. */
    ghost predicate AtLaneEnd()
      reads this
    {
      (segments == [] <==> previousEnd.None?) && (previousEnd.Some? ==> Near(previousEnd.value, 0.0))
    }

    method Append(s: Segment)
      requires Valid() && s.index == |segments| && Metric(context.dist)
      requires segments != [] ==> Near(s.start, 3.0 * POINT_EPSILON)
      modifies this`segments, this`totalLength, this`cleaningLaneCount, this`transferSegmentCount
      ensures Valid() && segments == old(segments) + [s] && Near(s.end, 0.0)
      ensures Cleaned(segments) == if s.cleaning then old(Cleaned(segments)) + [s] else old(Cleaned(segments))
    {
      Appended(context.dist, segments, s);
      StaysThere(context.dist, s.end);
      totalLength := totalLength + context.dist(s.start, s.end);
      segments := segments + [s];
      if s.cleaning {
        cleaningLaneCount := cleaningLaneCount + 1;
      } else {
        transferSegmentCount := transferSegmentCount + 1;
      }
    }

    /** Drive from `from` to `end`, unless that is where the vehicle already is. */
    method AppendTransfer(groupId: Id, areaId: Id, from: Point, end: Point, ghost tolerance: real)
      requires Valid() && Metric(context.dist) && Near(from, tolerance) && 0.0 <= tolerance <= 2.0 * POINT_EPSILON
      modifies this`segments, this`totalLength, this`cleaningLaneCount, this`transferSegmentCount
      ensures Valid() && Near(end, tolerance + POINT_EPSILON) && Cleaned(segments) == old(Cleaned(segments))
      ensures segments == old(segments) + Hop(context, |old(segments)|, groupId, areaId, from, end)
    {
      if Same(context.dist, from, end) {
        assert NoDetour(context.dist, segments[|segments| - 1].end, from, end);
        return;
      }
      Append(Segment(|segments|, false, groupId, areaId, "", from, end));
    }

    /** Where the last lane ended, if one has been driven. */
    function LastStop(): Option<Stop>
      reads this`previousEnd, this`previousGroupId, this`previousAreaId
    {
      if previousEnd.None? then None else Some(Stop(previousGroupId, previousAreaId, previousEnd.value))
    }

    /** To the connector, along it, and on to the start of the lane. */
    method DriveConnector(group: Group, areaId: Id, start: Point, end: Point, laneStart: Point)
      requires Valid() && Metric(context.dist) && previousEnd.Some? && Near(previousEnd.value, 0.0)
      modifies this`segments, this`totalLength, this`cleaningLaneCount, this`transferSegmentCount, this`previousEnd
      ensures Valid() && Near(laneStart, 3.0 * POINT_EPSILON) && Cleaned(segments) == old(Cleaned(segments))
      ensures segments == old(segments)
                          + ConnectorRoute(context, |old(segments)|, old(LastStop()).value, group, areaId, start, end, laneStart)
    {
      ghost var before := segments;
      AppendTransfer(group.id, previousAreaId, previousEnd.value, start, 0.0);
      ghost var there := segments[|before|..];
      AppendTransfer(group.id, previousAreaId, start, end, POINT_EPSILON);
      ghost var along := segments[|before + there|..];
      previousEnd := Some(end);
      AppendTransfer(group.id, areaId, end, laneStart, 2.0 * POINT_EPSILON);
      Joined(before, there, along, segments[|before + there + along|..]);
    }

    /** May the plan go on from the previous area to this one? */
    ghost predicate MayEnter(group: Group, area: SubArea)
      reads this
    {
      previousEnd.Some? && previousAreaId != area.id ==>
        previousGroupId == group.id && Connects(group, previousAreaId, area.id)
    }

    method CrossConnector(group: Group, area: SubArea, laneStart: Point) returns (error: Option<Error>)
      requires Valid() && Metric(context.dist) && previousEnd.Some? && AtLaneEnd() && previousAreaId != area.id
      modifies this`segments, this`totalLength, this`cleaningLaneCount, this`transferSegmentCount, this`previousEnd
      ensures error.None? <==> old(MayEnter(group, area))
      ensures error.None? ==>
                && Valid() && Near(laneStart, 3.0 * POINT_EPSILON) && Cleaned(segments) == old(Cleaned(segments))
                && segments == old(segments) + LeadIn(context, |old(segments)|, old(LastStop()), group, area.id, laneStart)
      ensures error.Some? ==> FromAssembly(error.value)
      ensures error == Some(GroupConnectorMissing) <==> previousGroupId != group.id
    {
      if previousGroupId != group.id {
        return Some(GroupConnectorMissing);
      }
      var connector := FindConnector(group.connectors, previousAreaId, area.id);
      if connector.None? || !connector.value.confirmed {
        return Some(SubAreaConnectorMissing);
      }
      var start := FindPoint(group.points, connector.value.startPointId);
      var end := FindPoint(group.points, connector.value.endPointId);
      if start.None? || end.None? {
        return Some(ConnectorPointMissing);
      }
      DriveConnector(group, area.id, start.value, end.value, laneStart);
      return None;
    }

    /** Up to the start of a lane, however that is done. */
    method Approach(group: Group, area: SubArea, laneStart: Point) returns (error: Option<Error>)
      requires Valid() && Metric(context.dist) && AtLaneEnd()
      modifies this`segments, this`totalLength, this`cleaningLaneCount, this`transferSegmentCount, this`previousEnd
      ensures error.None? <==> old(MayEnter(group, area))
      ensures error.None? ==>
                && Valid() && (segments != [] ==> Near(laneStart, 3.0 * POINT_EPSILON)) && Cleaned(segments) == old(Cleaned(segments))
                && segments == old(segments) + LeadIn(context, |old(segments)|, old(LastStop()), group, area.id, laneStart)
      ensures error.Some? ==> FromAssembly(error.value)
      ensures error == Some(GroupConnectorMissing) <==>
                old(previousEnd).Some? && previousAreaId != area.id && previousGroupId != group.id
    {
      error := None;
      if previousEnd.None? {
        return;
      }
      if previousAreaId == area.id {
        AppendTransfer(group.id, area.id, previousEnd.value, laneStart, 0.0);
        return;
      }
      error := CrossConnector(group, area, laneStart);
    }

    /** One lane, driven forwards or backwards. */
    method AppendLane(group: Group, area: SubArea, lane: Lane, reversed: bool) returns (error: Option<Error>)
      requires Valid() && Metric(context.dist) && AtLaneEnd()
      modifies this
      ensures error.None? <==> old(MayEnter(group, area))
      ensures error.None? ==>
                var d := LaneContent(group, area, lane, reversed);
                && Valid() && AtLaneEnd() && LastStop() == Some(Stop(group.id, area.id, d.4))
                && Contents(Cleaned(segments)) == old(Contents(Cleaned(segments))) + [d]
                && segments == old(segments) + LaneRoute(context, |old(segments)|, old(LastStop()), group, d)
      ensures error.Some? ==> FromAssembly(error.value)
      ensures error == Some(GroupConnectorMissing) <==>
                old(previousEnd).Some? && old(previousAreaId) != area.id && old(previousGroupId) != group.id
    {
      var laneStart, laneEnd := lane.start, lane.end;
      if reversed {
        laneStart, laneEnd := laneEnd, laneStart;
      }
      error := DriveLane(group, area, lane.id, laneStart, laneEnd);
    }

    method DriveLane(group: Group, area: SubArea, laneId: Id, laneStart: Point, laneEnd: Point)
      returns (error: Option<Error>)
      requires Valid() && Metric(context.dist) && AtLaneEnd()
      modifies this
      ensures error.None? <==> old(MayEnter(group, area))
      ensures error.None? ==>
                var d := (group.id, area.id, laneId, laneStart, laneEnd);
                && Valid() && AtLaneEnd() && LastStop() == Some(Stop(group.id, area.id, laneEnd))
                && Contents(Cleaned(segments)) == old(Contents(Cleaned(segments))) + [d]
                && segments == old(segments) + LaneRoute(context, |old(segments)|, old(LastStop()), group, d)
      ensures error.Some? ==> FromAssembly(error.value)
      ensures error == Some(GroupConnectorMissing) <==>
                old(previousEnd).Some? && old(previousAreaId) != area.id && old(previousGroupId) != group.id
    {
      error := Approach(group, area, laneStart);
      if error.Some? {
        return;
      }
      AppendCleaning(group.id, area.id, laneId, laneStart, laneEnd);
    }

    method AppendCleaning(groupId: Id, areaId: Id, laneId: Id, laneStart: Point, laneEnd: Point)
      requires Valid() && Metric(context.dist) && (segments != [] ==> Near(laneStart, 3.0 * POINT_EPSILON))
      modifies this
      ensures Valid() && AtLaneEnd() && LastStop() == Some(Stop(groupId, areaId, laneEnd))
      ensures segments == old(segments) + [Segment(|old(segments)|, true, groupId, areaId, laneId, laneStart, laneEnd)]
      ensures Contents(Cleaned(segments))
              == old(Contents(Cleaned(segments))) + [(groupId, areaId, laneId, laneStart, laneEnd)]
    {
      var cleaning := Segment(|segments|, true, groupId, areaId, laneId, laneStart, laneEnd);
      ghost var before := Cleaned(segments);
      Append(cleaning);
      ContentsAppend(before, cleaning);
      previousEnd, previousGroupId, previousAreaId := Some(laneEnd), groupId, areaId;
    }

    /** All lanes of an area. */
    method AppendVisit(v: Visit) returns (error: Option<Error>)
      requires Valid() && Metric(context.dist) && AtLaneEnd() && v.lanes != []
      modifies this
      ensures error.None? <==> old(MayEnter(v.group, v.area))
      ensures error.None? ==>
                && Valid() && AtLaneEnd() && LastStop() == StopIn(v, |v.lanes|, old(LastStop()))
                && Contents(Cleaned(segments)) == old(Contents(Cleaned(segments))) + DrivenUpTo(v, |v.lanes|)
                && segments == VisitRoute(context, old(segments), old(LastStop()), v, |v.lanes|)
      ensures error.Some? ==> FromAssembly(error.value)
      ensures error == Some(GroupConnectorMissing) <==>
                old(previousEnd).Some? && old(previousAreaId) != v.area.id && old(previousGroupId) != v.group.id
    {
      ghost var before, stop, contents := segments, LastStop(), Contents(Cleaned(segments));
      error := None;
      var laneIndex := 0;
      while laneIndex < |v.lanes|
        invariant laneIndex <= |v.lanes| && error.None? && Valid() && AtLaneEnd()
        invariant laneIndex == 0 ==> MayEnter(v.group, v.area) == old(MayEnter(v.group, v.area)) && previousEnd == old(previousEnd)
        invariant laneIndex == 0 ==> previousAreaId == old(previousAreaId) && previousGroupId == old(previousGroupId)
        invariant laneIndex > 0 ==> old(MayEnter(v.group, v.area)) && previousAreaId == v.area.id
        invariant DrivenSoFar(v, laneIndex, before, stop, contents)
      {
        error := AppendLaneOf(v, laneIndex, before, stop, contents);
        if error.Some? {
          return;
        }
        laneIndex := laneIndex + 1;
      }
    }

    /** `k` lanes of `v` were driven since the plan was `before`. */
    ghost predicate DrivenSoFar(v: Visit, k: nat, before: seq<Segment>, stop: Option<Stop>, contents: seq<Driving>)
      requires k <= |v.lanes|
      reads this
    {
      && segments == VisitRoute(context, before, stop, v, k) && LastStop() == StopIn(v, k, stop)
      && Contents(Cleaned(segments)) == contents + DrivenUpTo(v, k)
    }

    method AppendLaneOf(
        v: Visit, k: nat, ghost before: seq<Segment>, ghost stop: Option<Stop>, ghost contents: seq<Driving>)
      returns (error: Option<Error>)
      requires Valid() && Metric(context.dist) && AtLaneEnd() && k < |v.lanes|
      requires DrivenSoFar(v, k, before, stop, contents)
      modifies this
      ensures error.None? <==> old(MayEnter(v.group, v.area))
      ensures error.None? ==>
                Valid() && AtLaneEnd() && DrivenSoFar(v, k + 1, before, stop, contents) && previousAreaId == v.area.id
      ensures error.Some? ==> FromAssembly(error.value)
      ensures error == Some(GroupConnectorMissing) <==>
                old(previousEnd).Some? && old(previousAreaId) != v.area.id && old(previousGroupId) != v.group.id
    {
      error := AppendLane(v.group, v.area, v.lanes[k], k % 2 != 0);
      GrowsByOne(contents, DrivenUpTo(v, k), Driven(v, k));
    }

    /** The plan so far is the route of the visits done. */
    ghost predicate Standing(done: seq<Visit>)
      reads this
    {
      && Valid() && AtLaneEnd() && segments == Route(context, done) && LastStop() == StopAfter(done)
      && Contents(Cleaned(segments)) == AllDriven(done)
      && forall v :: v in done ==> v.lanes != [] && |v.lanes| % 2 == 0
    }

    method AppendGroup(group: Group, ghost done: seq<Visit>) returns (error: Option<Error>, ghost visits: seq<Visit>)
      requires Metric(context.dist) && Covering(context.lanes) && Standing(done)
      modifies this
      ensures error.None? ==>
                && GroupVisited(context, group, visits) && visits != []
                && Entered(LastVisit(done), visits) && Standing(done + visits)
      ensures error.Some? ==> FromAssembly(error.value)
      ensures error.Some? ==> forall w :: GroupVisited(context, group, w) ==> !Entered(LastVisit(done), w)
    {
      visits := [];
      if group.subAreas == [] {
        return Some(SubAreaMissing), visits;
      }
      var chain := Chain.ResolveSubAreaChain(group);
      if chain.Err? {
        return Some(ChainError(chain.error)), visits;
      }
      error, visits := AppendAreas(group, chain.order, done);
      if error.None? {
        assert VisitedInOrder(context, group, chain.order, visits);
      } else {
        forall w | GroupVisited(context, group, w) ensures !Entered(LastVisit(done), w) {
          VisitedInThisOrder(context, group, chain.order, w);
        }
      }
    }

    method AppendAreas(group: Group, order: seq<nat>, ghost done: seq<Visit>)
      returns (error: Option<Error>, ghost visits: seq<Visit>)
      requires forall k :: 0 <= k < |order| ==> order[k] < |group.subAreas|
      requires Metric(context.dist) && Covering(context.lanes) && Standing(done)
      modifies this
      ensures error.None? ==>
                && AreVisits(context, group, order, visits, |order|)
                && Entered(LastVisit(done), visits) && Standing(done + visits)
      ensures error.Some? ==> FromAssembly(error.value)
      ensures error.Some? ==> forall w :: AreVisits(context, group, order, w, |order|) ==> !Entered(LastVisit(done), w)
    {
      visits := [];
      assert done + visits == done;
      error := None;
      var i := 0;
      while i < |order|
        invariant i <= |order| && error.None? && AreVisits(context, group, order, visits, i)
        invariant Entered(LastVisit(done), visits) && Standing(done + visits)
      {
        error, visits := AppendNextArea(group, order, i, done, visits);
        if error.Some? {
          return;
        }
        i := i + 1;
      }
    }

    method AppendNextArea(group: Group, order: seq<nat>, i: nat, ghost done: seq<Visit>, ghost before: seq<Visit>)
      returns (error: Option<Error>, ghost visits: seq<Visit>)
      requires i == |before| < |order| && order[i] < |group.subAreas|
      requires AreVisits(context, group, order, before, i) && Entered(LastVisit(done), before)
      requires Metric(context.dist) && Covering(context.lanes) && Standing(done + before)
      modifies this
      ensures error.None? ==>
                && AreVisits(context, group, order, visits, i + 1)
                && Entered(LastVisit(done), visits) && Standing(done + visits)
      ensures error.Some? ==> FromAssembly(error.value)
      ensures error.Some? ==> forall w :: AreVisits(context, group, order, w, |order|) ==> !Entered(LastVisit(done), w)
    {
      ghost var v;
      error, v := AppendArea(group, order, i, done + before);
      visits := before + [v];
      if error.Some? {
        NoWayFromHere(context, group, order, done, before);
      } else {
        OneMoreVisit(context, group, order, done, before, v);
      }
    }

    method AppendArea(group: Group, order: seq<nat>, i: nat, ghost done: seq<Visit>)
      returns (error: Option<Error>, ghost v: Visit)
      requires i < |order| && order[i] < |group.subAreas|
      requires Metric(context.dist) && Covering(context.lanes) && Standing(done)
      modifies this
      ensures error.None? ==>
                IsVisit(context, group, order, i, v) && Entered(LastVisit(done), [v]) && Standing(done + [v])
      ensures error.Some? ==> FromAssembly(error.value)
      ensures error.Some? ==> forall w :: IsVisit(context, group, order, i, w) ==> !Entered(LastVisit(done), [w])
    {
      var area := group.subAreas[order[i]];
      v := Visit(group, area, []);
      if !area.confirmed {
        return Some(SubAreaNotConfirmed), v;
      }
      var lanes := context.lanes(group, area);
      if lanes.None? {
        return Some(CoverageError), v;
      }
      var next := Visit(group, area, lanes.value);
      v := next;
      assert MayEnter(group, area) <==> Entered(LastVisit(done), [v]);
      error := AppendVisit(next);
      if error.None? {
        RouteGrows(context, done, v);
      }
    }
  }

  lemma EntersNext(done: seq<Visit>, visits: seq<Visit>, v: Visit)
    requires Entered(LastVisit(done), visits) && Entered(LastVisit(done + visits), [v])
    ensures Entered(LastVisit(done), visits + [v])
  {
    if visits == [] {
      assert done + visits == done;
    } else {
      assert (done + visits)[|done + visits| - 1] == visits[|visits| - 1];
    }
  }

  /** Any other way through the areas begins like this one, so where this one ends there is none. */
  lemma NoWayOn(context: Context, group: Group, order: seq<nat>, done: seq<Visit>, visits: seq<Visit>, w: seq<Visit>)
    requires |visits| < |order| && AreVisits(context, group, order, visits, |visits|)
    requires AreVisits(context, group, order, w, |order|)
    requires !Entered(LastVisit(done + visits), [w[|visits|]])
    ensures !Entered(LastVisit(done), w)
  {
    var i := |visits|;
    if i == 0 {
      assert done + visits == done;
    } else {
      assert IsVisit(context, group, order, i - 1, visits[i - 1]) && IsVisit(context, group, order, i - 1, w[i - 1]);
      assert (done + visits)[|done + visits| - 1] == w[i - 1];
    }
  }

  lemma NoWayFromHere(context: Context, group: Group, order: seq<nat>, done: seq<Visit>, visits: seq<Visit>)
    requires |visits| < |order| && AreVisits(context, group, order, visits, |visits|)
    requires forall v :: IsVisit(context, group, order, |visits|, v) ==> !Entered(LastVisit(done + visits), [v])
    ensures forall w :: AreVisits(context, group, order, w, |order|) ==> !Entered(LastVisit(done), w)
  {
    forall w | AreVisits(context, group, order, w, |order|) ensures !Entered(LastVisit(done), w) {
      assert IsVisit(context, group, order, |visits|, w[|visits|]);
      NoWayOn(context, group, order, done, visits, w);
    }
  }

  lemma OneMoreVisit(
      context: Context, group: Group, order: seq<nat>, done: seq<Visit>, visits: seq<Visit>, v: Visit)
    requires AreVisits(context, group, order, visits, |visits|) && IsVisit(context, group, order, |visits|, v)
    requires Entered(LastVisit(done), visits) && Entered(LastVisit(done + visits), [v])
    ensures AreVisits(context, group, order, visits + [v], |visits| + 1)
    ensures Entered(LastVisit(done), visits + [v]) && done + visits + [v] == done + (visits + [v])
  {
    EntersNext(done, visits, v);
  }

  lemma RouteGrows(context: Context, done: seq<Visit>, v: Visit)
    ensures Route(context, done + [v]) == VisitRoute(context, Route(context, done), StopAfter(done), v, |v.lanes|)
    ensures StopAfter(done + [v]) == StopIn(v, |v.lanes|, StopAfter(done))
    ensures AllDriven(done + [v]) == AllDriven(done) + DrivenUpTo(v, |v.lanes|)
  {
    assert (done + [v])[..|done|] == done;
  }

  /** A group's chain, and with it the visits to it, are determined by the group. */
  lemma VisitedInThisOrder(context: Context, group: Group, order: seq<nat>, w: seq<Visit>)
    requires Chain.Answers(group, Chain.Ok(order)) && GroupVisited(context, group, w)
    ensures AreVisits(context, group, order, w, |order|)
  {
    var order' :| VisitedInOrder(context, group, order', w);
    if |group.subAreas| == 1 {
      assert order' == order;
    } else {
      Chain.ChainIsUnique(group, order, order');
    }
  }

  lemma ContentsAppend(segments: seq<Segment>, s: Segment)
    ensures Contents(segments + [s]) == Contents(segments) + [Content(s)]
  {
  }

  function LaneContent(group: Group, area: SubArea, lane: Lane, reversed: bool): Driving {
    if reversed then (group.id, area.id, lane.id, lane.end, lane.start)
    else (group.id, area.id, lane.id, lane.start, lane.end)
  }

  lemma GrowsByOne(before: seq<Driving>, driven: seq<Driving>, d: Driving)
    ensures before + driven + [d] == before + (driven + [d])
  {
  }

  // ---------------------------------------------------------------------------------------------
  // The whole plan
  // ---------------------------------------------------------------------------------------------

  datatype Model = Model(id: Id, groups: seq<Group>, confirmed: bool, originValid: bool)

  datatype Plan = Plan(segments: seq<Segment>, cleaningLaneCount: nat, transferSegmentCount: nat, totalLength: real)

  datatype Result = Planned(plan: Plan) | Failed(error: Error)

  function Flat(visited: seq<seq<Visit>>): seq<Visit> {
    if visited == [] then [] else var last := |visited| - 1; Flat(visited[..last]) + visited[last]
  }

  /** Group `i` of a tour is visited, and entered from what was visited before it. */
  ghost predicate TouredAt(context: Context, group: Group, visited: seq<seq<Visit>>, i: nat)
    requires i < |visited|
  {
    visited[i] != [] && GroupVisited(context, group, visited[i]) && Entered(LastVisit(Flat(visited[..i])), visited[i])
  }

  /** Every group was visited completely and in chain order, each one entered from the one before. */
  ghost predicate Toured(context: Context, groups: seq<Group>, visited: seq<seq<Visit>>) {
    |visited| == |groups| && forall i :: 0 <= i < |groups| ==> TouredAt(context, groups[i], visited, i)
  }

  /** What a successful plan is. */
  ghost predicate IsPlanOf(context: Context, model: Model, plan: Plan) {
    && (exists visited ::
          && Toured(context, model.groups, visited)
          && plan.segments == Route(context, Flat(visited))
          && Contents(Cleaned(plan.segments)) == AllDriven(Flat(visited)))
    && Numbered(plan.segments) && Connected(context.dist, plan.segments)
    && plan.cleaningLaneCount == |Cleaned(plan.segments)| && plan.cleaningLaneCount > 0
    && plan.cleaningLaneCount % 2 == 0
    && plan.transferSegmentCount == Transfers(plan.segments)
    && plan.totalLength == Length(context.dist, plan.segments)
  }

  lemma LongerTourAt(
      context: Context, group: Group, visited: seq<seq<Visit>>, visits: seq<Visit>, k: nat)
    requires k < |visited| && TouredAt(context, group, visited, k)
    ensures TouredAt(context, group, visited + [visits], k)
  {
    assert (visited + [visits])[..k] == visited[..k];
  }

  lemma FlatGrows(visited: seq<seq<Visit>>, visits: seq<Visit>)
    ensures Flat(visited + [visits]) == Flat(visited) + visits
  {
    assert (visited + [visits])[..|visited|] == visited;
  }

  lemma TourGoesOn(context: Context, groups: seq<Group>, i: nat, visited: seq<seq<Visit>>, visits: seq<Visit>)
    requires i < |groups| && Toured(context, groups[..i], visited)
    requires visits != [] && GroupVisited(context, groups[i], visits) && Entered(LastVisit(Flat(visited)), visits)
    ensures Toured(context, groups[..i + 1], visited + [visits])
    ensures Flat(visited + [visits]) == Flat(visited) + visits
  {
    var longer, more := visited + [visits], groups[..i + 1];
    FlatGrows(visited, visits);
    assert longer[..i] == visited;
    forall k | 0 <= k < i + 1 ensures TouredAt(context, more[k], longer, k) {
      if k < i {
        assert groups[..i][k] == more[k];
        LongerTourAt(context, more[k], visited, visits, k);
      }
    }
  }

  lemma VisitsAreUnique(context: Context, group: Group, a: seq<Visit>, b: seq<Visit>)
    requires GroupVisited(context, group, a) && GroupVisited(context, group, b)
    ensures a == b
  {
    var order :| VisitedInOrder(context, group, order, a);
    VisitedInThisOrder(context, group, order, b);
    forall k | 0 <= k < |order| ensures a[k] == b[k] {
      assert IsVisit(context, group, order, k, a[k]) && IsVisit(context, group, order, k, b[k]);
    }
  }

  /** Every tour begins like this one, so where this one ends there is none. */
  lemma NoTour(context: Context, groups: seq<Group>, i: nat, visited: seq<seq<Visit>>, tour: seq<seq<Visit>>)
    requires i < |groups| && Toured(context, groups[..i], visited) && |tour| == |groups|
    requires forall w :: GroupVisited(context, groups[i], w) ==> !Entered(LastVisit(Flat(visited)), w)
    ensures !Toured(context, groups, tour)
  {
    if forall k :: 0 <= k < i ==> GroupVisited(context, groups[k], tour[k]) {
      assert tour[..i] == visited by {
        forall k | 0 <= k < i ensures tour[k] == visited[k] {
          assert TouredAt(context, groups[..i][k], visited, k);
          VisitsAreUnique(context, groups[k], tour[k], visited[k]);
        }
      }
      assert !TouredAt(context, groups[i], tour, i);
    } else {
      var k :| 0 <= k < i && !GroupVisited(context, groups[k], tour[k]);
      assert !TouredAt(context, groups[k], tour, k);
    }
  }

  lemma {:induction false} EvenDriven(visits: seq<Visit>)
    requires forall v :: v in visits ==> v.lanes != [] && |v.lanes| % 2 == 0
    ensures |AllDriven(visits)| % 2 == 0 && (visits != [] ==> |AllDriven(visits)| > 0)
  {
    if visits != [] {
      var last := |visits| - 1;
      var v := visits[last];
      EvenDriven(visits[..last]);
      DrivenLength(v, |v.lanes|);
      assert |AllDriven(visits)| == |AllDriven(visits[..last])| + |v.lanes| && v in visits;
    }
  }

  lemma {:induction false} DrivenLength(v: Visit, k: nat)
    requires k <= |v.lanes|
    ensures |DrivenUpTo(v, k)| == k
  {
    if k > 0 {
      DrivenLength(v, k - 1);
    }
  }

  lemma FlatEnds(visited: seq<seq<Visit>>)
    requires visited != [] && visited[|visited| - 1] != []
    ensures Flat(visited) != []
    ensures var last := visited[|visited| - 1]; LastVisit(Flat(visited)) == Some(last[|last| - 1])
  {
    var last := |visited| - 1;
    assert Flat(visited) == Flat(visited[..last]) + visited[last];
  }

  ghost predicate HasTour(context: Context, groups: seq<Group>) { exists visited :: Toured(context, groups, visited) }

  /** Exactly what planning needs: a confirmed, named model with an origin, a speed, and a way through all its groups. */
  ghost predicate Plannable(context: Context, model: Model, speed: int) {
    && model.confirmed && model.id != "" && model.groups != [] && speed > 0 && model.originValid
    && HasTour(context, model.groups)
  }

  /** A plan is returned exactly when there is one, and it is a plan of the model. */
  method BuildTaskPlan(context: Context, model: Model, speed: int) returns (r: Result)
    requires Metric(context.dist) && Covering(context.lanes)
    ensures r.Planned? <==> Plannable(context, model, speed)
    ensures r.Planned? ==> IsPlanOf(context, model, r.plan)
    ensures r == Failed(ModelNotConfirmed) <==> !model.confirmed
    ensures r == Failed(ModelEmpty) <==> model.confirmed && (model.id == "" || model.groups == [])
    ensures r != Failed(EvenCleaningLanesRequired)
  {
    if !model.confirmed {
      return Failed(ModelNotConfirmed);
    }
    if model.id == "" || model.groups == [] {
      return Failed(ModelEmpty);
    }
    if speed <= 0 {
      return Failed(PlanSpeedInvalid);
    }
    if !model.originValid {
      return Failed(OriginMissing);
    }
    var builder := new PlanBuilder(context);
    ghost var visited;
    var error;
    error, visited := AppendGroups(builder, model.groups);
    if error.Some? {
      return Failed(error.value);
    }
    EvenDriven(Flat(visited));
    assert TouredAt(context, model.groups[|visited| - 1], visited, |visited| - 1);
    FlatEnds(visited);
    assert |Contents(Cleaned(builder.segments))| == builder.cleaningLaneCount;
    if builder.cleaningLaneCount == 0 || builder.cleaningLaneCount % 2 != 0 {
      return Failed(EvenCleaningLanesRequired);
    }
    return Planned(Plan(builder.segments, builder.cleaningLaneCount, builder.transferSegmentCount,
                        builder.totalLength));
  }

  method AppendGroups(builder: PlanBuilder, groups: seq<Group>)
    returns (error: Option<Error>, ghost visited: seq<seq<Visit>>)
    requires builder.Standing([])
    requires Metric(builder.context.dist) && Covering(builder.context.lanes)
    modifies builder
    ensures error.None? ==> Toured(builder.context, groups, visited) && builder.Standing(Flat(visited))
    ensures error.Some? ==> !HasTour(builder.context, groups)
    ensures error.Some? ==> FromAssembly(error.value)
  {
    visited := [];
    error := None;
    var i := 0;
    while i < |groups|
      invariant i <= |groups| && error.None?
      invariant Toured(builder.context, groups[..i], visited) && builder.Standing(Flat(visited))
    {
      ghost var visits;
      error, visits := builder.AppendGroup(groups[i], Flat(visited));
      if error.Some? {
        forall tour | |tour| == |groups| ensures !Toured(builder.context, groups, tour) {
          NoTour(builder.context, groups, i, visited, tour);
        }
        return;
      }
      TourGoesOn(builder.context, groups, i, visited, visits);
      visited := visited + [visits];
      i := i + 1;
    }
    assert groups[..i] == groups;
  }

  // ---------------------------------------------------------------------------------------------
  // How many groups a plan can have
  // ---------------------------------------------------------------------------------------------

  /** No connector of a group leads to the area its chain starts with. */
  lemma NothingLeadsToTheFirst(group: Group, order: seq<nat>, from: Id)
    requires Chain.Answers(group, Chain.Ok(order)) && order != []
    ensures order[0] < |group.subAreas|
    ensures FindConnector(group.connectors, from, group.subAreas[order[0]].id).None?
  {
    var n, first := |group.subAreas|, group.subAreas[order[0]].id;
    if n > 1 {
      var edges := Chain.EdgesOf(group);
      Chain.OnlyFirstIsRoot(n, edges, order, order[0]);
      Chain.IndexIsUnique(group.subAreas, order[0]);
      forall c | c in group.connectors ensures c.to != first {
        var i :| 0 <= i < |group.connectors| && group.connectors[i] == c;
        assert edges[i] == Chain.EdgeOf(group.subAreas, c);
      }
    }
  }

  /** Between one group and the next a plan goes on exactly when the adjoining areas bear the same name. */
  lemma GroupsAdjoinExactlyWhen(context: Context, group: Group, visits: seq<Visit>, last: Visit)
    requires GroupVisited(context, group, visits) && visits != []
    ensures Adjoining(last, visits[0]) <==> last.area.id == visits[0].area.id
  {
    var order :| VisitedInOrder(context, group, order, visits);
    assert IsVisit(context, group, order, 0, visits[0]);
    NothingLeadsToTheFirst(group, order, last.area.id);
  }

  /** The last area of one group and the first area of the next, as their chains order them. */
  ghost predicate SharedName(visited: seq<seq<Visit>>, i: nat) {
    && 0 < i < |visited| && visited[i - 1] != [] && visited[i] != []
    && visited[i - 1][|visited[i - 1]| - 1].area.id == visited[i][0].area.id
  }

  lemma TourSharesNames(context: Context, groups: seq<Group>, visited: seq<seq<Visit>>, i: nat)
    requires Toured(context, groups, visited) && 0 < i < |groups|
    ensures SharedName(visited, i)
  {
    var before := visited[i - 1];
    assert TouredAt(context, groups[i - 1], visited, i - 1) && TouredAt(context, groups[i], visited, i);
    FlatEnds(visited[..i]);
    assert Entered(Some(before[|before| - 1]), visited[i]);
    GroupsAdjoinExactlyWhen(context, groups[i], visited[i], before[|before| - 1]);
  }

  /**
   A plan comes from one group, except that groups whose adjoining areas happen to bear the same name are joined
   without any connector: every group after the first must begin with the name the one before ended with.
   */
  lemma PlanHasOneGroupUnlessNamesAreShared(context: Context, model: Model, plan: Plan)
    requires IsPlanOf(context, model, plan)
    ensures exists visited ::
              && Toured(context, model.groups, visited)
              && forall i :: 0 < i < |model.groups| ==> SharedName(visited, i)
  {
    var visited :| Toured(context, model.groups, visited)
                   && Contents(Cleaned(plan.segments)) == AllDriven(Flat(visited));
    forall i | 0 < i < |model.groups| ensures SharedName(visited, i) {
      TourSharesNames(context, model.groups, visited, i);
    }
  }

  ghost predicate NamesDiffer(groups: seq<Group>) {
    forall i, j, a, b ::
      0 <= i < j < |groups| && a in groups[i].subAreas && b in groups[j].subAreas ==> a.id != b.id
  }

  lemma VisitsItsOwnAreas(context: Context, group: Group, visits: seq<Visit>, k: nat)
    requires GroupVisited(context, group, visits) && k < |visits|
    ensures visits[k].area in group.subAreas
  {
    var order :| VisitedInOrder(context, group, order, visits);
    assert IsVisit(context, group, order, k, visits[k]);
  }

  lemma DifferentNamesAreNotShared(context: Context, groups: seq<Group>, visited: seq<seq<Visit>>, i: nat)
    requires Toured(context, groups, visited) && NamesDiffer(groups) && 0 < i < |groups|
    ensures !SharedName(visited, i)
  {
    VisitsItsOwnAreas(context, groups[i - 1], visited[i - 1], |visited[i - 1]| - 1);
    VisitsItsOwnAreas(context, groups[i], visited[i], 0);
  }

  lemma PlanHasGroups(context: Context, model: Model, plan: Plan)
    requires IsPlanOf(context, model, plan)
    ensures model.groups != []
  {
    var visited :| Toured(context, model.groups, visited)
                   && Contents(Cleaned(plan.segments)) == AllDriven(Flat(visited));
    assert visited == [] ==> |AllDriven(Flat(visited))| == 0;
    assert |Contents(Cleaned(plan.segments))| == plan.cleaningLaneCount;
  }

  /** With area names that are unique in the whole model, a plan comes from exactly one group. */
  lemma UniqueNamesMeanOneGroup(context: Context, model: Model, plan: Plan)
    requires IsPlanOf(context, model, plan) && NamesDiffer(model.groups)
    ensures |model.groups| == 1
  {
    PlanHasGroups(context, model, plan);
    PlanHasOneGroupUnlessNamesAreShared(context, model, plan);
    var visited :| Toured(context, model.groups, visited)
                   && forall i :: 0 < i < |model.groups| ==> SharedName(visited, i);
    if |model.groups| > 1 {
      DifferentNamesAreNotShared(context, model.groups, visited, 1);
    }
  }

  /** Two groups, each with one area called "a": the second is entered without a connector. */
  lemma SharedNameJoinsGroups(context: Context, lanes: seq<Lane>)
    requires |lanes| > 0 && forall g, a :: context.lanes(g, a) == Some(lanes)
    ensures var area := SubArea("a", [], true);
            var g1, g2 := Group("g1", [], [area], []), Group("g2", [], [area], []);
            Toured(context, [g1, g2], [[Visit(g1, area, lanes)], [Visit(g2, area, lanes)]])
  {
    var area := SubArea("a", [], true);
    var g1, g2 := Group("g1", [], [area], []), Group("g2", [], [area], []);
    var v1, v2 := Visit(g1, area, lanes), Visit(g2, area, lanes);
    assert VisitedInOrder(context, g1, [0], [v1]) && VisitedInOrder(context, g2, [0], [v2]);
    assert [[v1], [v2]][..1] == [[v1]];
  }

  // ---------------------------------------------------------------------------------------------
  // The way from lane to lane
  // ---------------------------------------------------------------------------------------------

  /** From one point to another. */
  type Leg = (Point, Point)

  function Legs(segments: seq<Segment>): seq<Leg> {
    seq(|segments|, i requires 0 <= i < |segments| => (segments[i].start, segments[i].end))
  }

  /** The legs that lead anywhere. */
  function LongLegs(dist: (Point, Point) -> real, legs: seq<Leg>): seq<Leg> {
    if legs == [] then []
    else if dist(legs[0].0, legs[0].1) <= POINT_EPSILON then LongLegs(dist, legs[1..])
    else [legs[0]] + LongLegs(dist, legs[1..])
  }

  /** A confirmed connector from area `from` to area `to` starts at `p` and ends at `q`. */
  ghost predicate LeadsAlong(group: Group, from: Id, to: Id, p: Point, q: Point) {
    exists c, m, n ::
      && c in group.connectors && c.from == from && c.to == to && c.confirmed
      && m in group.points && m.id == c.startPointId && m.at == p
      && n in group.points && n.id == c.endPointId && n.at == q
  }

  lemma {:induction false} FoundPoint(points: seq<ModelPoint>, id: Id) returns (m: ModelPoint)
    requires FindPoint(points, id).Some?
    ensures m in points && m.id == id && FindPoint(points, id) == Some(m.at)
  {
    if points[0].id == id {
      m := points[0];
    } else {
      m := FoundPoint(points[1..], id);
    }
  }

  lemma FoundConnector(group: Group, from: Id, to: Id) returns (p: Point, q: Point)
    requires Connects(group, from, to)
    ensures LeadsAlong(group, from, to, p, q)
    ensures
      var c := FindConnector(group.connectors, from, to).value;
      FindPoint(group.points, c.startPointId) == Some(p) && FindPoint(group.points, c.endPointId) == Some(q)
  {
    var c := FindConnector(group.connectors, from, to).value;
    var m := FoundPoint(group.points, c.startPointId);
    var n := FoundPoint(group.points, c.endPointId);
    p, q := m.at, n.at;
  }

  lemma HopIsLeg(context: Context, n: nat, groupId: Id, areaId: Id, from: Point, end: Point)
    ensures Legs(Hop(context, n, groupId, areaId, from, end)) == LongLegs(context.dist, [(from, end)])
    ensures forall s :: s in Hop(context, n, groupId, areaId, from, end) ==> !s.cleaning
  {
    assert [(from, end)][1..] == [];
  }

  lemma {:induction false} LongLegsJoin(dist: (Point, Point) -> real, a: seq<Leg>, b: seq<Leg>)
    ensures LongLegs(dist, a + b) == LongLegs(dist, a) + LongLegs(dist, b)
  {
    if a == [] {
      assert a + b == b;
    } else {
      LongLegsJoin(dist, a[1..], b);
      assert (a + b)[1..] == a[1..] + b;
    }
  }

  lemma LegsJoin(a: seq<Segment>, b: seq<Segment>)
    ensures Legs(a + b) == Legs(a) + Legs(b)
  {
  }

  lemma ConnectorLegs(
      context: Context, n: nat, stop: Stop, group: Group, areaId: Id, start: Point, end: Point, laneStart: Point)
    ensures
      var route := ConnectorRoute(context, n, stop, group, areaId, start, end, laneStart);
      && Legs(route) == LongLegs(context.dist, [(stop.at, start), (start, end), (end, laneStart)])
      && forall s :: s in route ==> !s.cleaning
  {
    var there := Hop(context, n, group.id, stop.areaId, stop.at, start);
    var along := Hop(context, n + |there|, group.id, stop.areaId, start, end);
    var on := Hop(context, n + |there| + |along|, group.id, areaId, end, laneStart);
    HopIsLeg(context, n, group.id, stop.areaId, stop.at, start);
    HopIsLeg(context, n + |there|, group.id, stop.areaId, start, end);
    HopIsLeg(context, n + |there| + |along|, group.id, areaId, end, laneStart);
    LegsJoin(there, along);
    LegsJoin(there + along, on);
    LongLegsJoin(context.dist, [(stop.at, start)], [(start, end)]);
    LongLegsJoin(context.dist, [(stop.at, start)] + [(start, end)], [(end, laneStart)]);
    assert [(stop.at, start)] + [(start, end)] + [(end, laneStart)] == [(stop.at, start), (start, end), (end, laneStart)];
  }

  /** After `n` segments come transfers along `way`, and then a lane of `area` that starts at `laneStart`. */
  ghost predicate ApproachedBy(
      context: Context, segments: seq<Segment>, n: nat, way: seq<Leg>, area: Id, laneStart: Point)
  {
    var legs := LongLegs(context.dist, way);
    && n + |legs| < |segments|
    && Legs(segments[n..n + |legs|]) == legs
    && (forall i :: n <= i < n + |legs| ==> !segments[i].cleaning)
    && segments[n + |legs|].cleaning && segments[n + |legs|].areaId == area
    && segments[n + |legs|].start == laneStart
  }

  lemma StillApproached(
      context: Context, segments: seq<Segment>, more: seq<Segment>, n: nat, way: seq<Leg>, area: Id, laneStart: Point)
    requires ApproachedBy(context, segments, n, way, area, laneStart) && segments <= more
    ensures ApproachedBy(context, more, n, way, area, laneStart)
  {
    var legs := LongLegs(context.dist, way);
    assert more[n..n + |legs|] == segments[n..n + |legs|];
  }

  lemma LaneIsApproached(context: Context, before: seq<Segment>, stop: Stop, group: Group, d: Driving, way: seq<Leg>)
    requires
      var lead := LeadIn(context, |before|, Some(stop), group, d.1, d.3);
      Legs(lead) == LongLegs(context.dist, way) && forall s :: s in lead ==> !s.cleaning
    ensures
      ApproachedBy(context, before + LaneRoute(context, |before|, Some(stop), group, d), |before|, way, d.1, d.3)
  {
    var lead := LeadIn(context, |before|, Some(stop), group, d.1, d.3);
    var segments := before + LaneRoute(context, |before|, Some(stop), group, d);
    assert |Legs(lead)| == |lead|;
    assert segments[|before|..|before| + |lead|] == lead;
    assert forall i :: 0 <= i < |lead| ==> segments[|before| + i] == lead[i];
    forall i | |before| <= i < |before| + |lead| ensures !segments[i].cleaning {
      assert segments[i] == lead[i - |before|];
    }
  }

  lemma {:induction false} VisitGoesOn(
      context: Context, before: seq<Segment>, stop: Option<Stop>, v: Visit, j: nat, k: nat)
    requires j <= k <= |v.lanes|
    ensures VisitRoute(context, before, stop, v, j) <= VisitRoute(context, before, stop, v, k)
  {
    if j < k {
      VisitGoesOn(context, before, stop, v, j, k - 1);
    }
  }

  /** Within an area a lane is approached straight from the end of the lane before it. */
  lemma NextLaneIsApproached(context: Context, before: seq<Segment>, stop: Option<Stop>, v: Visit, k: nat)
    requires 0 < k < |v.lanes|
    ensures
      var n := |VisitRoute(context, before, stop, v, k)|;
      ApproachedBy(context, VisitRoute(context, before, stop, v, |v.lanes|), n,
                   [(Driven(v, k - 1).4, Driven(v, k).3)], v.area.id, Driven(v, k).3)
  {
    var s := VisitRoute(context, before, stop, v, k);
    var way := [(Driven(v, k - 1).4, Driven(v, k).3)];
    HopIsLeg(context, |s|, v.group.id, v.area.id, Driven(v, k - 1).4, Driven(v, k).3);
    LaneIsApproached(context, s, StopIn(v, k, stop).value, v.group, Driven(v, k), way);
    VisitGoesOn(context, before, stop, v, k + 1, |v.lanes|);
    StillApproached(context, VisitRoute(context, before, stop, v, k + 1),
                    VisitRoute(context, before, stop, v, |v.lanes|), |s|, way, v.area.id, Driven(v, k).3);
  }

  /**
   From one area to the next the plan leads from the end of the last lane to the start point of a confirmed connector
   between them, along it to its end point, and on to the first lane; legs that lead nowhere are left out.
   */
  lemma NextAreaIsApproached(context: Context, visits: seq<Visit>, w: Visit) returns (p: Point, q: Point)
    requires visits != [] && w.lanes != []
    requires
      var v := visits[|visits| - 1];
      v.lanes != [] && v.area.id != w.area.id && Adjoining(v, w)
    ensures
      var v := visits[|visits| - 1];
      var end, start := Driven(v, |v.lanes| - 1).4, Driven(w, 0).3;
      && LeadsAlong(w.group, v.area.id, w.area.id, p, q)
      && Route(context, visits) <= Route(context, visits + [w])
      && ApproachedBy(context, Route(context, visits + [w]), |Route(context, visits)|,
                      [(end, p), (p, q), (q, start)], w.area.id, start)
  {
    var v, before := visits[|visits| - 1], Route(context, visits);
    assert (visits + [w])[..|visits|] == visits;
    var stop := StopAfter(visits).value;
    p, q := FoundConnector(w.group, v.area.id, w.area.id);
    var start := Driven(w, 0).3;
    var way := [(stop.at, p), (p, q), (q, start)];
    ConnectorLegs(context, |before|, stop, w.group, w.area.id, p, q, start);
    LaneIsApproached(context, before, stop, w.group, Driven(w, 0), way);
    assert VisitRoute(context, before, Some(stop), w, 0) == before;
    VisitGoesOn(context, before, Some(stop), w, 1, |w.lanes|);
    StillApproached(context, VisitRoute(context, before, Some(stop), w, 1), Route(context, visits + [w]), |before|, way,
                    w.area.id, start);
  }
}
