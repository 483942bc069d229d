/**
 Task plans over the coverage planner: the lanes of an area are the planner's, so what a plan needs to know about
 them is what the planner promises.
 */
module PlannedLanes {
  import opened Wrappers
  import opened CleaningModel
  import Cover = Coverage
  import Names = RegionRecognizer
  import Tasks = TaskPlan

  /** What the planner is given for an area. */
  datatype Area = Area(geometry: Cover.Geometry, polygon: seq<Point>)

  /** The planner's lanes as a plan names them. */
  function AsLanes(lanes: seq<Cover.Lane>): (r: seq<Tasks.Lane>)
    ensures |r| == |lanes|
  {
    seq(|lanes|, i requires 0 <= i < |lanes| =>
      Tasks.Lane("lane-" + Names.Decimal(lanes[i].number), lanes[i].start, lanes[i].end))
  }

  /** `lanes` are those of the planner's answer, none where it fails. */
  ghost predicate Planned(area: Area, brush: real, overlap: real, lanes: Option<seq<Tasks.Lane>>) {
    exists r :: Cover.Answers(area.geometry, area.polygon, brush, overlap, r) && lanes == LanesIn(r)
  }

  function LanesIn(r: Cover.Result): Option<seq<Tasks.Lane>> {
    if r.Covered? then Some(AsLanes(r.lanes)) else None
  }

  /** Every area is covered by the planner, all with one brush and one minimum overlap. */
  ghost predicate FromPlanner(
      lanes: (Group, SubArea) -> Option<seq<Tasks.Lane>>, areas: (Group, SubArea) -> Area, brush: real, overlap: real) {
    forall group, area :: Planned(areas(group, area), brush, overlap, lanes(group, area))
  }

  lemma PlannedLanesCover(area: Area, brush: real, overlap: real, lanes: Option<seq<Tasks.Lane>>)
    requires Planned(area, brush, overlap, lanes) && lanes.Some?
    ensures |lanes.value| > 0 && |lanes.value| % 2 == 0
  {
    var r :| Cover.Answers(area.geometry, area.polygon, brush, overlap, r) && lanes == LanesIn(r);
    assert Cover.Usable(area.geometry, r.lanes);
  }

  /** The planner never returns an odd number of lanes, nor none: plans can rely on it. */
  lemma PlannerCovers(
      lanes: (Group, SubArea) -> Option<seq<Tasks.Lane>>, areas: (Group, SubArea) -> Area, brush: real, overlap: real)
    requires FromPlanner(lanes, areas, brush, overlap)
    ensures Tasks.Covering(lanes)
  {
    forall group, area | lanes(group, area).Some?
      ensures |lanes(group, area).value| > 0 && |lanes(group, area).value| % 2 == 0
    {
      PlannedLanesCover(areas(group, area), brush, overlap, lanes(group, area));
    }
  }

  /** Over the planner's lanes a plan is returned exactly when there is one, and its lane count is even. */
  method BuildPlanOverCoverage(
      context: Tasks.Context, areas: (Group, SubArea) -> Area, brush: real, overlap: real, model: Tasks.Model, speed: int)
    returns (r: Tasks.Result)
    requires Tasks.Metric(context.dist) && FromPlanner(context.lanes, areas, brush, overlap)
    ensures r.Planned? <==> Tasks.Plannable(context, model, speed)
    ensures r.Planned? ==> Tasks.IsPlanOf(context, model, r.plan) && r.plan.cleaningLaneCount % 2 == 0
    ensures r != Tasks.Failed(Tasks.EvenCleaningLanesRequired)
  {
    PlannerCovers(context.lanes, areas, brush, overlap);
    r := Tasks.BuildTaskPlan(context, model, speed);
  }
}
