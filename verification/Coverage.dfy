/**
 The lane-spacing arithmetic of the coverage planner: how many sweep lines, how far apart, from where.
 Polygon validity, crossing points and point distances are parameters.
 */
module Coverage {
  import opened Wrappers
  import opened CleaningModel

  const EPSILON: real := 0.0000001
  const SAME_POINT: real := 0.00001
  const MAXIMUM_PARITY_EXPANSION: nat := 20

  datatype Lane = Lane(number: nat, start: Point, end: Point, offset: real, length: real)

  /** The geometry of one polygon swept along one axis. */
  datatype Geometry = Geometry(
    simple: bool, normal: Point, dist: (Point, Point) -> real, crossings: real -> seq<Point>)

  datatype Error =
    | PolygonInvalid | LaneSpacingInvalid | PolygonWidthInvalid | DistinctLanesUnavailable | EvenLaneLayoutUnavailable

  datatype Result = Failed(error: Error) | Covered(natural: nat, spacing: real, overlap: real, lanes: seq<Lane>)

  /** The lines a sweep starts from: `natural` many, the first at `first`, the last `span` further on. */
  datatype Sweep = Sweep(natural: nat, first: real, span: real)

  // ---------------------------------------------------------------------------------------------
  // Lines
  // ---------------------------------------------------------------------------------------------

  function Ceiling(x: real): (n: int)
    ensures n as real - 1.0 < x <= n as real
  {
    -((-x).Floor)
  }

  function LineAt(first: real, spacing: real, line: nat): real { first + spacing * line as real }

  function Spacing(span: real, lines: nat): real
    requires lines >= 2
  {
    span / (lines - 1) as real
  }

  /** Parameters that leave a positive spacing. */
  predicate SpacingPossible(brush: real, overlap: real) { 0.0 < brush && 0.0 <= overlap < brush }

  function PlanSweep(low: real, high: real, brush: real, overlap: real): (s: Option<Sweep>)
    requires SpacingPossible(brush, overlap) && low < high
  {
    var width, widest := high - low, brush - overlap;
    if width <= brush then
      var span := if width * 0.5 < widest then width * 0.5 else widest;
      if span <= EPSILON then None else Some(Sweep(1, (low + high) * 0.5 - span * 0.5, span))
    else
      var span := width - brush;
      assert 0.0 <= span / widest;
      Some(Sweep(Max(Ceiling(span / widest) + 1, 2), low + brush * 0.5, span))
  }

  /** The smallest even number of lines that is at least two and at least `natural`. */
  function FirstLineCount(natural: nat): (n: nat)
    ensures n >= 2 && n % 2 == 0 && natural <= n
    ensures forall m :: m >= 2 && m % 2 == 0 && natural <= m ==> n <= m
  {
    var n := Max(natural, 2);
    if n % 2 != 0 then n + 1 else n
  }

  lemma SpanOfSpacing(span: real, lines: nat)
    requires lines >= 2
    ensures Spacing(span, lines) * (lines - 1) as real == span
  {
  }

  lemma Quotients(span: real, widest: real, gaps: nat)
    requires widest > 0.0 && gaps >= 1
    ensures span / gaps as real <= widest <==> span / widest <= gaps as real
  {
    var g := gaps as real;
    assert (span / g) * g == span;
    assert (span / widest) * widest == span;
    if span / g <= widest {
      Scale(span / g, widest, g);
      Cancel(span / widest, g, widest);
    }
    if span / widest <= g {
      Scale(span / widest, g, widest);
      Cancel(span / g, widest, g);
    }
  }

  lemma Scale(a: real, b: real, c: real)
    requires a <= b && c >= 0.0
    ensures a * c <= b * c
  {
  }

  lemma Cancel(a: real, b: real, c: real)
    requires a * c <= b * c && c > 0.0
    ensures a <= b
  {
    if a > b {
      ScaleStrictly(b, a, c);
    }
  }

  lemma ScaleStrictly(a: real, b: real, c: real)
    requires a < b && c > 0.0
    ensures a * c < b * c
  {
  }

  /** In a wide area the natural count is the least number of lines that keeps the spacing within the widest allowed. */
  lemma NaturalCountIsLeast(low: real, high: real, brush: real, overlap: real, lines: nat)
    requires SpacingPossible(brush, overlap) && brush < high - low && lines >= 2
    ensures PlanSweep(low, high, brush, overlap).Some?
    ensures
      var s := PlanSweep(low, high, brush, overlap).value;
      Spacing(s.span, lines) <= brush - overlap <==> lines >= s.natural
  {
    Quotients(high - low - brush, brush - overlap, lines - 1);
  }

  /** Every line count the planner tries keeps the spacing, so the branch that skips a count is never taken. */
  lemma EveryCountKeepsTheSpacing(low: real, high: real, brush: real, overlap: real, lines: nat)
    requires SpacingPossible(brush, overlap) && low < high && PlanSweep(low, high, brush, overlap).Some?
    requires FirstLineCount(PlanSweep(low, high, brush, overlap).value.natural) <= lines
    ensures 0.0 < Spacing(PlanSweep(low, high, brush, overlap).value.span, lines) <= brush - overlap
  {
    var s := PlanSweep(low, high, brush, overlap).value;
    if high - low <= brush {
      SpanOfSpacing(s.span, lines);
      var sp, g := Spacing(s.span, lines), (lines - 1) as real;
      assert g >= 1.0;
      Cancel(0.0, sp, g);
      Scale(1.0, g, sp);
    } else {
      NaturalCountIsLeast(low, high, brush, overlap, lines);
    }
  }

  // ---------------------------------------------------------------------------------------------
  // Every part of the area is swept
  // ---------------------------------------------------------------------------------------------

  predicate Near(x: real, line: real, reach: real) { line - reach <= x <= line + reach }

  ghost predicate Swept(x: real, first: real, spacing: real, lines: nat, brush: real) {
    exists line: nat :: line < lines && Near(x, LineAt(first, spacing, line), brush * 0.5)
  }

  lemma {:induction false} NearestLine(x: real, first: real, spacing: real, lines: nat) returns (line: nat)
    requires lines >= 1 && spacing >= 0.0 && first <= x <= LineAt(first, spacing, lines - 1)
    ensures line < lines && Near(x, LineAt(first, spacing, line), spacing * 0.5)
    decreases lines
  {
    if lines == 1 {
      line := 0;
    } else {
      assert LineAt(first, spacing, lines - 1) == LineAt(first, spacing, lines - 2) + spacing by {
        assert (lines - 1) as real == (lines - 2) as real + 1.0;
      }
      if x <= LineAt(first, spacing, lines - 2) {
        line := NearestLine(x, first, spacing, lines - 1);
      } else if x <= LineAt(first, spacing, lines - 2) + spacing * 0.5 {
        line := lines - 2;
      } else {
        line := lines - 1;
      }
    }
  }

  /** Whatever line count is tried, every offset of the area is within half a brush of some sweep line. */
  lemma EveryOffsetIsSwept(low: real, high: real, brush: real, overlap: real, lines: nat, x: real)
    requires SpacingPossible(brush, overlap) && low < high && PlanSweep(low, high, brush, overlap).Some?
    requires FirstLineCount(PlanSweep(low, high, brush, overlap).value.natural) <= lines && low <= x <= high
    ensures
      var s := PlanSweep(low, high, brush, overlap).value;
      Swept(x, s.first, Spacing(s.span, lines), lines, brush)
  {
    var s := PlanSweep(low, high, brush, overlap).value;
    var spacing := Spacing(s.span, lines);
    EveryCountKeepsTheSpacing(low, high, brush, overlap, lines);
    SpanOfSpacing(s.span, lines);
    assert LineAt(s.first, spacing, lines - 1) == s.first + s.span;
    if x < s.first {
      assert Near(x, LineAt(s.first, spacing, 0), brush * 0.5);
    } else if x > s.first + s.span {
      assert Near(x, LineAt(s.first, spacing, lines - 1), brush * 0.5);
    } else {
      var line := NearestLine(x, s.first, spacing, lines);
      assert Near(x, LineAt(s.first, spacing, line), brush * 0.5);
    }
  }

  ghost predicate AllSwept(low: real, high: real, first: real, spacing: real, lines: nat, brush: real) {
    forall x :: low <= x <= high ==> Swept(x, first, spacing, lines, brush)
  }

  lemma AreaIsSwept(low: real, high: real, brush: real, overlap: real, lines: nat)
    requires SpacingPossible(brush, overlap) && low < high && PlanSweep(low, high, brush, overlap).Some?
    requires FirstLineCount(PlanSweep(low, high, brush, overlap).value.natural) <= lines
    ensures
      var s := PlanSweep(low, high, brush, overlap).value;
      AllSwept(low, high, s.first, Spacing(s.span, lines), lines, brush)
  {
    var s := PlanSweep(low, high, brush, overlap).value;
    forall x | low <= x <= high ensures Swept(x, s.first, Spacing(s.span, lines), lines, brush) {
      EveryOffsetIsSwept(low, high, brush, overlap, lines, x);
    }
  }

  /** In a wide area the brush on the outermost lines reaches the area's edges and not beyond. */
  lemma OutermostLinesTouchTheEdges(low: real, high: real, brush: real, overlap: real, lines: nat)
    requires SpacingPossible(brush, overlap) && brush < high - low && lines >= 2
    ensures PlanSweep(low, high, brush, overlap).Some?
    ensures
      var s := PlanSweep(low, high, brush, overlap).value;
      var spacing := Spacing(s.span, lines);
      LineAt(s.first, spacing, 0) - brush * 0.5 == low && LineAt(s.first, spacing, lines - 1) + brush * 0.5 == high
  {
    SpanOfSpacing(PlanSweep(low, high, brush, overlap).value.span, lines);
  }

  // ---------------------------------------------------------------------------------------------
  // Lanes
  // ---------------------------------------------------------------------------------------------

  predicate SamePoint(g: Geometry, p: Point, q: Point) { g.dist(p, q) <= SAME_POINT }

  predicate SameLane(g: Geometry, a: Lane, b: Lane) {
    || (SamePoint(g, a.start, b.start) && SamePoint(g, a.end, b.end))
    || (SamePoint(g, a.start, b.end) && SamePoint(g, a.end, b.start))
  }

  /** Two lanes are the same only if each of their ends lies where the other has one, and never if none does. */
  lemma SameLaneMeans(g: Geometry, a: Lane, b: Lane)
    requires SameLane(g, a, b)
    ensures g.dist(a.start, b.start) <= 0.00001 || g.dist(a.start, b.end) <= 0.00001
    ensures g.dist(a.end, b.start) <= 0.00001 || g.dist(a.end, b.end) <= 0.00001
    ensures g.dist(a.start, b.start) <= 0.00001 || g.dist(a.end, b.start) <= 0.00001
  {
  }

  ghost predicate Distinct(g: Geometry, lanes: seq<Lane>) {
    forall i, j :: 0 <= i < j < |lanes| ==> !SameLane(g, lanes[i], lanes[j])
  }

  ghost predicate Usable(g: Geometry, lanes: seq<Lane>) {
    |lanes| > 0 && |lanes| % 2 == 0 && Distinct(g, lanes)
  }

  /** `lanes` continued by the lanes of one line: its crossings taken in pairs, those too short left out. */
  function LaneWith(g: Geometry, lanes: seq<Lane>, offset: real, points: seq<Point>, pairs: nat): seq<Lane>
    requires 2 * pairs <= |points|
  {
    if pairs == 0 then lanes
    else
      var before := LaneWith(g, lanes, offset, points, pairs - 1);
      var start, end := points[2 * pairs - 2], points[2 * pairs - 1];
      if g.dist(start, end) <= EPSILON then before
      else before + [Lane(|before| + 1, start, end, offset, g.dist(start, end))]
  }

  function LanesOf(g: Geometry, first: real, spacing: real, lines: nat): seq<Lane> {
    if lines == 0 then []
    else
      var offset := LineAt(first, spacing, lines - 1);
      LaneWith(g, LanesOf(g, first, spacing, lines - 1), offset, g.crossings(offset), |g.crossings(offset)| / 2)
  }

  /** A lane joins two neighbouring crossings of one of the sweep lines. */
  ghost predicate OnLine(g: Geometry, lane: Lane, first: real, spacing: real, line: nat, pair: nat) {
    var points := g.crossings(LineAt(first, spacing, line));
    && lane.offset == LineAt(first, spacing, line)
    && 2 * pair + 1 < |points| && lane.start == points[2 * pair] && lane.end == points[2 * pair + 1]
    && lane.length == g.dist(lane.start, lane.end) > EPSILON
  }

  ghost predicate FromSweep(g: Geometry, lane: Lane, first: real, spacing: real, lines: nat) {
    exists line: nat, pair: nat :: line < lines && OnLine(g, lane, first, spacing, line, pair)
  }

  ghost predicate SweepLanes(g: Geometry, lanes: seq<Lane>, first: real, spacing: real, lines: nat) {
    && (forall i :: 0 <= i < |lanes| ==> lanes[i].number == i + 1)
    && (forall i :: 0 <= i < |lanes| ==> FromSweep(g, lanes[i], first, spacing, lines))
  }

  lemma {:induction false} LineLanes(
      g: Geometry, lanes: seq<Lane>, first: real, spacing: real, line: nat, pairs: nat)
    requires SweepLanes(g, lanes, first, spacing, line + 1)
    requires 2 * pairs <= |g.crossings(LineAt(first, spacing, line))|
    ensures
      var offset := LineAt(first, spacing, line);
      SweepLanes(g, LaneWith(g, lanes, offset, g.crossings(offset), pairs), first, spacing, line + 1)
  {
    if pairs > 0 {
      LineLanes(g, lanes, first, spacing, line, pairs - 1);
      var offset := LineAt(first, spacing, line);
      var points := g.crossings(offset);
      var before := LaneWith(g, lanes, offset, points, pairs - 1);
      var all := LaneWith(g, lanes, offset, points, pairs);
      if all != before {
        assert OnLine(g, all[|before|], first, spacing, line, pairs - 1);
      }
    }
  }

  /** Lanes are numbered from one and each comes from a sweep line. */
  lemma {:induction false} LanesComeFromLines(g: Geometry, first: real, spacing: real, lines: nat)
    ensures SweepLanes(g, LanesOf(g, first, spacing, lines), first, spacing, lines)
  {
    if lines > 0 {
      LanesComeFromLines(g, first, spacing, lines - 1);
      var before := LanesOf(g, first, spacing, lines - 1);
      forall i | 0 <= i < |before| ensures FromSweep(g, before[i], first, spacing, lines) {
        var line: nat, pair: nat :| line < lines - 1 && OnLine(g, before[i], first, spacing, line, pair);
        assert line < lines;
      }
      LineLanes(g, before, first, spacing, lines - 1, |g.crossings(LineAt(first, spacing, lines - 1))| / 2);
    }
  }

  method BuildLanes(g: Geometry, first: real, spacing: real, lines: nat) returns (lanes: seq<Lane>)
    ensures lanes == LanesOf(g, first, spacing, lines)
    ensures SweepLanes(g, lanes, first, spacing, lines)
  {
    lanes := [];
    var line := 0;
    while line < lines
      invariant 0 <= line <= lines
      invariant lanes == LanesOf(g, first, spacing, line)
    {
      var offset := LineAt(first, spacing, line);
      var points := g.crossings(offset);
      ghost var before := lanes;
      var index := 0;
      while index + 1 < |points|
        invariant 0 <= index && index % 2 == 0 && index <= |points|
        invariant lanes == LaneWith(g, before, offset, points, index / 2)
      {
        var start, end := points[index], points[index + 1];
        var length := g.dist(start, end);
        assert index / 2 + 1 == (index + 2) / 2 && 2 * (index / 2 + 1) - 2 == index;
        if length > EPSILON {
          lanes := lanes + [Lane(|lanes| + 1, start, end, offset, length)];
        }
        index := index + 2;
      }
      assert index / 2 == |points| / 2;
      line := line + 1;
    }
    LanesComeFromLines(g, first, spacing, lines);
  }

  method AllDistinct(g: Geometry, lanes: seq<Lane>) returns (distinct: bool)
    ensures distinct <==> Distinct(g, lanes)
  {
    distinct := true;
    var left := 0;
    while left < |lanes| && distinct
      invariant 0 <= left <= |lanes|
      invariant distinct ==> forall i, j :: 0 <= i < left && i < j < |lanes| ==> !SameLane(g, lanes[i], lanes[j])
      invariant !distinct ==> !Distinct(g, lanes)
    {
      var right := left + 1;
      while right < |lanes|
        invariant left + 1 <= right <= |lanes|
        invariant distinct
        invariant forall j :: left < j < right ==> !SameLane(g, lanes[left], lanes[j])
      {
        if SameLane(g, lanes[left], lanes[right]) {
          distinct := false;
          break;
        }
        right := right + 1;
      }
      left := left + 1;
    }
  }

  // ---------------------------------------------------------------------------------------------
  // The planner
  // ---------------------------------------------------------------------------------------------

  function Offset(g: Geometry, p: Point): real { p.x * g.normal.x + p.y * g.normal.y }

  ghost predicate Extent(g: Geometry, polygon: seq<Point>, low: real, high: real) {
    && (forall i :: 0 <= i < |polygon| ==> low <= Offset(g, polygon[i]) <= high)
    && (exists i :: 0 <= i < |polygon| && Offset(g, polygon[i]) == low)
    && (exists i :: 0 <= i < |polygon| && Offset(g, polygon[i]) == high)
  }

  lemma ExtentIsUnique(g: Geometry, polygon: seq<Point>, low: real, high: real, low': real, high': real)
    requires Extent(g, polygon, low, high) && Extent(g, polygon, low', high')
    ensures low == low' && high == high'
  {
  }

  method MeasureExtent(g: Geometry, polygon: seq<Point>) returns (low: real, high: real)
    requires |polygon| > 0
    ensures Extent(g, polygon, low, high)
  {
    low, high := Offset(g, polygon[0]), Offset(g, polygon[0]);
    var k := 0;
    while k < |polygon|
      invariant 0 <= k <= |polygon|
      invariant forall i :: 0 <= i < k ==> low <= Offset(g, polygon[i]) <= high
      invariant exists i :: 0 <= i < |polygon| && Offset(g, polygon[i]) == low
      invariant exists i :: 0 <= i < |polygon| && Offset(g, polygon[i]) == high
    {
      var offset := Offset(g, polygon[k]);
      if offset < low { low := offset; }
      if offset > high { high := offset; }
      k := k + 1;
    }
  }

  /** The lanes of the `k`-th attempt: two lines more than the attempt before. */
  function Attempt(g: Geometry, s: Sweep, k: nat): seq<Lane> {
    var lines := FirstLineCount(s.natural) + 2 * k;
    LanesOf(g, s.first, Spacing(s.span, lines), lines)
  }

  const ATTEMPTS: nat := MAXIMUM_PARITY_EXPANSION / 2 + 1

  ghost predicate SweptBy(g: Geometry, r: Result, low: real, high: real, brush: real, first: real, lines: nat)
    requires r.Covered?
  {
    && SweepLanes(g, r.lanes, first, r.spacing, lines) && lines % 2 == 0 && r.natural <= lines
    && AllSwept(low, high, first, r.spacing, lines, brush)
  }

  /** What a successful plan promises about the area between `low` and `high`. */
  ghost predicate Covers(g: Geometry, r: Result, low: real, high: real, brush: real, overlap: real)
    requires r.Covered?
  {
    && Usable(g, r.lanes) && 0.0 < r.spacing && overlap <= r.overlap < brush && r.spacing + r.overlap == brush
    && exists first: real, lines: nat :: SweptBy(g, r, low, high, brush, first, lines)
  }

  ghost predicate FirstUsable(g: Geometry, s: Sweep, k: nat) {
    Usable(g, Attempt(g, s, k)) && forall j: nat :: j < k ==> !Usable(g, Attempt(g, s, j))
  }

  ghost predicate IsAttempt(g: Geometry, s: Sweep, brush: real, r: Result, k: nat) {
    var spacing := Spacing(s.span, FirstLineCount(s.natural) + 2 * k);
    r == Covered(s.natural, spacing, brush - spacing, Attempt(g, s, k))
  }

  /** The outcome for an area that has a sweep: the first usable attempt, or none of them is usable. */
  ghost predicate Outcome(g: Geometry, s: Sweep, brush: real, r: Result) {
    if r.Failed? then r.error.EvenLaneLayoutUnavailable? && forall k: nat :: k < ATTEMPTS ==> !Usable(g, Attempt(g, s, k))
    else
      exists k: nat :: k < ATTEMPTS && FirstUsable(g, s, k) && IsAttempt(g, s, brush, r, k)
  }

  lemma SweptLanesCover(
      g: Geometry, r: Result, low: real, high: real, brush: real, overlap: real, first: real, lines: nat)
    requires r.Covered? && Usable(g, r.lanes) && r.lanes == LanesOf(g, first, r.spacing, lines)
    requires 0.0 < r.spacing <= brush - overlap && r.overlap == brush - r.spacing
    requires lines % 2 == 0 && r.natural <= lines && AllSwept(low, high, first, r.spacing, lines, brush)
    ensures Covers(g, r, low, high, brush, overlap)
  {
    LanesComeFromLines(g, first, r.spacing, lines);
    assert SweptBy(g, r, low, high, brush, first, lines);
  }

  /** What every line count that is tried has in common. */
  lemma SweepIsSound(s: Sweep, low: real, high: real, brush: real, overlap: real, lines: nat)
    requires SpacingPossible(brush, overlap) && low < high && PlanSweep(low, high, brush, overlap) == Some(s)
    requires FirstLineCount(s.natural) <= lines
    ensures 0.0 < Spacing(s.span, lines) <= brush - overlap
    ensures AllSwept(low, high, s.first, Spacing(s.span, lines), lines, brush)
  {
    EveryCountKeepsTheSpacing(low, high, brush, overlap, lines);
    AreaIsSwept(low, high, brush, overlap, lines);
  }

  lemma AttemptCovers(
      g: Geometry, s: Sweep, k: nat, r: Result, low: real, high: real, brush: real, overlap: real, spacing: real)
    requires spacing == Spacing(s.span, FirstLineCount(s.natural) + 2 * k) && 0.0 < spacing <= brush - overlap
    requires AllSwept(low, high, s.first, spacing, FirstLineCount(s.natural) + 2 * k, brush)
    requires Usable(g, Attempt(g, s, k)) && r == Covered(s.natural, spacing, brush - spacing, Attempt(g, s, k))
    ensures Covers(g, r, low, high, brush, overlap)
  {
    SweptLanesCover(g, r, low, high, brush, overlap, s.first, FirstLineCount(s.natural) + 2 * k);
  }

  lemma OutcomeCovers(g: Geometry, s: Sweep, r: Result, low: real, high: real, brush: real, overlap: real)
    requires SpacingPossible(brush, overlap) && low < high && PlanSweep(low, high, brush, overlap) == Some(s)
    requires Outcome(g, s, brush, r) && r.Covered?
    ensures Covers(g, r, low, high, brush, overlap)
  {
    var k: nat :| k < ATTEMPTS && FirstUsable(g, s, k) && IsAttempt(g, s, brush, r, k);
    SweepIsSound(s, low, high, brush, overlap, FirstLineCount(s.natural) + 2 * k);
    AttemptCovers(g, s, k, r, low, high, brush, overlap, r.spacing);
  }

  method TryLayout(g: Geometry, first: real, spacing: real, lines: nat) returns (usable: bool, lanes: seq<Lane>)
    ensures lanes == LanesOf(g, first, spacing, lines)
    ensures usable <==> Usable(g, lanes)
  {
    lanes := BuildLanes(g, first, spacing, lines);
    if |lanes| == 0 || |lanes| % 2 != 0 {
      usable := false;
    } else {
      usable := AllDistinct(g, lanes);
    }
  }

  ghost predicate KeepsSpacing(s: Sweep, widest: real) {
    forall lines: nat :: FirstLineCount(s.natural) <= lines ==> 0.0 < Spacing(s.span, lines) <= widest
  }

  method TryLineCounts(g: Geometry, s: Sweep, brush: real, widest: real) returns (r: Result)
    requires KeepsSpacing(s, widest)
    ensures Outcome(g, s, brush, r)
  {
    var lines := FirstLineCount(s.natural);
    var maximum := lines + MAXIMUM_PARITY_EXPANSION;
    ghost var k: nat := 0;
    while lines <= maximum
      invariant lines == FirstLineCount(s.natural) + 2 * k && k <= ATTEMPTS
      invariant forall j: nat :: j < k ==> !Usable(g, Attempt(g, s, j))
      decreases maximum + 2 - lines
    {
      var spacing := Spacing(s.span, lines);
      if 0.0 < spacing <= widest + EPSILON {
        var usable, lanes := TryLayout(g, s.first, spacing, lines);
        assert lanes == Attempt(g, s, k);
        if usable {
          r := Covered(s.natural, spacing, brush - spacing, lanes);
          assert FirstUsable(g, s, k) && IsAttempt(g, s, brush, r, k);
          return;
        }
      }
      lines := lines + 2;
      k := k + 1;
    }
    r := Failed(EvenLaneLayoutUnavailable);
  }

  /** What the planner answers for an area that reaches from `low` to `high`. */
  ghost predicate AnswersOver(g: Geometry, low: real, high: real, brush: real, overlap: real, r: Result)
    requires SpacingPossible(brush, overlap)
  {
    && (r == Failed(PolygonWidthInvalid) <==> high - low <= EPSILON)
    && (EPSILON < high - low ==>
          && (r == Failed(DistinctLanesUnavailable) <==> PlanSweep(low, high, brush, overlap).None?)
          && (PlanSweep(low, high, brush, overlap).Some? ==>
                Outcome(g, PlanSweep(low, high, brush, overlap).value, brush, r)))
    && (r.Covered? ==> Covers(g, r, low, high, brush, overlap))
  }

  /** The planner's answer: which failure when, and otherwise what it answers over the polygon's extent. */
  ghost predicate Answers(g: Geometry, polygon: seq<Point>, brush: real, overlap: real, r: Result) {
    && (r == Failed(PolygonInvalid) <==> !g.simple)
    && (r == Failed(LaneSpacingInvalid) <==> g.simple && !(0.0 < brush && 0.0 <= overlap && overlap < brush))
    && (g.simple && SpacingPossible(brush, overlap) ==>
          exists low, high :: Extent(g, polygon, low, high) && AnswersOver(g, low, high, brush, overlap, r))
  }

  method PlanCoverage(g: Geometry, polygon: seq<Point>, brush: real, overlap: real) returns (r: Result)
    requires g.simple ==> |polygon| >= 3
    ensures Answers(g, polygon, brush, overlap, r)
  {
    if !g.simple { return Failed(PolygonInvalid); }
    if brush <= 0.0 || overlap < 0.0 || overlap >= brush { return Failed(LaneSpacingInvalid); }
    var low, high := MeasureExtent(g, polygon);
    r := PlanOver(g, low, high, brush, overlap);
    assert Extent(g, polygon, low, high) && AnswersOver(g, low, high, brush, overlap, r);
  }

  method PlanOver(g: Geometry, low: real, high: real, brush: real, overlap: real) returns (r: Result)
    requires SpacingPossible(brush, overlap)
    ensures AnswersOver(g, low, high, brush, overlap, r) && r != Failed(PolygonInvalid) && r != Failed(LaneSpacingInvalid)
  {
    if high - low <= EPSILON { return Failed(PolygonWidthInvalid); }
    var sweep := PlanSweep(low, high, brush, overlap);
    if sweep.None? { return Failed(DistinctLanesUnavailable); }
    forall lines: nat | FirstLineCount(sweep.value.natural) <= lines
      ensures 0.0 < Spacing(sweep.value.span, lines) <= brush - overlap
    {
      EveryCountKeepsTheSpacing(low, high, brush, overlap, lines);
    }
    r := TryLineCounts(g, sweep.value, brush, brush - overlap);
    if r.Covered? {
      OutcomeCovers(g, sweep.value, r, low, high, brush, overlap);
    }
  }

  lemma OutcomeIsUnique(g: Geometry, s: Sweep, brush: real, r: Result, r': Result)
    requires Outcome(g, s, brush, r) && Outcome(g, s, brush, r')
    ensures r == r'
  {
    if r.Covered? && r'.Covered? {
      var k: nat :| k < ATTEMPTS && FirstUsable(g, s, k) && IsAttempt(g, s, brush, r, k);
      var k': nat :| k' < ATTEMPTS && FirstUsable(g, s, k') && IsAttempt(g, s, brush, r', k');
      assert k == k';
    }
  }

  /** The polygon determines its extent, and with the brush and the overlap it determines the answer. */
  lemma AnswerIsUnique(g: Geometry, polygon: seq<Point>, brush: real, overlap: real, r: Result, r': Result)
    requires Answers(g, polygon, brush, overlap, r) && Answers(g, polygon, brush, overlap, r')
    ensures r == r'
  {
    if g.simple && SpacingPossible(brush, overlap) {
      var low, high :| Extent(g, polygon, low, high) && AnswersOver(g, low, high, brush, overlap, r);
      var low', high' :| Extent(g, polygon, low', high') && AnswersOver(g, low', high', brush, overlap, r');
      ExtentIsUnique(g, polygon, low, high, low', high');
      if EPSILON < high - low && PlanSweep(low, high, brush, overlap).Some? {
        OutcomeIsUnique(g, PlanSweep(low, high, brush, overlap).value, brush, r, r');
      }
    }
  }

  /** Exactly when an area is too narrow for two lanes: half its width, or the widest spacing, is within the tolerance. */
  lemma TooNarrowExactlyWhen(low: real, high: real, brush: real, overlap: real)
    requires SpacingPossible(brush, overlap) && low < high
    ensures PlanSweep(low, high, brush, overlap).None? <==>
      high - low <= brush && (high - low <= 2.0 * EPSILON || brush - overlap <= EPSILON)
  {
  }
}
