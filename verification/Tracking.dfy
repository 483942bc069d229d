/**
 The position filter of the tracker: a two-axis Kalman filter over exact reals, kept as a four-entry state and a
 four-by-four covariance. Rows and columns 0, 1 are the positions along x, y and 2, 3 the speeds.
 The projection between coordinates and metres is a parameter.
 */
module Tracking {
  const ONE: real := 1.0
  const SMALLEST_STEP: real := 0.05
  const SMALLEST_DETERMINANT: real := 0.000000001

  datatype Parameters = Parameters(processNoise: real, measurementNoise: real, maxDt: real)

  /** Noises a filter can be built on: the sensor is never exact, and the process never un-noisy. */
  predicate Noisy(p: Parameters) { p.processNoise >= 0.0 && p.measurementNoise > 0.0 }

  datatype Metres = Metres(x: real, y: real)
  datatype Coordinate = Coordinate(lat: real, lon: real)

  /** `toLocal(origin, point)` in metres and its way back. */
  datatype Projection = Projection(
    toLocal: (Coordinate, Coordinate) -> Metres, toCoordinate: (Coordinate, Metres) -> Coordinate)

  /** One axis of the filter: what is believed, and the symmetric covariance ((a, b), (b, c)) of position and speed. */
  datatype Axis = Axis(position: real, speed: real, a: real, b: real, c: real)

  datatype Filter =
    | Empty
    | Tracking(origin: Coordinate, last: real, x: Axis, y: Axis)

  datatype Point = Point(raw: Coordinate, at: Coordinate, timestamp: real, filtered: bool)

  // ---------------------------------------------------------------------------------------------
  // One axis
  // ---------------------------------------------------------------------------------------------

  predicate Definite(v: Axis) { v.a > 0.0 && v.c > 0.0 && v.a * v.c - v.b * v.b > 0.0 }

  function Predicted(v: Axis, dt: real, q: real): Axis {
    Axis(
      v.position + dt * v.speed, v.speed,
      v.a + dt * v.b + (v.b + dt * v.c) * dt + q * dt * dt, v.b + dt * v.c, v.c + q * dt)
  }

  /** The measurement pulls the axis with weight `k` per unit of variance. */
  function Corrected(v: Axis, k: real, measured: real): Axis {
    Axis(
      v.position + v.a * k * (measured - v.position), v.speed + v.b * k * (measured - v.position),
      v.a - v.a * k * v.a, v.b - v.a * k * v.b, v.c - v.b * k * v.b)
  }

  function StepTime(last: real, now: real, maxDt: real): (dt: real)
    ensures dt > 0.0
    ensures dt <= SMALLEST_STEP || dt <= maxDt
  {
    var dt := if now - last <= 0.0 then SMALLEST_STEP else now - last;
    var limit := if SMALLEST_STEP < maxDt then maxDt else SMALLEST_STEP;
    if limit < dt then limit else dt
  }

  /** The determinant the code divides by: kept away from zero. */
  function SafeDeterminant(d: real): (s: real)
    ensures s != 0.0 && (d > 0.0 ==> s >= d)
  {
    if -SMALLEST_DETERMINANT < d < SMALLEST_DETERMINANT then
      if d < 0.0 then -SMALLEST_DETERMINANT else SMALLEST_DETERMINANT
    else d
  }

  /** The weight of one axis, given the innovation variances of both. */
  function Weight(own: real, other: real): real { other / SafeDeterminant(own * other) }

  lemma SquareIsNonNegative(x: real)
    ensures x * x >= 0.0
  {
  }

  lemma ProductIsNonNegative(x: real, y: real)
    requires x >= 0.0 && y >= 0.0
    ensures x * y >= 0.0
  {
  }

  lemma ProductIsPositive(x: real, y: real)
    requires x > 0.0 && y > 0.0
    ensures x * y > 0.0
  {
  }

  lemma FactorIsPositive(c: real, x: real)
    requires c > 0.0 && c * x > 0.0
    ensures x > 0.0
  {
  }

  lemma ProductGrows(x: real, y: real, x0: real, y0: real)
    requires x >= x0 >= 0.0 && y >= y0 >= 0.0
    ensures x * y >= x0 * y0
  {
    ProductIsNonNegative(x - x0, y);
    ProductIsNonNegative(x0, y - y0);
    assert x * y - x0 * y0 == (x - x0) * y + x0 * (y - y0);
  }

  /** Moving the position along with the speed leaves the determinant alone. */
  lemma ShearKeepsDeterminant(a: real, b: real, c: real, dt: real)
    ensures
      var a', b' := a + dt * b + (b + dt * c) * dt, b + dt * c;
      a' * c - b' * b' == a * c - b * b
  {
    var b' := b + dt * c;
    var a' := a + dt * b + b' * dt;
    assert a' * c == a * c + dt * b * c + b' * (dt * c);
    assert b' * b' == b' * b + b' * (dt * c);
    assert b' * b == b * b + dt * c * b;
  }

  lemma ShearStaysDefinite(a: real, b: real, c: real, dt: real)
    requires a > 0.0 && c > 0.0 && a * c - b * b > 0.0
    ensures a + dt * b + (b + dt * c) * dt > 0.0
  {
    var a', b' := a + dt * b + (b + dt * c) * dt, b + dt * c;
    ShearKeepsDeterminant(a, b, c, dt);
    SquareIsNonNegative(b');
    FactorIsPositive(c, a');
  }

  lemma NoiseStaysDefinite(a: real, b: real, c: real, a': real, c': real)
    requires a > 0.0 && c > 0.0 && a * c - b * b > 0.0 && a' >= a && c' >= c
    ensures a' * c' - b * b > 0.0
  {
    ProductGrows(a', c', a, c);
  }

  lemma ShearAndNoiseStayDefinite(v: Axis, dt: real, na: real, nc: real, w: Axis)
    requires Definite(v) && na >= 0.0 && nc >= 0.0
    requires w.a == v.a + dt * v.b + (v.b + dt * v.c) * dt + na && w.b == v.b + dt * v.c && w.c == v.c + nc
    ensures Definite(w)
  {
    var a := v.a + dt * v.b + (v.b + dt * v.c) * dt;
    ShearKeepsDeterminant(v.a, v.b, v.c, dt);
    ShearStaysDefinite(v.a, v.b, v.c, dt);
    NoiseStaysDefinite(a, w.b, v.c, w.a, w.c);
  }

  lemma PredictionStaysDefinite(v: Axis, dt: real, q: real)
    requires Definite(v) && dt > 0.0 && q >= 0.0
    ensures Definite(Predicted(v, dt, q))
  {
    ProductIsNonNegative(q, dt);
    ProductIsNonNegative(q * dt, dt);
    var w := Predicted(v, dt, q);
    ShearAndNoiseStayDefinite(v, dt, q * dt * dt, q * dt, w);
  }

  lemma ShrunkDeterminant(a: real, b: real, c: real, k: real)
    ensures (a - a * k * a) * (c - b * k * b) - (b - a * k * b) * (b - a * k * b) == (1.0 - a * k) * (a * c - b * b)
  {
    var f, bb := 1.0 - a * k, b * b;
    assert a - a * k * a == f * a && b - a * k * b == f * b && c - b * k * b == c - k * bb;
    assert (f * b) * (f * b) == f * (f * bb);
    assert f * bb == bb - a * k * bb;
    assert (f * a) * (c - k * bb) == f * (a * (c - k * bb));
    assert a * (c - k * bb) == a * c - a * k * bb;
  }

  /** A weight below 1 / a keeps the axis definite: the determinant shrinks by the same factor as the variance. */
  lemma CorrectionStaysDefinite(v: Axis, k: real, measured: real)
    requires Definite(v) && 0.0 < k && v.a * k < ONE
    ensures
      var w := Corrected(v, k, measured);
      && Definite(w) && w.a < v.a && w.c <= v.c
      && w.a * w.c - w.b * w.b == (1.0 - v.a * k) * (v.a * v.c - v.b * v.b)
  {
    var w := Corrected(v, k, measured);
    var f := 1.0 - v.a * k;
    ShrunkDeterminant(v.a, v.b, v.c, k);
    ProductIsPositive(f, v.a * v.c - v.b * v.b);
    assert w.a == f * v.a;
    ProductIsPositive(f, v.a);
    ProductIsPositive(v.a, k);
    ProductIsPositive(v.a * k, v.a);
    SquareIsNonNegative(w.b);
    FactorIsPositive(w.a, w.c);
    SquareIsNonNegative(v.b);
    ProductIsNonNegative(k, v.b * v.b);
    assert v.b * k * v.b == k * (v.b * v.b);
  }

  /** The corrected position lies strictly between the prediction and the measurement, or on both. */
  lemma CorrectionLiesBetween(v: Axis, k: real, measured: real)
    requires 0.0 < v.a && 0.0 < k && v.a * k < ONE
    ensures
      var p := Corrected(v, k, measured).position;
      v.position < p < measured || measured < p < v.position || v.position == p == measured
  {
    var g, d := v.a * k, measured - v.position;
    assert Corrected(v, k, measured).position == v.position + g * d;
    assert (1.0 - g) * d == d - g * d;
    ProductIsPositive(v.a, k);
    if d > 0.0 {
      ProductIsPositive(g, d);
      ProductIsPositive(1.0 - g, d);
    } else if d < 0.0 {
      ProductIsPositive(g, -d);
      ProductIsPositive(1.0 - g, -d);
    }
  }

  lemma Quotient(x: real, d: real)
    requires d != 0.0
    ensures x / d * d == x
  {
  }

  lemma Regroup(x: real, y: real, z: real)
    ensures x * (y * z) == z * (x * y)
  {
  }

  lemma SmallWeight(w: real, d: real, a: real, own: real, other: real)
    requires w > 0.0 && other > 0.0 && w * d == other && d >= own * other && a < own
    ensures w * a < ONE
  {
    var excess := d - a * other;
    ProductIsPositive(own - a, other);
    ProductIsPositive(w, excess);
    assert other * (ONE - w * a) == w * excess by {
      assert w * excess == w * d - w * (a * other);
      Regroup(w, a, other);
    }
    FactorIsPositive(other, ONE - w * a);
  }

  lemma ExactWeight(w: real, d: real, own: real, other: real)
    requires other > 0.0 && w * d == other && d == own * other
    ensures w * own == ONE
  {
    Regroup(w, own, other);
    assert other * (w * own - ONE) == 0.0;
  }

  /** Whether or not the determinant is clamped, no weight reaches one over the variance it is applied to. */
  lemma WeightIsSmall(a: real, own: real, other: real)
    requires 0.0 < a < own && other > 0.0
    ensures 0.0 < Weight(own, other) && Weight(own, other) * a < ONE
  {
    ProductIsPositive(own, other);
    var d := SafeDeterminant(own * other);
    var w := Weight(own, other);
    Quotient(other, d);
    FactorIsPositive(d, w);
    SmallWeight(w, d, a, own, other);
  }

  /** Where the determinant is not clamped, the weight is one over the innovation variance. */
  lemma WeightIsExact(own: real, other: real)
    requires own > 0.0 && other > 0.0 && own * other >= SMALLEST_DETERMINANT
    ensures 0.0 < Weight(own, other) && Weight(own, other) * own == ONE
  {
    var d := own * other;
    var w := Weight(own, other);
    Quotient(other, d);
    FactorIsPositive(d, w);
    ExactWeight(w, d, own, other);
  }

  /** With the determinant unclamped, a correction leaves less variance than one measurement has. */
  lemma CorrectionBeatsTheSensor(v: Axis, r: real, other: real, measured: real)
    requires v.a > 0.0 && r > 0.0 && other >= r && r * r >= SMALLEST_DETERMINANT
    ensures Corrected(v, Weight(v.a + r, other), measured).a < r
  {
    ProductGrows(v.a + r, other, r, r);
    WeightIsExact(v.a + r, other);
    RemainingVariance(v.a, r, Weight(v.a + r, other));
  }

  lemma RemainingVariance(a: real, r: real, w: real)
    requires r > 0.0 && w > 0.0 && w * (a + r) == ONE
    ensures a - a * w * a < r
  {
    var wr, aw := w * r, a * w;
    assert aw == 1.0 - wr;
    assert a * aw == a - a * wr;
    Regroup(a, w, r);
    assert r * aw == r - r * wr;
    ProductIsPositive(w, r);
    ProductIsPositive(r, wr);
  }

  // ---------------------------------------------------------------------------------------------
  // The filter
  // ---------------------------------------------------------------------------------------------

  datatype Event = Reset | Sample(at: Coordinate, timestamp: real)

  /** One correction of both axes by a position measured in metres. */
  function CorrectBoth(s: Filter, r: real, measured: Metres, now: real): Filter
    requires s.Tracking?
  {
    var sx, sy := s.x.a + r, s.y.a + r;
    Tracking(s.origin, now, Corrected(s.x, Weight(sx, sy), measured.x), Corrected(s.y, Weight(sy, sx), measured.y))
  }

  function PredictBoth(s: Filter, p: Parameters, now: real): Filter
    requires s.Tracking?
  {
    var dt := StepTime(s.last, now, p.maxDt);
    Tracking(s.origin, s.last, Predicted(s.x, dt, p.processNoise), Predicted(s.y, dt, p.processNoise))
  }

  function Updated(g: Projection, p: Parameters, s: Filter, at: Coordinate, now: real): Filter {
    if s.Empty? then
      var fresh' := Axis(0.0, 0.0, p.measurementNoise, 0.0, 1.0);
      Tracking(at, now, fresh', fresh')
    else CorrectBoth(PredictBoth(s, p, now), p.measurementNoise, g.toLocal(s.origin, at), now)
  }

  function Stepped(g: Projection, p: Parameters, s: Filter, e: Event): Filter {
    match e
    case Reset => Empty
    case Sample(at, now) => Updated(g, p, s, at, now)
  }

  function Run(g: Projection, p: Parameters, s: Filter, events: seq<Event>): Filter {
    if events == [] then s
    else Stepped(g, p, Run(g, p, s, events[..|events| - 1]), events[|events| - 1])
  }

  predicate Sound(s: Filter) { s.Tracking? ==> Definite(s.x) && Definite(s.y) }

  /** Neither position is known worse than one measurement tells it. */
  predicate AsGoodAsTheSensor(s: Filter, p: Parameters) {
    s.Tracking? ==> s.x.a <= p.measurementNoise && s.y.a <= p.measurementNoise
  }

  lemma PredictBothStaysSound(s: Filter, p: Parameters, now: real)
    requires Noisy(p) && Sound(s) && s.Tracking?
    ensures Sound(PredictBoth(s, p, now))
  {
    var dt := StepTime(s.last, now, p.maxDt);
    PredictionStaysDefinite(s.x, dt, p.processNoise);
    PredictionStaysDefinite(s.y, dt, p.processNoise);
  }

  lemma AxisStaysDefinite(q: Axis, r: real, other: real, measured: real)
    requires Definite(q) && r > 0.0 && other > 0.0
    ensures Definite(Corrected(q, Weight(q.a + r, other), measured))
  {
    WeightIsSmall(q.a, q.a + r, other);
    CorrectionStaysDefinite(q, Weight(q.a + r, other), measured);
  }

  lemma CorrectBothStaysSound(q: Filter, r: real, measured: Metres, now: real)
    requires r > 0.0 && Sound(q) && q.Tracking?
    ensures Sound(CorrectBoth(q, r, measured, now))
  {
    AxisStaysDefinite(q.x, r, q.y.a + r, measured.x);
    AxisStaysDefinite(q.y, r, q.x.a + r, measured.y);
  }

  lemma UpdateStaysSound(g: Projection, p: Parameters, s: Filter, at: Coordinate, now: real)
    requires Noisy(p) && Sound(s)
    ensures Sound(Updated(g, p, s, at, now))
  {
    if s.Tracking? {
      PredictBothStaysSound(s, p, now);
      CorrectBothStaysSound(PredictBoth(s, p, now), p.measurementNoise, g.toLocal(s.origin, at), now);
    }
  }

  /** Over every run of samples and resets both axes stay positive definite, clamped determinants included. */
  lemma {:induction false} RunStaysSound(g: Projection, p: Parameters, s: Filter, events: seq<Event>)
    requires Noisy(p) && Sound(s)
    ensures Sound(Run(g, p, s, events))
  {
    if events != [] {
      var before := Run(g, p, s, events[..|events| - 1]);
      RunStaysSound(g, p, s, events[..|events| - 1]);
      match events[|events| - 1]
      case Reset =>
      case Sample(at, now) => UpdateStaysSound(g, p, before, at, now);
    }
  }

  predicate Between(low: real, x: real, high: real) {
    low < x < high || high < x < low || low == x == high
  }

  predicate FilterLiesBetween(predicted: Filter, after: Filter, measured: Metres) {
    && predicted.Tracking? && after.Tracking?
    && Between(predicted.x.position, after.x.position, measured.x)
    && Between(predicted.y.position, after.y.position, measured.y)
  }

  /**
   The next filtered position lies between its prediction and its measurement on each axis, from every sound filter;
   `RunStaysSound` makes that every filter a run can reach.
   */
  lemma {:induction false} FilteredLiesBetween(
      g: Projection, p: Parameters, before: Filter, at: Coordinate, now: real)
    requires Noisy(p) && Sound(before) && before.Tracking?
    ensures
      FilterLiesBetween(PredictBoth(before, p, now), Updated(g, p, before, at, now), g.toLocal(before.origin, at))
  {
    PredictBothStaysSound(before, p, now);
    CorrectBothLiesBetween(PredictBoth(before, p, now), p.measurementNoise, g.toLocal(before.origin, at), now);
  }

  lemma CorrectBothLiesBetween(q: Filter, r: real, measured: Metres, now: real)
    requires r > 0.0 && Sound(q) && q.Tracking?
    ensures FilterLiesBetween(q, CorrectBoth(q, r, measured, now), measured)
  {
    AxisLiesBetween(q.x, r, q.y.a + r, measured.x);
    AxisLiesBetween(q.y, r, q.x.a + r, measured.y);
  }

  lemma AxisLiesBetween(q: Axis, r: real, other: real, measured: real)
    requires Definite(q) && r > 0.0 && other > 0.0
    ensures Between(q.position, Corrected(q, Weight(q.a + r, other), measured).position, measured)
  {
    WeightIsSmall(q.a, q.a + r, other);
    CorrectionLiesBetween(q, Weight(q.a + r, other), measured);
  }

  lemma UpdateIsAsGoodAsTheSensor(g: Projection, p: Parameters, s: Filter, at: Coordinate, now: real)
    requires Noisy(p) && Sound(s) && p.measurementNoise * p.measurementNoise >= SMALLEST_DETERMINANT
    ensures AsGoodAsTheSensor(Updated(g, p, s, at, now), p)
  {
    if s.Tracking? {
      PredictBothStaysSound(s, p, now);
      CorrectBothBeatsTheSensor(PredictBoth(s, p, now), p, g.toLocal(s.origin, at), now);
    }
  }

  lemma CorrectBothBeatsTheSensor(q: Filter, p: Parameters, measured: Metres, now: real)
    requires Noisy(p) && Sound(q) && q.Tracking?
    requires p.measurementNoise * p.measurementNoise >= SMALLEST_DETERMINANT
    ensures AsGoodAsTheSensor(CorrectBoth(q, p.measurementNoise, measured, now), p)
  {
    CorrectionBeatsTheSensor(q.x, p.measurementNoise, q.y.a + p.measurementNoise, measured.x);
    CorrectionBeatsTheSensor(q.y, p.measurementNoise, q.x.a + p.measurementNoise, measured.y);
  }

  /** Where the clamp on the determinant is idle, no run leaves a position less certain than one measurement. */
  lemma {:induction false} RunIsAsGoodAsTheSensor(g: Projection, p: Parameters, events: seq<Event>)
    requires Noisy(p) && p.measurementNoise * p.measurementNoise >= SMALLEST_DETERMINANT
    ensures AsGoodAsTheSensor(Run(g, p, Empty, events), p)
  {
    if events != [] {
      var before := Run(g, p, Empty, events[..|events| - 1]);
      RunStaysSound(g, p, Empty, events[..|events| - 1]);
      match events[|events| - 1]
      case Reset =>
      case Sample(at, now) => UpdateIsAsGoodAsTheSensor(g, p, before, at, now);
    }
  }

  // ---------------------------------------------------------------------------------------------
  // Where the filter goes
  // ---------------------------------------------------------------------------------------------

  /** The time a sample is taken to advance: what passed since the last one, within limits. */
  predicate Elapsed(dt: real, last: real, now: real, maxDt: real) {
    && (now <= last ==> dt == 0.05)
    && (0.0 < now - last && (now - last <= maxDt || now - last <= 0.05) ==> dt == now - last)
    && (now - last > maxDt >= 0.05 ==> dt == maxDt)
    && (now - last > 0.05 > maxDt ==> dt == 0.05)
  }

  lemma ElapsedIsTheStep(dt: real, last: real, now: real, maxDt: real)
    requires Elapsed(dt, last, now, maxDt)
    ensures StepTime(last, now, maxDt) == dt
  {
  }

  /** Where an axis would be after `dt` if its speed were right. */
  function Ahead(v: Axis, dt: real): real { v.position + dt * v.speed }

  /** A sample found where both speeds lead moves the filter exactly there and leaves both speeds as they were. */
  lemma OnCourseStaysOnCourse(g: Projection, p: Parameters, before: Filter, at: Coordinate, now: real, dt: real)
    requires before.Tracking? && Elapsed(dt, before.last, now, p.maxDt)
    requires g.toLocal(before.origin, at) == Metres(Ahead(before.x, dt), Ahead(before.y, dt))
    ensures
      var after := Updated(g, p, before, at, now);
      && after.Tracking? && after.last == now
      && after.x.position == Ahead(before.x, dt) && after.x.speed == before.x.speed
      && after.y.position == Ahead(before.y, dt) && after.y.speed == before.y.speed
  {
    ElapsedIsTheStep(dt, before.last, now, p.maxDt);
  }

  /** The law of motion over `dt`: the variance of position + dt * speed, and white noise of the speed. */
  function Moved(v: Axis, dt: real, q: real): Axis {
    Axis(
      Ahead(v, dt), v.speed,
      v.a + 2.0 * dt * v.b + dt * dt * v.c + q * dt * dt, v.b + dt * v.c, v.c + q * dt)
  }

  /**
   `after` is the mean of `v` and the measurement, each weighted by the variance of the other; speed and covariance move
   along in proportion to what the position tells of them.
   */
  predicate Weighed(v: Axis, r: real, measured: real, after: Axis) {
    && after.position * (v.a + r) == v.position * r + measured * v.a
    && (after.speed - v.speed) * (v.a + r) == v.b * (measured - v.position)
    && after.a * (v.a + r) == v.a * r
    && after.b * (v.a + r) == v.b * r
    && (v.c - after.c) * (v.a + r) == v.b * v.b
  }

  lemma CorrectionIsWeighed(v: Axis, k: real, r: real, measured: real)
    requires k * (v.a + r) == ONE
    ensures Weighed(v, r, measured, Corrected(v, k, measured))
  {
    var w, s, d := Corrected(v, k, measured), v.a + r, measured - v.position;
    Scaled(v.a, k, d, s);
    Scaled(v.b, k, d, s);
    Scaled(v.a, k, v.a, s);
    Scaled(v.a, k, v.b, s);
    Scaled(v.b, k, v.b, s);
    assert w.position * s == v.position * s + v.a * k * d * s;
    assert w.a * s == v.a * s - v.a * k * v.a * s;
    assert w.b * s == v.b * s - v.a * k * v.b * s;
    assert v.c - w.c == v.b * k * v.b;
  }

  lemma Scaled(x: real, k: real, y: real, s: real)
    requires k * s == ONE
    ensures x * k * y * s == x * y
  {
    assert x * k * y * s == x * y * (k * s);
  }

  /**
   With the clamp idle every sample is weighed against where the speed leads: the textbook filter, stated without its
   gain.
   */
  lemma SampleIsWeighed(g: Projection, p: Parameters, before: Filter, at: Coordinate, now: real, dt: real)
    requires Noisy(p) && Sound(before) && before.Tracking? && Elapsed(dt, before.last, now, p.maxDt)
    requires p.measurementNoise * p.measurementNoise >= SMALLEST_DETERMINANT
    ensures
      var after, measured := Updated(g, p, before, at, now), g.toLocal(before.origin, at);
      && after.Tracking?
      && Weighed(Moved(before.x, dt, p.processNoise), p.measurementNoise, measured.x, after.x)
      && Weighed(Moved(before.y, dt, p.processNoise), p.measurementNoise, measured.y, after.y)
  {
    var r, measured := p.measurementNoise, g.toLocal(before.origin, at);
    var x, y := UpdatedByAxis(g, p, before, at, now, dt);
    AxisIsWeighed(x, r, y.a + r, measured.x);
    AxisIsWeighed(y, r, x.a + r, measured.y);
  }

  /** An update is a correction of both axes, each predicted on its own. */
  lemma UpdatedByAxis(g: Projection, p: Parameters, before: Filter, at: Coordinate, now: real, dt: real)
    returns (x: Axis, y: Axis)
    requires Noisy(p) && Sound(before) && before.Tracking? && Elapsed(dt, before.last, now, p.maxDt)
    ensures x == Moved(before.x, dt, p.processNoise) && y == Moved(before.y, dt, p.processNoise)
    ensures x.a > 0.0 && y.a > 0.0
    ensures
      var r, m := p.measurementNoise, g.toLocal(before.origin, at);
      Updated(g, p, before, at, now) ==
        Tracking(before.origin, now,
                 Corrected(x, Weight(x.a + r, y.a + r), m.x), Corrected(y, Weight(y.a + r, x.a + r), m.y))
  {
    ElapsedIsTheStep(dt, before.last, now, p.maxDt);
    PredictBothStaysSound(before, p, now);
    PredictionMoves(before.x, dt, p.processNoise);
    PredictionMoves(before.y, dt, p.processNoise);
    x, y := Moved(before.x, dt, p.processNoise), Moved(before.y, dt, p.processNoise);
  }

  lemma PredictionMoves(v: Axis, dt: real, q: real)
    ensures Predicted(v, dt, q) == Moved(v, dt, q)
  {
  }

  lemma AxisIsWeighed(v: Axis, r: real, other: real, measured: real)
    requires v.a > 0.0 && r > 0.0 && other >= r && r * r >= SMALLEST_DETERMINANT
    ensures Weighed(v, r, measured, Corrected(v, Weight(v.a + r, other), measured))
  {
    ProductGrows(v.a + r, other, r, r);
    WeightIsExact(v.a + r, other);
    CorrectionIsWeighed(v, Weight(v.a + r, other), r, measured);
  }

  /** What a measurement further ahead does to one axis, given its predicted covariance of position and speed. */
  predicate PulledFurther(covariance: real, near: real, far: real, w: Axis, w': Axis) {
    && (near == far ==> w == w')
    && (near < far ==>
          && w.position < w'.position
          && (covariance > 0.0 ==> w.speed < w'.speed)
          && (covariance < 0.0 ==> w.speed > w'.speed)
          && (covariance == 0.0 ==> w.speed == w'.speed)
          && w.a == w'.a && w.b == w'.b && w.c == w'.c)
  }

  /** Pulling with weight `g` from `x` towards a farther point goes farther, back, or nowhere, by the sign of `g`. */
  lemma PulledBySign(g: real, x: real, near: real, far: real)
    requires near < far
    ensures g > 0.0 ==> g * (near - x) < g * (far - x)
    ensures g < 0.0 ==> g * (near - x) > g * (far - x)
    ensures g == 0.0 ==> g * (near - x) == g * (far - x)
  {
    var d := far - near;
    assert g * (far - x) == g * (near - x) + g * d;
    if g > 0.0 {
      ProductIsPositive(g, d);
    } else if g < 0.0 {
      ProductIsPositive(-g, d);
    }
  }

  lemma SignOfProduct(b: real, k: real)
    requires k > 0.0
    ensures (b > 0.0 ==> b * k > 0.0) && (b < 0.0 ==> b * k < 0.0) && (b == 0.0 ==> b * k == 0.0)
  {
  }

  lemma ShiftKeepsOrder(x: real, d: real, d': real, y: real, y': real)
    requires y == x + d && y' == x + d'
    ensures (d < d' <==> y < y') && (d == d' <==> y == y')
  {
  }

  lemma AxisIsPulled(v: Axis, k: real, near: real, far: real)
    requires v.a > 0.0 && k > 0.0
    ensures PulledFurther(v.b, near, far, Corrected(v, k, near), Corrected(v, k, far))
  {
    if near < far {
      SignOfProduct(v.a, k);
      SignOfProduct(v.b, k);
      var w, w' := Corrected(v, k, near), Corrected(v, k, far);
      PulledBySign(v.a * k, v.position, near, far);
      PulledBySign(v.b * k, v.position, near, far);
      ShiftKeepsOrder(v.position, v.a * k * (near - v.position), v.a * k * (far - v.position), w.position, w'.position);
      ShiftKeepsOrder(v.speed, v.b * k * (near - v.position), v.b * k * (far - v.position), w.speed, w'.speed);
    }
  }

  /**
   Clamped or not: a sample further ahead along an axis gives a larger position there, and a larger or smaller speed as
   the predicted covariance of position and speed is positive or negative; the other axis does not see it.
   */
  lemma FurtherSamplePullsFurther(
      g: Projection, p: Parameters, before: Filter, near: Coordinate, far: Coordinate, now: real, dt: real)
    requires Noisy(p) && Sound(before) && before.Tracking? && Elapsed(dt, before.last, now, p.maxDt)
    ensures
      var w, w' := Updated(g, p, before, near, now), Updated(g, p, before, far, now);
      var m, m' := g.toLocal(before.origin, near), g.toLocal(before.origin, far);
      && w.Tracking? && w'.Tracking?
      && PulledFurther(before.x.b + dt * before.x.c, m.x, m'.x, w.x, w'.x)
      && PulledFurther(before.y.b + dt * before.y.c, m.y, m'.y, w.y, w'.y)
  {
    var r, m, m' := p.measurementNoise, g.toLocal(before.origin, near), g.toLocal(before.origin, far);
    var x, y := UpdatedByAxis(g, p, before, near, now, dt);
    var _, _ := UpdatedByAxis(g, p, before, far, now, dt);
    WeightIsSmall(x.a, x.a + r, y.a + r);
    WeightIsSmall(y.a, y.a + r, x.a + r);
    AxisIsPulled(x, Weight(x.a + r, y.a + r), m.x, m'.x);
    AxisIsPulled(y, Weight(y.a + r, x.a + r), m.y, m'.y);
  }

  lemma SecondSample(m: real, after: Axis)
    requires Weighed(Moved(Axis(0.0, 0.0, 1.0, 0.0, 1.0), 1.0, 0.0), 1.0, m, after)
    ensures after == Axis(m * 2.0 / 3.0, m / 3.0, 2.0 / 3.0, 1.0 / 3.0, 2.0 / 3.0)
  {
    assert Moved(Axis(0.0, 0.0, 1.0, 0.0, 1.0), 1.0, 0.0) == Axis(0.0, 0.0, 2.0, 1.0, 1.0);
  }

  lemma ThirdSample(m: real, n: real, after: Axis)
    requires Weighed(Moved(Axis(m * 2.0 / 3.0, m / 3.0, 2.0 / 3.0, 1.0 / 3.0, 2.0 / 3.0), 1.0, 0.0), 1.0, n, after)
    ensures after.position == m / 3.0 + n * 2.0 / 3.0
  {
    var v := Moved(Axis(m * 2.0 / 3.0, m / 3.0, 2.0 / 3.0, 1.0 / 3.0, 2.0 / 3.0), 1.0, 0.0);
    assert v.position == m && v.a == 2.0;
  }

  /** Two samples, a second and a metre apart each: the filter trails the second metre by a third of it. */
  lemma ThreeSamples(g: Projection, at: Coordinate, one: Coordinate, two: Coordinate)
    requires g.toLocal(at, one) == Metres(1.0, 0.0) && g.toLocal(at, two) == Metres(2.0, 0.0)
    ensures
      var p := Parameters(0.0, 1.0, 1.0);
      var s := Updated(g, p, Updated(g, p, Updated(g, p, Empty, at, 0.0), one, 1.0), two, 2.0);
      s.Tracking? && s.x.position == 5.0 / 3.0 && s.y.position == 0.0
  {
    hide Weighed, Moved, Corrected, Predicted, Weight;
    var p := Parameters(0.0, 1.0, 1.0);
    var s1 := Updated(g, p, Empty, at, 0.0);
    UpdateStaysSound(g, p, Empty, at, 0.0);
    SampleIsWeighed(g, p, s1, one, 1.0, 1.0);
    var s2 := Updated(g, p, s1, one, 1.0);
    SecondSample(1.0, s2.x);
    SecondSample(0.0, s2.y);
    UpdateStaysSound(g, p, s1, one, 1.0);
    SampleIsWeighed(g, p, s2, two, 2.0, 1.0);
    var s3 := Updated(g, p, s2, two, 2.0);
    ThirdSample(1.0, 2.0, s3.x);
    ThirdSample(0.0, 0.0, s3.y);
  }
}
