/**
 The position filter as it runs: a state array and a covariance array updated in place by nested loops.
 Each step is proved against the two-axis filter of `Tracking`.
 */
module RtkKalmanFilters {
  import opened Tracking

  predicate FourByFour(m: array2<real>) { m.Length0 == 4 && m.Length1 == 4 }

  /** The covariance is symmetric, the axes share nothing, and their blocks are those of `x` and `y`. */
  ghost predicate Holds(m: array2<real>, x: Axis, y: Axis)
    requires FourByFour(m)
    reads m
  {
    && m[0, 0] == x.a && m[0, 2] == x.b && m[2, 0] == x.b && m[2, 2] == x.c
    && m[1, 1] == y.a && m[1, 3] == y.b && m[3, 1] == y.b && m[3, 3] == y.c
    && m[0, 1] == 0.0 && m[1, 0] == 0.0 && m[0, 3] == 0.0 && m[3, 0] == 0.0
    && m[2, 1] == 0.0 && m[1, 2] == 0.0 && m[2, 3] == 0.0 && m[3, 2] == 0.0
  }

  function Product(a: array2<real>, row: nat, b: array2<real>, column: nat): real
    requires FourByFour(a) && FourByFour(b) && row < 4 && column < 4
    reads a, b
  {
    a[row, 0] * b[0, column] + a[row, 1] * b[1, column] + a[row, 2] * b[2, column] + a[row, 3] * b[3, column]
  }

  function ProductTransposed(a: array2<real>, row: nat, b: array2<real>, column: nat): real
    requires FourByFour(a) && FourByFour(b) && row < 4 && column < 4
    reads a, b
  {
    a[row, 0] * b[column, 0] + a[row, 1] * b[column, 1] + a[row, 2] * b[column, 2] + a[row, 3] * b[column, 3]
  }

  method SumOfProduct(a: array2<real>, row: nat, b: array2<real>, column: nat) returns (sum: real)
    requires FourByFour(a) && FourByFour(b) && row < 4 && column < 4
    ensures sum == Product(a, row, b, column)
  {
    sum := 0.0;
    for inner := 0 to 4
      invariant sum
        == (if inner > 0 then a[row, 0] * b[0, column] else 0.0) + (if inner > 1 then a[row, 1] * b[1, column] else 0.0)
         + (if inner > 2 then a[row, 2] * b[2, column] else 0.0) + (if inner > 3 then a[row, 3] * b[3, column] else 0.0)
    {
      sum := sum + a[row, inner] * b[inner, column];
    }
  }

  method Multiply(a: array2<real>, b: array2<real>) returns (c: array2<real>)
    requires FourByFour(a) && FourByFour(b)
    ensures fresh(c) && FourByFour(c)
    ensures forall i, j :: 0 <= i < 4 && 0 <= j < 4 ==> c[i, j] == Product(a, i, b, j)
  {
    c := new real[4, 4]((_, _) => 0.0);
    for row := 0 to 4
      invariant forall i, j :: 0 <= i < row && 0 <= j < 4 ==> c[i, j] == Product(a, i, b, j)
    {
      for column := 0 to 4
        invariant forall i, j :: 0 <= i < row && 0 <= j < 4 ==> c[i, j] == Product(a, i, b, j)
        invariant forall j :: 0 <= j < column ==> c[row, j] == Product(a, row, b, j)
      {
        c[row, column] := SumOfProduct(a, row, b, column);
      }
    }
  }

  method SumOfProductTransposed(a: array2<real>, row: nat, b: array2<real>, column: nat) returns (sum: real)
    requires FourByFour(a) && FourByFour(b) && row < 4 && column < 4
    ensures sum == ProductTransposed(a, row, b, column)
  {
    sum := 0.0;
    for inner := 0 to 4
      invariant sum
        == (if inner > 0 then a[row, 0] * b[column, 0] else 0.0) + (if inner > 1 then a[row, 1] * b[column, 1] else 0.0)
         + (if inner > 2 then a[row, 2] * b[column, 2] else 0.0) + (if inner > 3 then a[row, 3] * b[column, 3] else 0.0)
    {
      sum := sum + a[row, inner] * b[column, inner];
    }
  }

  method MultiplyTransposed(a: array2<real>, b: array2<real>) returns (c: array2<real>)
    requires FourByFour(a) && FourByFour(b)
    ensures fresh(c) && FourByFour(c)
    ensures forall i, j :: 0 <= i < 4 && 0 <= j < 4 ==> c[i, j] == ProductTransposed(a, i, b, j)
  {
    c := new real[4, 4]((_, _) => 0.0);
    for row := 0 to 4
      invariant forall i, j :: 0 <= i < row && 0 <= j < 4 ==> c[i, j] == ProductTransposed(a, i, b, j)
    {
      for column := 0 to 4
        invariant forall i, j :: 0 <= i < row && 0 <= j < 4 ==> c[i, j] == ProductTransposed(a, i, b, j)
        invariant forall j :: 0 <= j < column ==> c[row, j] == ProductTransposed(a, row, b, j)
      {
        c[row, column] := SumOfProductTransposed(a, row, b, column);
      }
    }
  }

  /** The transition over `dt`: positions move with the speeds. */
  ghost predicate IsTransition(f: array2<real>, dt: real)
    requires FourByFour(f)
    reads f
  {
    forall i, j :: 0 <= i < 4 && 0 <= j < 4 ==> f[i, j] == if i == j then 1.0 else if j == i + 2 then dt else 0.0
  }

  method Transition(dt: real) returns (f: array2<real>)
    ensures fresh(f) && FourByFour(f) && IsTransition(f, dt)
  {
    f := new real[4, 4]((i, j) => if i == j then 1.0 else if j == i + 2 then dt else 0.0);
  }

  /** `m` with its positions moved on but not yet squared up: the left half of the prediction. */
  ghost predicate Half(m: array2<real>, x: Axis, y: Axis, dt: real)
    requires FourByFour(m)
    reads m
  {
    && m[0, 0] == x.a + dt * x.b && m[0, 2] == x.b + dt * x.c && m[2, 0] == x.b && m[2, 2] == x.c
    && m[1, 1] == y.a + dt * y.b && m[1, 3] == y.b + dt * y.c && m[3, 1] == y.b && m[3, 3] == y.c
    && m[0, 1] == 0.0 && m[1, 0] == 0.0 && m[0, 3] == 0.0 && m[3, 0] == 0.0
    && m[2, 1] == 0.0 && m[1, 2] == 0.0 && m[2, 3] == 0.0 && m[3, 2] == 0.0
  }

  method CarryRows(f: array2<real>, m: array2<real>, dt: real, ghost x: Axis, ghost y: Axis) returns (c: array2<real>)
    requires FourByFour(f) && FourByFour(m) && IsTransition(f, dt) && Holds(m, x, y)
    ensures fresh(c) && FourByFour(c) && Half(c, x, y, dt)
  {
    c := Multiply(f, m);
  }

  method CarryColumns(f: array2<real>, m: array2<real>, dt: real, ghost x: Axis, ghost y: Axis)
    returns (c: array2<real>)
    requires FourByFour(f) && FourByFour(m) && IsTransition(f, dt) && Half(m, x, y, dt)
    ensures fresh(c) && FourByFour(c) && Holds(c, Predicted(x, dt, 0.0), Predicted(y, dt, 0.0))
  {
    c := MultiplyTransposed(m, f);
  }

  method AddNoise(m: array2<real>, q: real, dt: real, ghost x: Axis, ghost y: Axis)
    requires FourByFour(m) && Holds(m, Predicted(x, dt, 0.0), Predicted(y, dt, 0.0))
    modifies m
    ensures Holds(m, Predicted(x, dt, q), Predicted(y, dt, q))
  {
    m[0, 0] := m[0, 0] + q * dt * dt;
    m[1, 1] := m[1, 1] + q * dt * dt;
    m[2, 2] := m[2, 2] + q * dt;
    m[3, 3] := m[3, 3] + q * dt;
  }

  function RowTimes(f: array2<real>, row: nat, v: array<real>): real
    requires FourByFour(f) && v.Length == 4 && row < 4
    reads f, v
  {
    f[row, 0] * v[0] + f[row, 1] * v[1] + f[row, 2] * v[2] + f[row, 3] * v[3]
  }

  method MultiplyVector(f: array2<real>, v: array<real>) returns (moved: array<real>)
    requires FourByFour(f) && v.Length == 4
    ensures fresh(moved) && moved.Length == 4
    ensures forall i :: 0 <= i < 4 ==> moved[i] == RowTimes(f, i, v)
  {
    moved := new real[4](_ => 0.0);
    for row := 0 to 4
      invariant forall i :: 0 <= i < row ==> moved[i] == RowTimes(f, i, v)
      invariant forall i :: row <= i < 4 ==> moved[i] == 0.0
    {
      var column := 0;
      while column < 4
        invariant 0 <= column <= 4
        invariant moved[row]
          == (if column > 0 then f[row, 0] * v[0] else 0.0) + (if column > 1 then f[row, 1] * v[1] else 0.0)
           + (if column > 2 then f[row, 2] * v[2] else 0.0) + (if column > 3 then f[row, 3] * v[3] else 0.0)
        invariant forall i :: 0 <= i < row ==> moved[i] == RowTimes(f, i, v)
        invariant forall i :: row < i < 4 ==> moved[i] == 0.0
      {
        moved[row] := moved[row] + f[row, column] * v[column];
        column := column + 1;
      }
    }
  }

  method MoveState(f: array2<real>, state: array<real>, dt: real) returns (moved: array<real>)
    requires FourByFour(f) && IsTransition(f, dt) && state.Length == 4
    ensures fresh(moved) && moved.Length == 4
    ensures moved[0] == state[0] + dt * state[2] && moved[1] == state[1] + dt * state[3]
    ensures moved[2] == state[2] && moved[3] == state[3]
  {
    moved := MultiplyVector(f, state);
  }

  /** How much each entry of the state follows the x and the y innovation. */
  ghost predicate IsGain(k: array2<real>, x: Axis, y: Axis, wx: real, wy: real)
    requires k.Length0 == 4 && k.Length1 == 2
    reads k
  {
    && k[0, 0] == x.a * wx && k[2, 0] == x.b * wx && k[1, 0] == 0.0 && k[3, 0] == 0.0
    && k[1, 1] == y.a * wy && k[3, 1] == y.b * wy && k[0, 1] == 0.0 && k[2, 1] == 0.0
  }

  function PositionTimes(m: array2<real>, row: nat, p: real, q: real): real
    requires FourByFour(m) && row < 4
    reads m
  {
    m[row, 0] * p + m[row, 1] * q
  }

  method FillGain(m: array2<real>, i00: real, i01: real, i10: real, i11: real) returns (k: array2<real>)
    requires FourByFour(m)
    ensures fresh(k) && k.Length0 == 4 && k.Length1 == 2
    ensures forall i :: 0 <= i < 4 ==> k[i, 0] == PositionTimes(m, i, i00, i10) && k[i, 1] == PositionTimes(m, i, i01, i11)
  {
    k := new real[4, 2]((_, _) => 0.0);
    for row := 0 to 4
      invariant forall i :: 0 <= i < row ==>
        k[i, 0] == PositionTimes(m, i, i00, i10) && k[i, 1] == PositionTimes(m, i, i01, i11)
    {
      k[row, 0] := m[row, 0] * i00 + m[row, 1] * i10;
      k[row, 1] := m[row, 0] * i01 + m[row, 1] * i11;
    }
  }

  /** The innovation covariance inverted, its determinant kept away from zero. */
  method InvertInnovation(s00: real, s01: real, s10: real, s11: real)
    returns (i00: real, i01: real, i10: real, i11: real)
    requires s01 == 0.0 && s10 == 0.0
    ensures i00 == Weight(s00, s11) && i11 == Weight(s11, s00) && i01 == 0.0 && i10 == 0.0
  {
    var determinant := SafeDeterminant(s00 * s11 - s01 * s10);
    assert s00 * s11 - s01 * s10 == s00 * s11 == s11 * s00;
    i00, i01 := s11 / determinant, -s01 / determinant;
    i10, i11 := -s10 / determinant, s00 / determinant;
  }

  method Gain(m: array2<real>, r: real, ghost x: Axis, ghost y: Axis) returns (k: array2<real>)
    requires FourByFour(m) && Holds(m, x, y)
    ensures fresh(k) && k.Length0 == 4 && k.Length1 == 2
    ensures IsGain(k, x, y, Weight(x.a + r, y.a + r), Weight(y.a + r, x.a + r))
  {
    var i00, i01, i10, i11 := InvertInnovation(m[0, 0] + r, m[0, 1], m[1, 0], m[1, 1] + r);
    k := GainOf(m, i00, i01, i10, i11, x, y);
  }

  method GainOf(m: array2<real>, i00: real, i01: real, i10: real, i11: real, ghost x: Axis, ghost y: Axis)
    returns (k: array2<real>)
    requires FourByFour(m) && Holds(m, x, y) && i01 == 0.0 && i10 == 0.0
    ensures fresh(k) && k.Length0 == 4 && k.Length1 == 2 && IsGain(k, x, y, i00, i11)
  {
    k := FillGain(m, i00, i01, i10, i11);
  }

  function CorrectedEntry(m: array2<real>, k: array2<real>, row: nat, column: nat): real
    requires FourByFour(m) && k.Length0 == 4 && k.Length1 == 2 && row < 4 && column < 4
    reads m, k
  {
    m[row, column] - k[row, 0] * m[0, column] - k[row, 1] * m[1, column]
  }

  method FillCovariance(c: array2<real>, m: array2<real>, k: array2<real>)
    requires FourByFour(c) && FourByFour(m) && c != m && k.Length0 == 4 && k.Length1 == 2 && k != c
    modifies c
    ensures forall i, j :: 0 <= i < 4 && 0 <= j < 4 ==> c[i, j] == CorrectedEntry(m, k, i, j)
  {
    for row := 0 to 4
      invariant forall i, j :: 0 <= i < row && 0 <= j < 4 ==> c[i, j] == CorrectedEntry(m, k, i, j)
    {
      for column := 0 to 4
        invariant forall i, j :: 0 <= i < row && 0 <= j < 4 ==> c[i, j] == CorrectedEntry(m, k, i, j)
        invariant forall j :: 0 <= j < column ==> c[row, j] == CorrectedEntry(m, k, row, j)
      {
        var entry := m[row, column] - k[row, 0] * m[0, column] - k[row, 1] * m[1, column];
        assert entry == CorrectedEntry(m, k, row, column);
        c[row, column] := entry;
      }
    }
  }

  /** The corrected covariance is written over the old one. */
  method CorrectCovariance(
      c: array2<real>, m: array2<real>, k: array2<real>, ghost x: Axis, ghost y: Axis, ghost wx: real, ghost wy: real)
    requires FourByFour(c) && FourByFour(m) && c != m && k.Length0 == 4 && k.Length1 == 2 && k != c
    requires Holds(m, x, y) && IsGain(k, x, y, wx, wy)
    modifies c
    ensures Holds(c, Corrected(x, wx, 0.0), Corrected(y, wy, 0.0))
  {
    FillCovariance(c, m, k);
    assert Holds(m, x, y) && IsGain(k, x, y, wx, wy);
    CorrectedX(m, k, x, y, wx, wy);
    CorrectedY(m, k, x, y, wx, wy);
  }

  lemma Swap(a: real, w: real, b: real)
    ensures a * w * b == b * w * a
  {
  }

  lemma CorrectedX(m: array2<real>, k: array2<real>, x: Axis, y: Axis, wx: real, wy: real)
    requires FourByFour(m) && k.Length0 == 4 && k.Length1 == 2 && Holds(m, x, y) && IsGain(k, x, y, wx, wy)
    ensures
      var x' := Corrected(x, wx, 0.0);
      && CorrectedEntry(m, k, 0, 0) == x'.a && CorrectedEntry(m, k, 2, 2) == x'.c
      && CorrectedEntry(m, k, 0, 2) == x'.b && CorrectedEntry(m, k, 2, 0) == x'.b
      && CorrectedEntry(m, k, 0, 1) == 0.0 && CorrectedEntry(m, k, 0, 3) == 0.0
      && CorrectedEntry(m, k, 2, 1) == 0.0 && CorrectedEntry(m, k, 2, 3) == 0.0
  {
    Swap(x.a, wx, x.b);
  }

  lemma CorrectedY(m: array2<real>, k: array2<real>, x: Axis, y: Axis, wx: real, wy: real)
    requires FourByFour(m) && k.Length0 == 4 && k.Length1 == 2 && Holds(m, x, y) && IsGain(k, x, y, wx, wy)
    ensures
      var y' := Corrected(y, wy, 0.0);
      && CorrectedEntry(m, k, 1, 1) == y'.a && CorrectedEntry(m, k, 3, 3) == y'.c
      && CorrectedEntry(m, k, 1, 3) == y'.b && CorrectedEntry(m, k, 3, 1) == y'.b
      && CorrectedEntry(m, k, 1, 0) == 0.0 && CorrectedEntry(m, k, 1, 2) == 0.0
      && CorrectedEntry(m, k, 3, 0) == 0.0 && CorrectedEntry(m, k, 3, 2) == 0.0
  {
    Swap(y.a, wy, y.b);
  }

  function CorrectedAt(moved: array<real>, k: array2<real>, dx: real, dy: real, row: nat): real
    requires moved.Length == 4 && k.Length0 == 4 && k.Length1 == 2 && row < 4
    reads moved, k
  {
    moved[row] + k[row, 0] * dx + k[row, 1] * dy
  }

  method FillState(state: array<real>, moved: array<real>, k: array2<real>, dx: real, dy: real)
    requires state.Length == 4 && moved.Length == 4 && state != moved && k.Length0 == 4 && k.Length1 == 2
    modifies state
    ensures forall i :: 0 <= i < 4 ==> state[i] == CorrectedAt(moved, k, dx, dy, i)
  {
    for row := 0 to 4
      invariant forall i :: 0 <= i < row ==> state[i] == CorrectedAt(moved, k, dx, dy, i)
    {
      state[row] := moved[row] + k[row, 0] * dx + k[row, 1] * dy;
    }
  }

  method CorrectState(
      state: array<real>, moved: array<real>, k: array2<real>, dx: real, dy: real,
      ghost x: Axis, ghost y: Axis, ghost wx: real, ghost wy: real)
    requires state.Length == 4 && moved.Length == 4 && state != moved && k.Length0 == 4 && k.Length1 == 2
    requires IsGain(k, x, y, wx, wy)
    modifies state
    ensures state[0] == moved[0] + x.a * wx * dx && state[2] == moved[2] + x.b * wx * dx
    ensures state[1] == moved[1] + y.a * wy * dy && state[3] == moved[3] + y.b * wy * dy
  {
    FillState(state, moved, k, dx, dy);
  }

  const NOTHING: Axis := Axis(0.0, 0.0, 0.0, 0.0, 0.0)

  class RtkKalmanFilter2D {
    const g: Projection
    const p: Parameters
    var origin: Coordinate
    var lastTimestamp: real
    const state: array<real>
    const covariance: array2<real>
    var initialized: bool

    ghost predicate Valid()
      reads this, state, covariance
    {
      && state.Length == 4 && FourByFour(covariance) && Holds(covariance, X(), Y())
      && (!initialized ==> X() == NOTHING && Y() == NOTHING)
    }

    ghost function X(): Axis
      requires state.Length == 4 && FourByFour(covariance)
      reads state, covariance
    {
      Axis(state[0], state[2], covariance[0, 0], covariance[0, 2], covariance[2, 2])
    }

    ghost function Y(): Axis
      requires state.Length == 4 && FourByFour(covariance)
      reads state, covariance
    {
      Axis(state[1], state[3], covariance[1, 1], covariance[1, 3], covariance[3, 3])
    }

    ghost function View(): Filter
      requires Valid()
      reads this, state, covariance
    {
      if initialized then Tracking(origin, lastTimestamp, X(), Y()) else Empty
    }

    constructor (g: Projection, p: Parameters)
      ensures Valid() && fresh(state) && fresh(covariance) && this.g == g && this.p == p
      ensures View() == Empty
    {
      this.g, this.p := g, p;
      origin, lastTimestamp, initialized := Coordinate(0.0, 0.0), 0.0, false;
      state := new real[4](_ => 0.0);
      covariance := new real[4, 4]((_, _) => 0.0);
    }

    method Reset()
      requires Valid()
      modifies this, state, covariance
      ensures Valid() && View() == Empty
    {
      origin, lastTimestamp := Coordinate(0.0, 0.0), 0.0;
      for row := 0 to 4
        invariant forall i :: 0 <= i < row ==> state[i] == 0.0
        invariant forall i, j :: 0 <= i < row && 0 <= j < 4 ==> covariance[i, j] == 0.0
      {
        state[row] := 0.0;
        for column := 0 to 4
          invariant forall i :: 0 <= i <= row ==> state[i] == 0.0
          invariant forall i, j :: 0 <= i < row && 0 <= j < 4 ==> covariance[i, j] == 0.0
          invariant forall j :: 0 <= j < column ==> covariance[row, j] == 0.0
        {
          covariance[row, column] := 0.0;
        }
      }
      initialized := false;
    }

    method Begin(at: Coordinate, timestamp: real)
      requires Valid() && !initialized
      modifies this, state, covariance
      ensures Valid() && View() == Updated(g, p, Empty, at, timestamp)
    {
      origin := at;
      state[0], state[1], state[2], state[3] := 0.0, 0.0, 0.0, 0.0;
      covariance[0, 0] := p.measurementNoise;
      covariance[1, 1] := p.measurementNoise;
      covariance[2, 2] := 1.0;
      covariance[3, 3] := 1.0;
      lastTimestamp := timestamp;
      initialized := true;
    }

    /** The covariance predicted over `dt`; the filter itself is left alone. */
    method PredictCovariance(f: array2<real>, dt: real) returns (m: array2<real>)
      requires Valid() && FourByFour(f) && IsTransition(f, dt)
      ensures fresh(m) && FourByFour(m)
      ensures Holds(m, Predicted(X(), dt, p.processNoise), Predicted(Y(), dt, p.processNoise))
    {
      var fp := CarryRows(f, covariance, dt, X(), Y());
      m := CarryColumns(f, fp, dt, X(), Y());
      AddNoise(m, p.processNoise, dt, X(), Y());
    }

    method Correct(moved: array<real>, m: array2<real>, measured: Metres, ghost x: Axis, ghost y: Axis)
      requires Valid() && initialized && moved.Length == 4 && FourByFour(m) && Holds(m, x, y)
      requires moved != state && m != covariance
      requires moved[0] == x.position && moved[2] == x.speed && moved[1] == y.position && moved[3] == y.speed
      modifies state, covariance
      ensures Valid()
      ensures X() == Corrected(x, Weight(x.a + p.measurementNoise, y.a + p.measurementNoise), measured.x)
      ensures Y() == Corrected(y, Weight(y.a + p.measurementNoise, x.a + p.measurementNoise), measured.y)
    {
      ghost var wx := Weight(x.a + p.measurementNoise, y.a + p.measurementNoise);
      ghost var wy := Weight(y.a + p.measurementNoise, x.a + p.measurementNoise);
      var k := Gain(m, p.measurementNoise, x, y);
      CorrectWith(moved, m, k, measured, x, y, wx, wy);
    }

    method CorrectWith(
        moved: array<real>, m: array2<real>, k: array2<real>, measured: Metres,
        ghost x: Axis, ghost y: Axis, ghost wx: real, ghost wy: real)
      requires Valid() && initialized && moved.Length == 4 && FourByFour(m) && Holds(m, x, y)
      requires moved != state && m != covariance && k != covariance && k.Length0 == 4 && k.Length1 == 2
      requires moved[0] == x.position && moved[2] == x.speed && moved[1] == y.position && moved[3] == y.speed
      requires IsGain(k, x, y, wx, wy)
      modifies state, covariance
      ensures Valid() && X() == Corrected(x, wx, measured.x) && Y() == Corrected(y, wy, measured.y)
    {
      CorrectState(state, moved, k, measured.x - moved[0], measured.y - moved[1], x, y, wx, wy);
      CorrectCovariance(covariance, m, k, x, y, wx, wy);
    }

    method PredictAndCorrect(dt: real, measured: Metres, ghost x: Axis, ghost y: Axis)
      requires Valid() && initialized && x == X() && y == Y()
      modifies state, covariance
      ensures Valid()
      ensures
        var px, py := Predicted(x, dt, p.processNoise), Predicted(y, dt, p.processNoise);
        && X() == Corrected(px, Weight(px.a + p.measurementNoise, py.a + p.measurementNoise), measured.x)
        && Y() == Corrected(py, Weight(py.a + p.measurementNoise, px.a + p.measurementNoise), measured.y)
    {
      var f := Transition(dt);
      var moved := MoveState(f, state, dt);
      var m := PredictCovariance(f, dt);
      Correct(moved, m, measured, Predicted(x, dt, p.processNoise), Predicted(y, dt, p.processNoise));
    }

    /** One sample: the first only sets the filter up, every later one predicts and corrects it. */
    method Update(at: Coordinate, timestamp: real) returns (point: Point)
      requires Valid()
      modifies this, state, covariance
      ensures Valid() && View() == Updated(g, p, old(View()), at, timestamp)
      ensures point.raw == at && point.timestamp == timestamp && (point.filtered <==> old(View()).Tracking?)
      ensures !point.filtered ==> point.at == at
      ensures point.filtered ==>
                point.at == g.toCoordinate(View().origin, Metres(View().x.position, View().y.position))
    {
      if !initialized {
        Begin(at, timestamp);
        return Point(at, at, timestamp, false);
      }
      ghost var before := View();
      var dt := StepTime(lastTimestamp, timestamp, p.maxDt);
      lastTimestamp := timestamp;
      PredictAndCorrect(dt, g.toLocal(origin, at), before.x, before.y);
      point := Point(at, g.toCoordinate(origin, Metres(state[0], state[1])), timestamp, true);
    }
  }
}
