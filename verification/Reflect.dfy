/** Folding a travelled distance back and forth inside a range, as a pointer turning round at an edge. */
module Reflect {

  const HALVES: real := 2.0

  function Abs(x: real): real {
    if x < 0.0 then -x else x
  }

  /** Truncation toward zero. */
  function Trunc(x: real): int {
    if x < 0.0 then -((-x).Floor) else x.Floor
  }

  /** The C library's floating remainder: it has the sign of the first operand. */
  function Fmod(x: real, y: real): real
    requires y != 0.0
  {
    x - Trunc(x / y) as real * y
  }

  function Period(range: real): (period: real)
    ensures 0.0 < range ==> range < period
  {
    range * HALVES
  }

  function Reflected(value: real, range: real): real
    requires 0.0 < range
  {
    var period := Period(range);
    var remainder := Fmod(value, period);
    var folded := if remainder < 0.0 then remainder + period else remainder;
    if folded <= range then folded else period - folded
  }

  function Multiple(period: real, k: int): real {
    Product(k as real, period)
  }

  function Product(a: real, b: real): real {
    a * b
  }

  /** The distance from `value` to the k-th multiple of the period. */
  function Distance(value: real, range: real, k: int): real {
    Abs(value - Multiple(Period(range), k))
  }

  lemma MultipleSum(period: real, j: int, k: int)
    ensures Multiple(period, j + k) == Multiple(period, j) + Multiple(period, k)
    ensures Multiple(period, 1) == period && Multiple(period, 0) == 0.0
  {
  }

  lemma MultipleGrows(period: real, j: int)
    requires 0.0 < period
    ensures j <= 0 ==> Multiple(period, j) <= 0.0
    ensures 1 <= j ==> period <= Multiple(period, j)
  {
    if j <= 0 {
      Positive((-j) as real, period);
    } else {
      Positive((j - 1) as real, period);
    }
  }

  lemma Between(q: real, k: int, period: real)
    requires 0.0 < period && k as real <= q < (k + 1) as real
    ensures Multiple(period, k) <= Product(q, period) < Multiple(period, k) + period
  {
    hide Product;
    Grows(k as real, q, period);
    Grows(q, (k + 1) as real, period);
    MultipleSum(period, k, 1);
  }

  lemma Grows(a: real, b: real, period: real)
    requires 0.0 < period && a <= b
    ensures Product(a, period) <= Product(b, period) && (a < b ==> Product(a, period) < Product(b, period))
  {
    Positive(b - a, period);
  }

  lemma Positive(a: real, b: real)
    requires 0.0 <= a && 0.0 < b
    ensures 0.0 <= a * b && (0.0 < a ==> 0.0 < a * b)
  {
  }

  lemma QuotientBack(value: real, period: real)
    requires 0.0 < period
    ensures Product(value / period, period) == value
  {
  }

  /** Folding brings the value between zero and the period, a whole number of periods away. */
  lemma FoldedIsAPeriodShift(value: real, period: real) returns (k: int)
    requires 0.0 < period
    ensures var remainder := Fmod(value, period);
      var folded := if remainder < 0.0 then remainder + period else remainder;
      folded == value - Multiple(period, k) && 0.0 <= folded < period
  {
    var q := value / period;
    k := q.Floor;
    Between(q, k, period);
    QuotientBack(value, period);
    MultipleSum(period, k, 1);
    assert Trunc(q) == k || Trunc(q) == k + 1;
    assert Fmod(value, period) == value - Multiple(period, Trunc(q));
  }

  /** Between two multiples, one of them is the nearest of all. */
  lemma NoMultipleIsNearer(folded: real, period: real, j: int)
    requires 0.0 <= folded < period
    ensures folded <= Abs(folded - Multiple(period, j)) || period - folded <= Abs(folded - Multiple(period, j))
  {
    MultipleGrows(period, j);
  }

  /** Folding is the distance to the nearest multiple of the period. */
  lemma ReflectedIsNearestDistance(value: real, range: real)
    requires 0.0 < range
    ensures exists k :: Reflected(value, range) == Distance(value, range, k)
    ensures forall j :: Reflected(value, range) <= Distance(value, range, j)
    ensures 0.0 <= Reflected(value, range) <= range
  {
    hide Multiple, Fmod;
    var period := Period(range);
    var k := FoldedIsAPeriodShift(value, period);
    var folded := value - Multiple(period, k);
    MultipleSum(period, k, 1);
    assert Distance(value, range, k) == folded && Distance(value, range, k + 1) == period - folded;
    forall j ensures Reflected(value, range) <= Distance(value, range, j) {
      NoMultipleIsNearer(folded, period, j - k);
      MultipleSum(period, k, j - k);
    }
  }

  lemma ReflectedIsEven(value: real, range: real)
    requires 0.0 < range
    ensures Reflected(-value, range) == Reflected(value, range)
  {
    hide Multiple, Reflected, Distance;
    ReflectedIsNearestDistance(value, range);
    ReflectedIsNearestDistance(-value, range);
    var k :| Reflected(-value, range) == Distance(-value, range, k);
    var j :| Reflected(value, range) == Distance(value, range, j);
    MirroredDistance(value, range, k);
    MirroredDistance(value, range, -j);
  }

  lemma MirroredDistance(value: real, range: real, k: int)
    ensures Distance(-value, range, k) == Distance(value, range, -k)
  {
    hide Multiple, Period;
    MultipleSum(Period(range), k, -k);
  }

  lemma ReflectedIsPeriodic(value: real, range: real, times: int)
    requires 0.0 < range
    ensures Reflected(value + Multiple(Period(range), times), range) == Reflected(value, range)
  {
    hide Multiple, Reflected, Distance, Period;
    var moved := value + Multiple(Period(range), times);
    ReflectedIsNearestDistance(value, range);
    ReflectedIsNearestDistance(moved, range);
    var k :| Reflected(moved, range) == Distance(moved, range, k);
    var j :| Reflected(value, range) == Distance(value, range, j);
    ShiftedDistance(value, range, times, k);
    ShiftedDistance(value, range, times, j + times);
  }

  lemma ShiftedDistance(value: real, range: real, times: int, k: int)
    ensures Distance(value + Multiple(Period(range), times), range, k) == Distance(value, range, k - times)
  {
    hide Multiple, Period;
    MultipleSum(Period(range), k - times, times);
  }

  /** Folding never moves two values further apart. */
  lemma ReflectedIsLipschitz(u: real, v: real, range: real)
    requires 0.0 < range
    ensures Abs(Reflected(u, range) - Reflected(v, range)) <= Abs(u - v)
  {
    hide Multiple, Reflected;
    ReflectedIsNearestDistance(u, range);
    ReflectedIsNearestDistance(v, range);
    var k :| Reflected(u, range) == Distance(u, range, k);
    var j :| Reflected(v, range) == Distance(v, range, j);
    assert Reflected(u, range) <= Distance(u, range, j);
    assert Reflected(v, range) <= Distance(v, range, k);
  }

  // ---- The trail of samples ----

  const SURFACE_WIDTH: real := 3200.0
  const SURFACE_HEIGHT: real := 2000.0
  const ORIGIN: real := 40.0
  const STEP_X: real := 3.0
  const STEP_Y: real := 1.75

  function Travelled(index: nat, step: real, stepScale: real): real {
    index as real * step * stepScale
  }

  function SampleX(index: nat, stepScale: real): real {
    ORIGIN + Reflected(Travelled(index, STEP_X, stepScale), SURFACE_WIDTH - ORIGIN * HALVES)
  }

  function SampleY(index: nat, stepScale: real): real {
    ORIGIN + Reflected(Travelled(index, STEP_Y, stepScale), SURFACE_HEIGHT - ORIGIN * HALVES)
  }

  /** Every sample is inside the inset surface, and consecutive samples are never further apart on either
      axis than the step. */
  lemma TrailStaysAndNeverJumps(index: nat, stepScale: real)
    ensures ORIGIN <= SampleX(index, stepScale) <= SURFACE_WIDTH - ORIGIN
    ensures ORIGIN <= SampleY(index, stepScale) <= SURFACE_HEIGHT - ORIGIN
    ensures Abs(SampleX(index + 1, stepScale) - SampleX(index, stepScale)) <= Abs(Travelled(1, STEP_X, stepScale))
    ensures Abs(SampleY(index + 1, stepScale) - SampleY(index, stepScale)) <= Abs(Travelled(1, STEP_Y, stepScale))
  {
    hide Reflected, Travelled;
    SampleMoves(index, STEP_X, stepScale, SURFACE_WIDTH - ORIGIN * HALVES);
    SampleMoves(index, STEP_Y, stepScale, SURFACE_HEIGHT - ORIGIN * HALVES);
  }

  /** A sample is as far from the margin as what was travelled is from some even number of crossings; on the first
      crossing that is just what was travelled. */
  lemma SampleIsFolded(index: nat, stepScale: real) returns (j: int, k: int)
    ensures var x, y := index as real * 3.0 * stepScale, index as real * 1.75 * stepScale;
      && SampleX(index, stepScale) - 40.0 == Abs(x - j as real * 6240.0)
      && SampleY(index, stepScale) - 40.0 == Abs(y - k as real * 3840.0)
      && (0.0 <= x <= 3120.0 ==> SampleX(index, stepScale) == 40.0 + x)
      && (0.0 <= y <= 1920.0 ==> SampleY(index, stepScale) == 40.0 + y)
  {
    var x, y := Travelled(index, STEP_X, stepScale), Travelled(index, STEP_Y, stepScale);
    hide Reflected;
    Crossing(x, 3120.0);
    Crossing(y, 1920.0);
    j := FoldedFrom(x, 3120.0, 6240.0);
    k := FoldedFrom(y, 1920.0, 3840.0);
  }

  lemma FoldedFrom(value: real, range: real, period: real) returns (k: int)
    requires 0.0 < range && period == 2.0 * range
    ensures Reflected(value, range) == Abs(value - k as real * period)
  {
    hide Reflected;
    ReflectedIsNearestDistance(value, range);
    k :| Reflected(value, range) == Distance(value, range, k);
  }

  lemma Crossing(value: real, range: real)
    requires 0.0 < range
    ensures 0.0 <= value <= range ==> Reflected(value, range) == value
  {
    if 0.0 <= value <= range {
      var k := FoldedIsAPeriodShift(value, Period(range));
      MultipleGrows(Period(range), k);
      MultipleGrows(Period(range), -k);
      MultipleSum(Period(range), k, -k);
      hide Fmod, Multiple;
    }
  }

  lemma SampleMoves(index: nat, step: real, stepScale: real, range: real)
    requires 0.0 < range
    ensures 0.0 <= Reflected(Travelled(index, step, stepScale), range) <= range
    ensures Abs(Reflected(Travelled(index + 1, step, stepScale), range) - Reflected(Travelled(index, step, stepScale), range))
         <= Abs(Travelled(1, step, stepScale))
  {
    hide Reflected, Travelled;
    ReflectedIsNearestDistance(Travelled(index, step, stepScale), range);
    ReflectedIsLipschitz(Travelled(index + 1, step, stepScale), Travelled(index, step, stepScale), range);
    OneStepFurther(index, step, stepScale);
  }

  lemma OneStepFurther(index: nat, step: real, stepScale: real)
    ensures Travelled(index + 1, step, stepScale) == Travelled(index, step, stepScale) + Travelled(1, step, stepScale)
  {
  }
}
