// The escape-time test run for every pixel: iterate z <- z^2 + c from z = 0
// and count the steps taken while |z|^2 < 4, up to MAX_ITERATION.
module Escape {

  const MAX_ITERATION: int := 1000

  /** A point of the complex plane, x + i*y. */
  datatype Point = Point(x: real, y: real)

  const ORIGIN: Point := Point(0.0, 0.0)

  /** |z|^2, the quantity the loop compares against 2*2. */
  function Norm2(z: Point): real {
    z.x * z.x + z.y * z.y
  }

  predicate InsideRadius(z: Point) {
    Norm2(z) < 2.0 * 2.0
  }

  /** Complex addition. */
  function CAdd(a: Point, b: Point): Point {
    Point(a.x + b.x, a.y + b.y)
  }

  /** Complex multiplication: (a.x + i*a.y)(b.x + i*b.y). */
  function CMul(a: Point, b: Point): Point {
    Point(a.x * b.x - a.y * b.y, a.x * b.y + a.y * b.x)
  }

  /** One step of the recurrence for c = x0 + i*y0, written out in coordinates
    * as the loop body computes it: both new coordinates come from the previous
    * pair, the new x being kept in a temporary until the new y is computed. */
  function Step(z: Point, x0: real, y0: real): Point {
    Point(z.x * z.x - z.y * z.y + x0, 2.0 * z.x * z.y + y0)
  }

  /** The coordinate update is the complex map z <- z*z + c. */
  lemma StepIsSquarePlusC(z: Point, x0: real, y0: real)
    ensures Step(z, x0, y0) == CAdd(CMul(z, z), Point(x0, y0))
  {
    assert z.x * z.y + z.y * z.x == 2.0 * z.x * z.y;
  }

  /** The temporary matters: at z = 1 + i and c = 0 the step gives 2i, while
    * overwriting x before computing y would give 0. */
  lemma TemporaryMatters()
    ensures Step(Point(1.0, 1.0), 0.0, 0.0) == CAdd(CMul(Point(1.0, 1.0), Point(1.0, 1.0)), ORIGIN)
    ensures Step(Point(1.0, 1.0), 0.0, 0.0) == Point(0.0, 2.0)
    ensures var x := 1.0 * 1.0 - 1.0 * 1.0; Point(x, 2.0 * x * 1.0 + 0.0) == ORIGIN
  {
    StepIsSquarePlusC(Point(1.0, 1.0), 0.0, 0.0);
  }

  /** The n-th point of the orbit of 0 under z <- z^2 + c. */
  function Orbit(x0: real, y0: real, n: nat): Point {
    if n == 0 then ORIGIN else Step(Orbit(x0, y0, n - 1), x0, y0)
  }

  /** The reference meaning of an iteration count n: the orbit stays inside
    * radius 2 for the first n points, and either the cap is reached or the
    * n-th point lies outside. */
  ghost predicate IsEscapeTime(x0: real, y0: real, n: int) {
    0 <= n <= MAX_ITERATION &&
    (forall k :: 0 <= k < n ==> InsideRadius(Orbit(x0, y0, k))) &&
    (n == MAX_ITERATION || !InsideRadius(Orbit(x0, y0, n)))
  }

  /** The count the loop ends with when it is at z after `it` steps. */
  function EscapeFrom(x0: real, y0: real, z: Point, it: nat): (r: nat)
    requires it <= MAX_ITERATION
    ensures it <= r <= MAX_ITERATION
    decreases MAX_ITERATION - it
  {
    if InsideRadius(z) && it < MAX_ITERATION then EscapeFrom(x0, y0, Step(z, x0, y0), it + 1)
    else it
  }

  /** The iteration count of the plane point (x0, y0). It is never 0: the
    * orbit starts at 0, inside the radius, so the loop body always runs. */
  function EscapeTime(x0: real, y0: real): (r: nat)
    ensures 1 <= r <= MAX_ITERATION
  {
    EscapeFrom(x0, y0, ORIGIN, 0)
  }

  lemma {:induction false} EscapeFromMeetsSpec(x0: real, y0: real, it: nat)
    requires it <= MAX_ITERATION
    requires forall k :: 0 <= k < it ==> InsideRadius(Orbit(x0, y0, k))
    ensures IsEscapeTime(x0, y0, EscapeFrom(x0, y0, Orbit(x0, y0, it), it))
    decreases MAX_ITERATION - it
  {
    var z := Orbit(x0, y0, it);
    if InsideRadius(z) && it < MAX_ITERATION {
      assert Orbit(x0, y0, it + 1) == Step(z, x0, y0);
      EscapeFromMeetsSpec(x0, y0, it + 1);
    }
  }

  /** The computed count is the first exit from radius 2, capped at MAX_ITERATION. */
  lemma EscapeTimeMeetsSpec(x0: real, y0: real)
    ensures IsEscapeTime(x0, y0, EscapeTime(x0, y0))
  {
    EscapeFromMeetsSpec(x0, y0, 0);
  }

  /** The reference meaning pins the count down: at most one n satisfies it. */
  lemma EscapeTimeUnique(x0: real, y0: real, n: int, m: int)
    requires IsEscapeTime(x0, y0, n) && IsEscapeTime(x0, y0, m)
    ensures n == m
  {
  }

  /** Both directions: a count is the escape time exactly when it meets the reference meaning. */
  lemma EscapeTimeCharacterized(x0: real, y0: real, n: int)
    ensures IsEscapeTime(x0, y0, n) <==> n == EscapeTime(x0, y0)
  {
    EscapeTimeMeetsSpec(x0, y0);
    if IsEscapeTime(x0, y0, n) {
      EscapeTimeUnique(x0, y0, n, EscapeTime(x0, y0));
    }
  }

  lemma {:induction false} OriginOrbitStaysAtOrigin(n: nat)
    ensures Orbit(0.0, 0.0, n) == ORIGIN
  {
    if n > 0 {
      OriginOrbitStaysAtOrigin(n - 1);
    }
  }

  /** A point whose first MAX_ITERATION orbit points all stay inside radius 2 gets the cap. */
  lemma BoundedOrbitReachesCap(x0: real, y0: real)
    requires forall k :: 0 <= k < MAX_ITERATION ==> InsideRadius(Orbit(x0, y0, k))
    ensures EscapeTime(x0, y0) == MAX_ITERATION
  {
    EscapeTimeMeetsSpec(x0, y0);
  }

  /** The origin is in the set: it never escapes, so its count is the cap. */
  lemma OriginNeverEscapes()
    ensures EscapeTime(0.0, 0.0) == MAX_ITERATION
  {
    forall k | 0 <= k < MAX_ITERATION
      ensures InsideRadius(Orbit(0.0, 0.0, k))
    {
      OriginOrbitStaysAtOrigin(k);
    }
    BoundedOrbitReachesCap(0.0, 0.0);
  }

  /** The point (2, 0) leaves after one step: z1 = (2, 0) and 2*2 + 0*0 < 4 fails. */
  lemma PointTwoEscapesAfterOneStep()
    ensures Orbit(2.0, 0.0, 1) == Point(2.0, 0.0)
    ensures EscapeTime(2.0, 0.0) == 1
  {
    assert Orbit(2.0, 0.0, 1) == Point(2.0, 0.0);
    EscapeTimeCharacterized(2.0, 0.0, 1);
  }

  /** One turn of the loop body, with the new x kept in a temporary, moves the
    * remaining count from z to its successor. */
  lemma EscapeFromAfterStep(x0: real, y0: real, x: real, y: real, it: nat)
    requires it < MAX_ITERATION && x * x + y * y < 2.0 * 2.0
    ensures EscapeFrom(x0, y0, Point(x, y), it)
         == EscapeFrom(x0, y0, Point(x * x - y * y + x0, 2.0 * x * y + y0), it + 1)
  {
    assert Point(x * x - y * y + x0, 2.0 * x * y + y0) == Step(Point(x, y), x0, y0);
  }

  /** The inner `while` loop of the render pass, for one pixel's plane point. */
  method EscapeIterations(x0: real, y0: real) returns (iteration: int)
    ensures iteration == EscapeTime(x0, y0)
    ensures 1 <= iteration <= MAX_ITERATION
  {
    var x := 0.0;
    var y := 0.0;
    iteration := 0;
    while x * x + y * y < 2.0 * 2.0 && iteration < MAX_ITERATION
      invariant 0 <= iteration <= MAX_ITERATION
      invariant EscapeFrom(x0, y0, Point(x, y), iteration) == EscapeTime(x0, y0)
      decreases MAX_ITERATION - iteration
    {
      EscapeFromAfterStep(x0, y0, x, y, iteration);
      var xtemp := x * x - y * y + x0;
      y := 2.0 * x * y + y0;
      x := xtemp;
      iteration := iteration + 1;
    }
  }
}
