/** Human-like pointer motion (src/browser/cloudflare.js, lines 1-94).

    `Math.random()` is the only source of randomness: the model reads it as
    a stream `random: nat -> real` of draws in [0, 1), the k-th call
    returning `random(k)`, and every method counts the draws it takes.
    Coordinates are JavaScript numbers; the model keeps them as exact reals
    and rounds with `Math.round` where the source does. The page's mouse
    is the list of events it receives: moves to integer points and the
    pauses taken between them. */
module Motion {
  import opened Wrappers

  /** A draw of `Math.random()`. */
  predicate IsDraw(u: real)
  {
    0.0 <= u < 1.0
  }

  ghost predicate IsRandom(random: nat -> real)
  {
    forall k :: IsDraw(random(k))
  }

  predicate IsWhole(x: real)
  {
    x.Floor as real == x
  }

  lemma MulNonNegative(x: real, y: real)
    requires x >= 0.0 && y >= 0.0
    ensures x * y >= 0.0
  {
  }

  lemma WholeSum(a: real, b: real)
    requires IsWhole(a) && IsWhole(b)
    ensures IsWhole(a + b)
  {
    assert a + b == (a.Floor + b.Floor) as real;
  }

  lemma ScaledDrawFloor(span: real, u: real)
    requires span > 0.0 && IsDraw(u)
    ensures 0 <= (span * u).Floor && (span * u).Floor as real < span
  {
    MulNonNegative(span, u);
    var rest := span - span * u;
    assert rest == span * (1.0 - u);
    MulPositive(span, 1.0 - u);
  }

  lemma MulPositive(x: real, y: real)
    requires x > 0.0 && y > 0.0
    ensures x * y > 0.0
  {
  }

  lemma OffsetWithin(min: real, max: real, n: int)
    requires min <= max && 0 <= n && n as real < max - min + 1.0
    ensures min <= n as real + min < max + 1.0 && IsWhole((n as real + min) - min)
    ensures IsWhole(min) && IsWhole(max) ==> IsWhole(n as real + min) && n as real + min <= max
  {
    assert (n as real + min) - min == n as real;
    if IsWhole(min) && IsWhole(max) {
      WholeSum(n as real, min);
      assert n < max.Floor - min.Floor + 1;
    }
  }

  /** `getRandomInt(min, max)` for the draw `u`. */
  function GetRandomInt(min: real, max: real, u: real): (r: real)
    ensures IsDraw(u) && min <= max ==> min <= r < max + 1.0 && IsWhole(r - min)
    ensures IsDraw(u) && min <= max && IsWhole(min) && IsWhole(max) ==> IsWhole(r) && r <= max
  {
    var span := max - min + 1.0;
    var n := (span * u).Floor;
    if IsDraw(u) && min <= max then
      ScaledDrawFloor(span, u);
      OffsetWithin(min, max, n);
      n as real + min
    else
      n as real + min
  }

  /** `Math.round(x)`: the nearest integer, halves rounded up. */
  function Round(x: real): (r: int)
    ensures x - 0.5 < r as real <= x + 0.5
  {
    (x + 0.5).Floor
  }

  lemma RoundMonotone(x: real, y: real)
    requires x <= y
    ensures Round(x) <= Round(y)
  {
  }

  function RMax(a: real, b: real): real { if a < b then b else a }
  function RMin(a: real, b: real): real { if a < b then a else b }

  /** `Math.max(lo, Math.min(v, hi))`. */
  function Clamp(lo: real, v: real, hi: real): (r: real)
    ensures lo <= hi ==> lo <= r <= hi
    ensures lo <= v <= hi ==> r == v
  {
    RMax(lo, RMin(v, hi))
  }

  datatype Pos = Pos(x: real, y: real)
  datatype Point = Point(x: int, y: int)

  function RoundPos(p: Pos): Point
  {
    Point(Round(p.x), Round(p.y))
  }

  datatype MouseEvent = Move(to: Point) | Pause(ms: int)

  /** The cubic Bezier curve through `p0` and `p3` with control values
      `p1` and `p2`, at parameter `t`. */
  function Bezier(p0: real, p1: real, p2: real, p3: real, t: real): real
  {
    (1.0 - t) * (1.0 - t) * (1.0 - t) * p0
    + 3.0 * (1.0 - t) * (1.0 - t) * t * p1
    + 3.0 * (1.0 - t) * t * t * p2
    + t * t * t * p3
  }

  lemma BezierEnds(p0: real, p1: real, p2: real, p3: real)
    ensures Bezier(p0, p1, p2, p3, 0.0) == p0
    ensures Bezier(p0, p1, p2, p3, 1.0) == p3
  {
  }

  /** On [0, 1] the curve stays between the least and the greatest of its
      four values. */
  lemma BernsteinWeights(s: real, t: real)
    requires s >= 0.0 && t >= 0.0 && s + t == 1.0
    ensures s * s * s >= 0.0 && 3.0 * s * s * t >= 0.0 && 3.0 * s * t * t >= 0.0 && t * t * t >= 0.0
    ensures s * s * s + 3.0 * s * s * t + 3.0 * s * t * t + t * t * t == 1.0
  {
    MulNonNegative(s, s);
    MulNonNegative(s * s, s);
    MulNonNegative(3.0 * s * s, t);
    MulNonNegative(t, t);
    MulNonNegative(3.0 * s, t * t);
    MulNonNegative(t * t, t);
    assert s * s * s + 3.0 * s * s * t + 3.0 * s * t * t + t * t * t == (s + t) * (s + t) * (s + t);
  }

  lemma WeightedWithin(a: real, b: real, c: real, d: real, p0: real, p1: real, p2: real, p3: real, lo: real, hi: real)
    requires a >= 0.0 && b >= 0.0 && c >= 0.0 && d >= 0.0 && a + b + c + d == 1.0
    requires lo <= p0 <= hi && lo <= p1 <= hi && lo <= p2 <= hi && lo <= p3 <= hi
    ensures lo <= a * p0 + b * p1 + c * p2 + d * p3 <= hi
  {
    MulNonNegative(a, p0 - lo); MulNonNegative(b, p1 - lo); MulNonNegative(c, p2 - lo); MulNonNegative(d, p3 - lo);
    MulNonNegative(a, hi - p0); MulNonNegative(b, hi - p1); MulNonNegative(c, hi - p2); MulNonNegative(d, hi - p3);
  }

  lemma BezierWithinHull(p0: real, p1: real, p2: real, p3: real, t: real, lo: real, hi: real)
    requires 0.0 <= t <= 1.0
    requires lo <= p0 <= hi && lo <= p1 <= hi && lo <= p2 <= hi && lo <= p3 <= hi
    ensures lo <= Bezier(p0, p1, p2, p3, t) <= hi
  {
    var s := 1.0 - t;
    BernsteinWeights(s, t);
    WeightedWithin(s * s * s, 3.0 * s * s * t, 3.0 * s * t * t, t * t * t, p0, p1, p2, p3, lo, hi);
  }

  /** The number of steps every caller passes to `smoothMouseMove`. */
  const Steps: nat := 30

  /** A control coordinate: the point `frac` of the way from `s` to `e`,
      moved by up to 75 pixels either way. */
  function ControlValue(s: real, e: real, frac: real, u: real): real
  {
    s + (e - s) * frac + GetRandomInt(-75.0, 75.0, u)
  }

  /** The `i`-th of the `steps + 1` points of `smoothMouseMove`, from the
      four draws taken for it. */
  function PathPoint(s: Pos, e: Pos, steps: nat, i: nat, u1: real, u2: real, u3: real, u4: real): Point
    requires steps >= 1
  {
    var t := i as real / steps as real;
    var controlX1 := ControlValue(s.x, e.x, 0.3, u1);
    var controlY1 := ControlValue(s.y, e.y, 0.3, u2);
    var controlX2 := ControlValue(s.x, e.x, 0.7, u3);
    var controlY2 := ControlValue(s.y, e.y, 0.7, u4);
    Point(Round(Bezier(s.x, controlX1, controlX2, e.x, t)), Round(Bezier(s.y, controlY1, controlY2, e.y, t)))
  }

  /** The points of a move from `s` to `e` whose draws start at the `k`-th. */
  function PathPoints(random: nat -> real, k: nat, s: Pos, e: Pos, steps: nat): (points: seq<Point>)
    requires steps >= 1
    ensures |points| == steps + 1
  {
    seq(steps + 1, i requires 0 <= i <= steps =>
      PathPoint(s, e, steps, i, random(k + 4 * i), random(k + 4 * i + 1), random(k + 4 * i + 2), random(k + 4 * i + 3)))
  }

  /** `n` pauses of `sleep(getRandomInt(20, 50))`, from the draws starting
      at the `k`-th. */
  function DrawnPauses(random: nat -> real, k: nat, n: nat): (pauses: seq<int>)
    ensures |pauses| == n
  {
    seq(n, i requires 0 <= i < n => GetRandomInt(20.0, 50.0, random(k + i)).Floor)
  }

  /** The pauses of a move, one per point, drawn after all the points. */
  function PathPauses(random: nat -> real, k: nat, steps: nat): (pauses: seq<int>)
    ensures |pauses| == steps + 1
  {
    DrawnPauses(random, k + 4 * (steps + 1), steps + 1)
  }

  /** Each point in turn, each followed by its pause. */
  function Interleave(points: seq<Point>, pauses: seq<int>): (events: seq<MouseEvent>)
    requires |points| == |pauses|
    ensures |events| == 2 * |points|
  {
    if points == [] then []
    else
      var n := |points| - 1;
      Interleave(points[..n], pauses[..n]) + [Move(points[n]), Pause(pauses[n])]
  }

  lemma {:induction false} InterleaveAt(points: seq<Point>, pauses: seq<int>, i: nat)
    requires |points| == |pauses| && i < |points|
    ensures Interleave(points, pauses)[2 * i] == Move(points[i])
    ensures Interleave(points, pauses)[2 * i + 1] == Pause(pauses[i])
  {
    var n := |points| - 1;
    if i < n {
      InterleaveAt(points[..n], pauses[..n], i);
    }
  }

  /** What the mouse receives from `smoothMouseMove`. */
  function PathEvents(random: nat -> real, k: nat, s: Pos, e: Pos, steps: nat): (events: seq<MouseEvent>)
    requires steps >= 1
    ensures |events| == 2 * (steps + 1)
  {
    Interleave(PathPoints(random, k, s, e, steps), PathPauses(random, k, steps))
  }

  /** The pauses of a move are drawn right after its points. */
  lemma PathEventsDrawn(random: nat -> real, k: nat, s: Pos, e: Pos, steps: nat)
    requires steps >= 1
    ensures PathEvents(random, k, s, e, steps) == Interleave(PathPoints(random, k, s, e, steps), DrawnPauses(random, k + 4 * (steps + 1), |PathPoints(random, k, s, e, steps)|))
  {
  }

  lemma FirstPathPoint(s: Pos, e: Pos, steps: nat, u1: real, u2: real, u3: real, u4: real)
    requires steps >= 1
    ensures PathPoint(s, e, steps, 0, u1, u2, u3, u4) == RoundPos(s)
  {
    assert 0 as real / steps as real == 0.0;
    BezierEnds(s.x, ControlValue(s.x, e.x, 0.3, u1), ControlValue(s.x, e.x, 0.7, u3), e.x);
    BezierEnds(s.y, ControlValue(s.y, e.y, 0.3, u2), ControlValue(s.y, e.y, 0.7, u4), e.y);
  }

  lemma LastPathPoint(s: Pos, e: Pos, steps: nat, u1: real, u2: real, u3: real, u4: real)
    requires steps >= 1
    ensures PathPoint(s, e, steps, steps, u1, u2, u3, u4) == RoundPos(e)
  {
    assert steps as real / steps as real == 1.0;
    BezierEnds(s.x, ControlValue(s.x, e.x, 0.3, u1), ControlValue(s.x, e.x, 0.7, u3), e.x);
    BezierEnds(s.y, ControlValue(s.y, e.y, 0.3, u2), ControlValue(s.y, e.y, 0.7, u4), e.y);
  }

  lemma PathPointsEnds(random: nat -> real, k: nat, s: Pos, e: Pos, steps: nat)
    requires steps >= 1
    ensures PathPoints(random, k, s, e, steps)[0] == RoundPos(s)
    ensures PathPoints(random, k, s, e, steps)[steps] == RoundPos(e)
  {
    var m := k + 4 * steps;
    FirstPathPoint(s, e, steps, random(k), random(k + 1), random(k + 2), random(k + 3));
    LastPathPoint(s, e, steps, random(m), random(m + 1), random(m + 2), random(m + 3));
  }

  /** A move starts at the rounded start and ends at the rounded end. */
  lemma PathEnds(random: nat -> real, k: nat, s: Pos, e: Pos, steps: nat)
    requires steps >= 1
    ensures PathEvents(random, k, s, e, steps)[0] == Move(RoundPos(s))
    ensures PathEvents(random, k, s, e, steps)[2 * steps] == Move(RoundPos(e))
  {
    PathPointsEnds(random, k, s, e, steps);
    InterleaveAt(PathPoints(random, k, s, e, steps), PathPauses(random, k, steps), 0);
    InterleaveAt(PathPoints(random, k, s, e, steps), PathPauses(random, k, steps), steps);
  }

  lemma ControlWithin(s: real, e: real, frac: real, u: real)
    requires IsDraw(u) && 0.0 <= frac <= 1.0
    ensures RMin(s, e) - 75.0 <= ControlValue(s, e, frac, u) <= RMax(s, e) + 75.0
  {
    assert (-75.0).Floor == -75 && (75.0).Floor == 75;
    var r := GetRandomInt(-75.0, 75.0, u);
    assert -75.0 <= r <= 75.0;
    if s <= e {
      MulNonNegative(e - s, frac);
      MulNonNegative(e - s, 1.0 - frac);
      assert (e - s) * (1.0 - frac) == (e - s) - (e - s) * frac;
    } else {
      MulNonNegative(s - e, frac);
      MulNonNegative(s - e, 1.0 - frac);
      assert (s - e) * (1.0 - frac) == (s - e) - (s - e) * frac;
      assert (e - s) * frac == -((s - e) * frac);
    }
  }

  lemma CoordinateNear(s: real, e: real, t: real, u1: real, u3: real)
    requires IsDraw(u1) && IsDraw(u3) && 0.0 <= t <= 1.0
    ensures Round(RMin(s, e) - 75.0) <= Round(Bezier(s, ControlValue(s, e, 0.3, u1), ControlValue(s, e, 0.7, u3), e, t)) <= Round(RMax(s, e) + 75.0)
  {
    var lo, hi := RMin(s, e) - 75.0, RMax(s, e) + 75.0;
    ControlWithin(s, e, 0.3, u1);
    ControlWithin(s, e, 0.7, u3);
    var b := Bezier(s, ControlValue(s, e, 0.3, u1), ControlValue(s, e, 0.7, u3), e, t);
    BezierWithinHull(s, ControlValue(s, e, 0.3, u1), ControlValue(s, e, 0.7, u3), e, t, lo, hi);
    RoundMonotone(lo, b);
    RoundMonotone(b, hi);
  }

  lemma StepFraction(i: nat, steps: nat)
    requires 1 <= steps && i <= steps
    ensures 0.0 <= i as real / steps as real <= 1.0
  {
  }

  /** Every point of a move lies within 75 pixels (before rounding) of the
      box spanned by its start and its end: the control points stray at
      most that far, and a Bezier curve stays inside the hull of its
      control points. */
  lemma PathStaysNear(random: nat -> real, k: nat, s: Pos, e: Pos, steps: nat, i: nat)
    requires IsRandom(random) && steps >= 1 && i <= steps
    ensures Round(RMin(s.x, e.x) - 75.0) <= PathPoints(random, k, s, e, steps)[i].x <= Round(RMax(s.x, e.x) + 75.0)
    ensures Round(RMin(s.y, e.y) - 75.0) <= PathPoints(random, k, s, e, steps)[i].y <= Round(RMax(s.y, e.y) + 75.0)
  {
    var m := k + 4 * i;
    var t := i as real / steps as real;
    StepFraction(i, steps);
    CoordinateNear(s.x, e.x, t, random(m), random(m + 2));
    CoordinateNear(s.y, e.y, t, random(m + 1), random(m + 3));
    assert PathPoints(random, k, s, e, steps)[i] == PathPoint(s, e, steps, i, random(m), random(m + 1), random(m + 2), random(m + 3));
  }

  /** Every pause lasts from 20 to 50 milliseconds. */
  lemma PausesHuman(random: nat -> real, k: nat, steps: nat, i: nat)
    requires IsRandom(random) && i <= steps
    ensures 20 <= PathPauses(random, k, steps)[i] <= 50
  {
    var u := random(k + 4 * (steps + 1) + i);
    var r := GetRandomInt(20.0, 50.0, u);
    assert PathPauses(random, k, steps)[i] == r.Floor;
    assert IsWhole(r) && 20.0 <= r <= 50.0;
  }

  /** The central 60% of the viewport that `simulateHumanMouse` aims at. */
  datatype Band = Band(lo: Pos, hi: Pos)

  function CentralBand(width: nat, height: nat): (b: Band)
    ensures b.lo.x <= b.hi.x && b.lo.y <= b.hi.y
  {
    Band(Pos(width as real * 0.2, height as real * 0.2), Pos(width as real * 0.8, height as real * 0.8))
  }

  function ClampTo(b: Band, p: Pos): Pos
  {
    Pos(Clamp(b.lo.x, p.x, b.hi.x), Clamp(b.lo.y, p.y, b.hi.y))
  }

  /** The rounded point lies inside the rounded band. */
  predicate InBand(b: Band, p: Point)
  {
    Round(b.lo.x) <= p.x <= Round(b.hi.x) && Round(b.lo.y) <= p.y <= Round(b.hi.y)
  }

  /** The chance of an overshoot. */
  const OvershootChance: real := 0.3

  /** The draws one `smoothMouseMove` of `Steps` steps takes. */
  const PathDraws: nat := 5 * (Steps + 1)

  /** Events received and the index of the next draw. */
  datatype Run = Run(events: seq<MouseEvent>, next: nat)

  /** The overshoot point up to 50 pixels past `end`, from draws `k` and `k + 1`. */
  function Overshoot(random: nat -> real, k: nat, end: Pos): Pos
  {
    Pos(end.x + GetRandomInt(-50.0, 50.0, random(k)), end.y + GetRandomInt(-50.0, 50.0, random(k + 1)))
  }

  /** The overshoot point lies within 50 pixels of the end on each axis, a
      whole number of pixels away. */
  lemma OvershootNear(random: nat -> real, k: nat, end: Pos)
    requires IsDraw(random(k)) && IsDraw(random(k + 1))
    ensures var corner := Overshoot(random, k, end);
      && -50.0 <= corner.x - end.x <= 50.0 && IsWhole(corner.x - end.x)
      && -50.0 <= corner.y - end.y <= 50.0 && IsWhole(corner.y - end.y)
  {
  }

  /** The optional detour of a movement, decided by draw `k`: below 0.3,
      the move from `start` to the overshoot point clamped to the band. */
  function Detour(random: nat -> real, k: nat, b: Band, start: Pos, end: Pos): Run
  {
    if random(k) < OvershootChance then Run(PathEvents(random, k + 3, start, ClampTo(b, Overshoot(random, k + 1, end)), Steps), k + 3 + PathDraws)
    else Run([], k + 1)
  }

  /** Where the final move of a movement starts: the unclamped overshoot
      point after a detour, the start otherwise. */
  function DetourEnd(random: nat -> real, k: nat, start: Pos, end: Pos): Pos
  {
    if random(k) < OvershootChance then Overshoot(random, k + 1, end) else start
  }

  /** Where a movement starts: a point of the band, from draws `k` and
      `k + 1`. */
  function AimStart(random: nat -> real, k: nat, b: Band): Pos
  {
    Pos(GetRandomInt(b.lo.x, b.hi.x, random(k)), GetRandomInt(b.lo.y, b.hi.y, random(k + 1)))
  }

  /** Where it heads: up to 150 pixels away from `start` on each axis, from
      draws `k + 2` and `k + 3`. */
  function AimEnd(random: nat -> real, k: nat, start: Pos): Pos
  {
    Pos(start.x + GetRandomInt(-150.0, 150.0, random(k + 2)), start.y + GetRandomInt(-150.0, 150.0, random(k + 3)))
  }

  /** The end of a movement lies within 150 pixels of its start on each
      axis, a whole number of pixels away. */
  lemma AimEndNear(random: nat -> real, k: nat, start: Pos)
    requires IsDraw(random(k + 2)) && IsDraw(random(k + 3))
    ensures var end := AimEnd(random, k, start);
      && -150.0 <= end.x - start.x <= 150.0 && IsWhole(end.x - start.x)
      && -150.0 <= end.y - start.y <= 150.0 && IsWhole(end.y - start.y)
  {
  }

  /** The moves of a movement from `start` towards `end`, its draws from
      the `k`-th on: the optional detour, then the move to the end clamped
      to the band. */
  function MoveFrom(random: nat -> real, k: nat, b: Band, start: Pos, end: Pos): Run
  {
    var detour := Detour(random, k, b, start, end);
    Run(detour.events + PathEvents(random, detour.next, DetourEnd(random, k, start, end), ClampTo(b, end), Steps), detour.next + PathDraws)
  }

  /** One movement of `simulateHumanMouse` whose draws start at the `k`-th:
      a start in the band, an end up to 150 pixels away from it, the
      optional detour, then the move to the end clamped to the band. */
  function Movement(random: nat -> real, k: nat, b: Band): Run
  {
    var start := AimStart(random, k, b);
    MoveFrom(random, k + 4, b, start, AimEnd(random, k, start))
  }

  lemma MovementFrom(random: nat -> real, k: nat, b: Band)
    ensures Movement(random, k, b) == MoveFrom(random, k + 4, b, AimStart(random, k, b), AimEnd(random, k, AimStart(random, k, b)))
  {
  }

  /** A movement whose start and end are known is its detour followed by
      the final move. */
  lemma MovementIs(random: nat -> real, k: nat, b: Band, start: Pos, end: Pos)
    requires start == AimStart(random, k, b) && end == AimEnd(random, k, start)
    ensures Movement(random, k, b).events == Detour(random, k + 4, b, start, end).events + PathEvents(random, Detour(random, k + 4, b, start, end).next, DetourEnd(random, k + 4, start, end), ClampTo(b, end), Steps)
    ensures Movement(random, k, b).next == Detour(random, k + 4, b, start, end).next + PathDraws
  {
    assert Movement(random, k, b) == MoveFrom(random, k + 4, b, start, end);
  }

  /** `n` runs of `step` one after the other, the first from draw `k` and
      each next one from the draw where the one before it stopped. */
  function Repeat(step: nat -> Run, k: nat, n: nat): Run
  {
    if n == 0 then Run([], k)
    else
      var before := Repeat(step, k, n - 1);
      var last := step(before.next);
      Run(before.events + last.events, last.next)
  }

  /** `n` movements one after the other. */
  function Movements(random: nat -> real, k: nat, b: Band, n: nat): Run
  {
    Repeat((j: nat) => Movement(random, j, b), k, n)
  }

  /** `simulateHumanMouse` on a `width` by `height` viewport: one draw for
      the number of movements, then the movements. */
  function HumanMouse(random: nat -> real, k: nat, width: nat, height: nat): Run
    requires IsDraw(random(k))
  {
    var count: nat := GetRandomInt(1.0, 2.0, random(k)).Floor;
    Movements(random, k + 1, CentralBand(width, height), count)
  }

  /** `getRandomInt(1, 2)` makes one or two movements. */
  lemma MovementCount(u: real)
    requires IsDraw(u)
    ensures GetRandomInt(1.0, 2.0, u).Floor == 1 || GetRandomInt(1.0, 2.0, u).Floor == 2
  {
    assert (1.0).Floor == 1 && (2.0).Floor == 2;
    var r := GetRandomInt(1.0, 2.0, u);
    assert IsWhole(r) && 1.0 <= r <= 2.0;
  }

  /** What the mouse sees is moves and pauses in turn, each pause lasting
      from 20 to 50 milliseconds. */
  predicate Humanlike(events: seq<MouseEvent>)
  {
    && |events| % 2 == 0
    && forall j :: 0 <= j < |events| ==>
         if j % 2 == 0 then events[j].Move? else events[j].Pause? && 20 <= events[j].ms <= 50
  }

  lemma PathHumanlike(random: nat -> real, k: nat, s: Pos, e: Pos, steps: nat)
    requires IsRandom(random) && steps >= 1
    ensures Humanlike(PathEvents(random, k, s, e, steps))
  {
    var pauses := PathPauses(random, k, steps);
    forall i | 0 <= i < |pauses|
      ensures 20 <= pauses[i] <= 50
    {
      PausesHuman(random, k, steps, i);
    }
    InterleaveHumanlike(PathPoints(random, k, s, e, steps), pauses);
  }

  /** Points interleaved with pauses of 20 to 50 milliseconds. */
  lemma InterleaveHumanlike(points: seq<Point>, pauses: seq<int>)
    requires |points| == |pauses|
    requires forall i :: 0 <= i < |pauses| ==> 20 <= pauses[i] <= 50
    ensures Humanlike(Interleave(points, pauses))
  {
    var events := Interleave(points, pauses);
    forall j | 0 <= j < |events|
      ensures if j % 2 == 0 then events[j].Move? else events[j].Pause? && 20 <= events[j].ms <= 50
    {
      var i := j / 2;
      assert j == 2 * i + j % 2;
      InterleaveAt(points, pauses, i);
    }
  }

  lemma HumanlikeAppend(a: seq<MouseEvent>, b: seq<MouseEvent>)
    requires Humanlike(a) && Humanlike(b)
    ensures Humanlike(a + b)
  {
    forall j | |a| <= j < |a| + |b|
      ensures (j - |a|) % 2 == j % 2
    {
      assert j == (j - |a|) + 2 * (|a| / 2);
    }
  }

  /** A target clamped to the band rounds into the rounded band. */
  lemma RoundedClampInBand(b: Band, p: Pos)
    requires b.lo.x <= b.hi.x && b.lo.y <= b.hi.y
    ensures InBand(b, RoundPos(ClampTo(b, p)))
  {
    var c := ClampTo(b, p);
    RoundMonotone(b.lo.x, c.x);
    RoundMonotone(c.x, b.hi.x);
    RoundMonotone(b.lo.y, c.y);
    RoundMonotone(c.y, b.hi.y);
  }

  /** A movement is one move of 31 points, or two with a detour, and it
      takes 5 draws plus those of its moves. */
  lemma MovementShape(random: nat -> real, k: nat, b: Band)
    ensures |Movement(random, k, b).events| == if random(k + 4) < OvershootChance then 4 * (Steps + 1) else 2 * (Steps + 1)
    ensures 62 <= |Movement(random, k, b).events| <= 124
    ensures Movement(random, k, b).next == k + if random(k + 4) < OvershootChance then 7 + 2 * PathDraws else 5 + PathDraws
  {
    var start := AimStart(random, k, b);
    var end := AimEnd(random, k, start);
    MovementIs(random, k, b, start, end);
  }

  lemma MovementHumanlike(random: nat -> real, k: nat, b: Band)
    requires IsRandom(random)
    ensures Humanlike(Movement(random, k, b).events)
  {
    var start := AimStart(random, k, b);
    var end := AimEnd(random, k, start);
    MovementIs(random, k, b, start, end);
    var detour := Detour(random, k + 4, b, start, end);
    if random(k + 4) < OvershootChance {
      PathHumanlike(random, k + 7, start, ClampTo(b, Overshoot(random, k + 5, end)), Steps);
    }
    PathHumanlike(random, detour.next, DetourEnd(random, k + 4, start, end), ClampTo(b, end), Steps);
    HumanlikeAppend(detour.events, PathEvents(random, detour.next, DetourEnd(random, k + 4, start, end), ClampTo(b, end), Steps));
  }

  /** A movement begins with a move to its rounded start, which lies in the
      band rounded outwards by at most one pixel, and inside the rounded
      band when the band's edges are whole pixels. */
  lemma MovementStart(random: nat -> real, k: nat, b: Band)
    requires IsDraw(random(k)) && IsDraw(random(k + 1))
    requires b.lo.x <= b.hi.x && b.lo.y <= b.hi.y
    ensures Movement(random, k, b).events[0] == Move(RoundPos(Pos(GetRandomInt(b.lo.x, b.hi.x, random(k)), GetRandomInt(b.lo.y, b.hi.y, random(k + 1)))))
    ensures Round(b.lo.x) <= Movement(random, k, b).events[0].to.x <= Round(b.hi.x) + 1
    ensures Round(b.lo.y) <= Movement(random, k, b).events[0].to.y <= Round(b.hi.y) + 1
    ensures IsWhole(b.lo.x) && IsWhole(b.hi.x) && IsWhole(b.lo.y) && IsWhole(b.hi.y) ==> InBand(b, Movement(random, k, b).events[0].to)
  {
    var start := AimStart(random, k, b);
    var end := AimEnd(random, k, start);
    MovementIs(random, k, b, start, end);
    var detour := Detour(random, k + 4, b, start, end);
    var last := PathEvents(random, detour.next, DetourEnd(random, k + 4, start, end), ClampTo(b, end), Steps);
    if random(k + 4) < OvershootChance {
      PathEnds(random, k + 7, start, ClampTo(b, Overshoot(random, k + 5, end)), Steps);
    } else {
      PathEnds(random, detour.next, start, ClampTo(b, end), Steps);
      assert Movement(random, k, b).events == last;
    }
    RoundMonotone(b.lo.x, start.x);
    RoundMonotone(start.x, b.hi.x + 1.0);
    RoundMonotone(b.lo.y, start.y);
    RoundMonotone(start.y, b.hi.y + 1.0);
  }

  /** Every move towards a target ends at the target clamped to the band:
      the last move of a movement, and the last move of its detour. */
  lemma MovementEnds(random: nat -> real, k: nat, b: Band)
    requires b.lo.x <= b.hi.x && b.lo.y <= b.hi.y
    ensures var events := Movement(random, k, b).events;
      events[|events| - 2].Move? && InBand(b, events[|events| - 2].to)
    ensures random(k + 4) < OvershootChance ==>
      Movement(random, k, b).events[2 * Steps].Move? && InBand(b, Movement(random, k, b).events[2 * Steps].to)
  {
    var start := AimStart(random, k, b);
    var end := AimEnd(random, k, start);
    MovementIs(random, k, b, start, end);
    var detour := Detour(random, k + 4, b, start, end);
    var from := DetourEnd(random, k + 4, start, end);
    var last := PathEvents(random, detour.next, from, ClampTo(b, end), Steps);
    PathEnds(random, detour.next, from, ClampTo(b, end), Steps);
    RoundedClampInBand(b, end);
    assert Movement(random, k, b).events[|detour.events| + 2 * Steps] == last[2 * Steps];
    if random(k + 4) < OvershootChance {
      var corner := Overshoot(random, k + 5, end);
      PathEnds(random, k + 7, start, ClampTo(b, corner), Steps);
      RoundedClampInBand(b, corner);
      assert Movement(random, k, b).events[2 * Steps] == detour.events[2 * Steps];
    }
  }

  lemma {:induction false} RepeatHumanlike(step: nat -> Run, k: nat, n: nat)
    requires forall j :: Humanlike(step(j).events)
    ensures Humanlike(Repeat(step, k, n).events)
  {
    if n > 0 {
      var before := Repeat(step, k, n - 1);
      RepeatHumanlike(step, k, n - 1);
      HumanlikeAppend(before.events, step(before.next).events);
    }
  }

  lemma {:induction false} RepeatLength(step: nat -> Run, k: nat, n: nat, least: nat, most: nat)
    requires forall j :: least <= |step(j).events| <= most
    ensures least * n <= |Repeat(step, k, n).events| <= most * n
  {
    if n > 0 {
      RepeatLength(step, k, n - 1, least, most);
      assert least * n == least * (n - 1) + least && most * n == most * (n - 1) + most;
    }
  }

  lemma MovementsHumanlike(random: nat -> real, k: nat, b: Band, n: nat)
    requires IsRandom(random)
    ensures Humanlike(Movements(random, k, b, n).events)
  {
    forall j: nat
      ensures Humanlike(Movement(random, j, b).events)
    {
      MovementHumanlike(random, j, b);
    }
    RepeatHumanlike((j: nat) => Movement(random, j, b), k, n);
  }

  /** Each movement makes 62 or 124 events (`MovementShape`). */
  lemma MovementsLength(random: nat -> real, k: nat, b: Band, n: nat)
    ensures 62 * n <= |Movements(random, k, b, n).events| <= 124 * n
  {
    forall j: nat
      ensures 62 <= |Movement(random, j, b).events| <= 124
    {
      MovementShape(random, j, b);
    }
    RepeatLength((j: nat) => Movement(random, j, b), k, n, 62, 124);
  }

  /** `simulateHumanMouse` moves the pointer once or twice, each movement
      one or two moves of 31 points and 31 pauses, in moves and pauses
      taken in turn, each pause lasting 20 to 50 milliseconds. */
  lemma HumanMouseHumanlike(random: nat -> real, k: nat, width: nat, height: nat)
    requires IsRandom(random)
    ensures Humanlike(HumanMouse(random, k, width, height).events)
    ensures 62 <= |HumanMouse(random, k, width, height).events| <= 248
  {
    MovementCount(random(k));
    MovementsHumanlike(random, k + 1, CentralBand(width, height), GetRandomInt(1.0, 2.0, random(k)).Floor);
    MovementsLength(random, k + 1, CentralBand(width, height), GetRandomInt(1.0, 2.0, random(k)).Floor);
  }

  lemma FifthsWhole(n: nat)
    requires n % 5 == 0
    ensures IsWhole(n as real * 0.2) && IsWhole(n as real * 0.8)
  {
    var w := n / 5;
    assert n == 5 * w;
    FifthWhole(w);
    FourFifthsWhole(w);
  }

  lemma FifthWhole(w: int)
    ensures IsWhole((5 * w) as real * 0.2)
  {
    assert (5 * w) as real * 0.2 == w as real;
  }

  lemma FourFifthsWhole(w: int)
    ensures IsWhole((5 * w) as real * 0.8)
  {
    assert (5 * w) as real * 0.8 == (4 * w) as real;
  }

  /** The band's edges are whole pixels when both sides of the viewport
      are multiples of 5. */
  lemma WholeBand(width: nat, height: nat)
    requires width % 5 == 0 && height % 5 == 0
    ensures var b := CentralBand(width, height);
      IsWhole(b.lo.x) && IsWhole(b.hi.x) && IsWhole(b.lo.y) && IsWhole(b.hi.y)
  {
    FifthsWhole(width);
    FifthsWhole(height);
  }

  /** On a 1368 by 768 viewport the band runs from 273.6 to 1094.4
      horizontally, and the draw 0.9995 puts the start at 1094.6, which
      rounds to 1095, one pixel past the rounded band. */
  lemma StartCanLeaveBand(random: nat -> real, k: nat)
    requires random(k) == 0.9995 && IsDraw(random(k + 1))
    ensures Movement(random, k, CentralBand(1368, 768)).events[0].Move?
    ensures Movement(random, k, CentralBand(1368, 768)).events[0].to.x == 1095
    ensures !InBand(CentralBand(1368, 768), Movement(random, k, CentralBand(1368, 768)).events[0].to)
  {
    var b := CentralBand(1368, 768);
    assert b.lo.x == 273.6 && b.hi.x == 1094.4;
    MovementStart(random, k, b);
    assert (821.8 * 0.9995).Floor == 821;
    assert GetRandomInt(b.lo.x, b.hi.x, random(k)) == 1094.6;
    assert Round(1094.6) == 1095 && Round(1094.4) == 1094;
  }

  /** The page's mouse together with `Math.random()`: the events the mouse
      has received and the number of draws taken so far. */
  class MousePage {
    const random: nat -> real
    var events: seq<MouseEvent>
    var drawn: nat

    constructor(random: nat -> real)
      ensures this.random == random && events == [] && drawn == 0
    {
      this.random := random;
      events := [];
      drawn := 0;
    }

    /** `Math.random()`. */
    method Random() returns (u: real)
      modifies this`drawn
      ensures u == random(old(drawn)) && drawn == old(drawn) + 1
    {
      u := random(drawn);
      drawn := drawn + 1;
    }

    /** `page.mouse.move(x, y)`. */
    method MoveTo(p: Point)
      modifies this`events
      ensures events == old(events) + [Move(p)]
    {
      events := events + [Move(p)];
    }

    /** `sleep(ms)`. */
    method Sleep(ms: int)
      modifies this`events
      ensures events == old(events) + [Pause(ms)]
    {
      events := events + [Pause(ms)];
    }

    /** One pass of the first loop of `smoothMouseMove`: four draws for
        the control points, then the rounded point on the curve. */
    method CurvePoint(s: Pos, e: Pos, steps: nat, i: nat) returns (p: Point)
      requires steps >= 1
      modifies this`drawn
      ensures drawn == old(drawn) + 4
      ensures p == PathPoint(s, e, steps, i, random(old(drawn)), random(old(drawn) + 1), random(old(drawn) + 2), random(old(drawn) + 3))
    {
      var t := i as real / steps as real;
      var u1 := Random();
      var controlX1 := ControlValue(s.x, e.x, 0.3, u1);
      var u2 := Random();
      var controlY1 := ControlValue(s.y, e.y, 0.3, u2);
      var u3 := Random();
      var controlX2 := ControlValue(s.x, e.x, 0.7, u3);
      var u4 := Random();
      var controlY2 := ControlValue(s.y, e.y, 0.7, u4);
      var x := Bezier(s.x, controlX1, controlX2, e.x, t);
      var y := Bezier(s.y, controlY1, controlY2, e.y, t);
      p := Point(Round(x), Round(y));
    }

    /** `smoothMouseMove(page, startX, startY, endX, endY, steps)`: first
        every point is computed, four draws each, then each point is
        visited with a drawn pause after it. */
    method SmoothMouseMove(s: Pos, e: Pos, steps: nat)
      requires steps >= 1
      modifies this`events, this`drawn
      ensures events == old(events) + PathEvents(random, old(drawn), s, e, steps)
      ensures drawn == old(drawn) + 5 * (steps + 1)
    {
      ghost var k := drawn;
      var points := ComputePoints(s, e, steps);
      VisitPoints(points);
      PathEventsDrawn(random, k, s, e, steps);
    }

    /** The first loop of `smoothMouseMove`. */
    method ComputePoints(s: Pos, e: Pos, steps: nat) returns (points: seq<Point>)
      requires steps >= 1
      modifies this`drawn
      ensures points == PathPoints(random, old(drawn), s, e, steps)
      ensures drawn == old(drawn) + 4 * (steps + 1)
    {
      ghost var k := drawn;
      points := [];
      var i := 0;
      while i <= steps
        invariant i <= steps + 1 && drawn == k + 4 * i
        invariant points == PathPoints(random, k, s, e, steps)[..i]
      {
        var p := CurvePoint(s, e, steps, i);
        points := points + [p];
        i := i + 1;
      }
      WholePrefix(PathPoints(random, k, s, e, steps));
    }

    /** The second loop of `smoothMouseMove`: each point is visited, then a
        pause is drawn and taken. */
    method VisitPoints(points: seq<Point>)
      modifies this`events, this`drawn
      ensures events == old(events) + Interleave(points, DrawnPauses(random, old(drawn), |points|))
      ensures drawn == old(drawn) + |points|
    {
      ghost var pauses := DrawnPauses(random, drawn, |points|);
      for j := 0 to |points|
        invariant drawn == old(drawn) + j
        invariant events == old(events) + Interleave(points[..j], pauses[..j])
      {
        assert points[..j + 1][..j] == points[..j] && pauses[..j + 1][..j] == pauses[..j];
        MoveTo(points[j]);
        var u := Random();
        Sleep(GetRandomInt(20.0, 50.0, u).Floor);
      }
      assert points[..|points|] == points && pauses[..|points|] == pauses;
    }
  
    /** `simulateHumanMouse(page, connectConfig)` on a `width` by `height`
        viewport. */
    method SimulateHumanMouse(width: nat, height: nat)
      requires IsRandom(random)
      modifies this`events, this`drawn
      ensures events == old(events) + HumanMouse(random, old(drawn), width, height).events
      ensures drawn == HumanMouse(random, old(drawn), width, height).next
    {
      var centerX := width as real * 0.2;
      var centerY := height as real * 0.2;
      var maxX := width as real * 0.8;
      var maxY := height as real * 0.8;
      var b := Band(Pos(centerX, centerY), Pos(maxX, maxY));
      assert b == CentralBand(width, height);
      var u := Random();
      var movementCount := GetRandomInt(1.0, 2.0, u).Floor;
      ghost var k := drawn;
      for i := 0 to movementCount
        invariant events == old(events) + Movements(random, k, b, i).events
        invariant drawn == Movements(random, k, b, i).next
      {
        ghost var before := Movements(random, k, b, i);
        ghost var movement := Movement(random, before.next, b);
        MoveOnce(b);
        assert events == (old(events) + before.events) + movement.events;
        AppendAssociates(old(events), before.events, movement.events);
        assert Movements(random, k, b, i + 1).events == before.events + movement.events;
      }
    }

    /** One pass of the loop of `simulateHumanMouse`. */
    method MoveOnce(b: Band)
      modifies this`events, this`drawn
      ensures events == old(events) + Movement(random, old(drawn), b).events
      ensures drawn == Movement(random, old(drawn), b).next
    {
      ghost var k := drawn;
      var start, end := DrawTarget(b);
      MoveTowards(b, start, end);
      MovementFrom(random, k, b);
    }

    /** The rest of the pass once its start and end are drawn: the optional
        detour, then the move to the end clamped to the band. */
    method MoveTowards(b: Band, start: Pos, end: Pos)
      modifies this`events, this`drawn
      ensures events == old(events) + MoveFrom(random, old(drawn), b, start, end).events
      ensures drawn == MoveFrom(random, old(drawn), b, start, end).next
    {
      ghost var detour := Detour(random, drawn, b, start, end);
      var from := MaybeOvershoot(b, start, end);
      ghost var last := PathEvents(random, drawn, from, ClampTo(b, end), Steps);
      SmoothMouseMove(from, ClampTo(b, end), Steps);
      AppendAssociates(old(events), detour.events, last);
    }

    /** The overshoot step: one draw decides it; on a detour, two more draws
        place the overshoot point and the pointer moves there (clamped). */
    method MaybeOvershoot(b: Band, start: Pos, end: Pos) returns (from: Pos)
      modifies this`events, this`drawn
      ensures events == old(events) + Detour(random, old(drawn), b, start, end).events
      ensures drawn == Detour(random, old(drawn), b, start, end).next
      ensures from == DetourEnd(random, old(drawn), start, end)
    {
      var u := Random();
      from := start;
      if u < OvershootChance {
        var corner := DrawOvershoot(end);
        SmoothMouseMove(from, ClampTo(b, corner), Steps);
        from := corner;
      } else {
        AppendEmpty(events);
      }
    }

    /** The four draws of a movement's start and end. */
    method DrawTarget(b: Band) returns (start: Pos, end: Pos)
      modifies this`drawn
      ensures start == AimStart(random, old(drawn), b) && end == AimEnd(random, old(drawn), start)
      ensures drawn == old(drawn) + 4
    {
      var u1 := Random();
      var startX := GetRandomInt(b.lo.x, b.hi.x, u1);
      var u2 := Random();
      var startY := GetRandomInt(b.lo.y, b.hi.y, u2);
      var u3 := Random();
      var endX := startX + GetRandomInt(-150.0, 150.0, u3);
      var u4 := Random();
      var endY := startY + GetRandomInt(-150.0, 150.0, u4);
      start, end := Pos(startX, startY), Pos(endX, endY);
    }

    /** The two draws of the overshoot point past `end`. */
    method DrawOvershoot(end: Pos) returns (corner: Pos)
      modifies this`drawn
      ensures corner == Overshoot(random, old(drawn), end)
      ensures drawn == old(drawn) + 2
    {
      var u6 := Random();
      var overshootX := end.x + GetRandomInt(-50.0, 50.0, u6);
      var u7 := Random();
      var overshootY := end.y + GetRandomInt(-50.0, 50.0, u7);
      corner := Pos(overshootX, overshootY);
    }
  }
}
