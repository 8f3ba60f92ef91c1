/** The synthesized snake sweep over a display: waypoints, interpolated moves, and the injector that takes
    16-bit coordinates. Integer division truncates toward zero. */
module Snake {

  const MARGIN: int := 40
  const PASSES: nat := 9
  const STEP_PX: int := 12

  const INT32_MAX: int := 0x7FFF_FFFF
  const INT16_MIN: int := -0x8000
  const INT16_MAX: int := 0x7FFF

  datatype PixelPoint = PixelPoint(x: int, y: int)

  /** The displays the sweep is laid out for: room for both margins, coordinates that fit 16 bits. */
  predicate Displayable(width: int, height: int) {
    2 * MARGIN <= width <= INT16_MAX && 2 * MARGIN <= height <= INT16_MAX
  }

  function CDiv(a: int, b: int): int
    requires 0 < b
  {
    if 0 <= a then a / b else -((-a) / b)
  }

  function Abs(x: int): nat {
    if x < 0 then -x else x
  }

  function Max(a: int, b: int): int {
    if a < b then b else a
  }

  /** The narrowing conversion the injector's interface forces. */
  function ToInt16(x: int): (r: int)
    ensures INT16_MIN <= r <= INT16_MAX
    ensures INT16_MIN <= x <= INT16_MAX ==> r == x
    ensures (r - x) % 0x1_0000 == 0
  {
    (x - INT16_MIN) % 0x1_0000 + INT16_MIN
  }

  function Narrowed(p: PixelPoint): PixelPoint {
    PixelPoint(ToInt16(p.x), ToInt16(p.y))
  }

  // ---- The waypoints ----

  function Row(height: int, pass: nat): int {
    MARGIN + CDiv(pass * (height - 2 * MARGIN), PASSES - 1)
  }

  /** Even passes run rightward, odd ones leftward. */
  function Waypoint(width: int, height: int, index: nat): PixelPoint {
    var pass := index / 2;
    var atRight := (pass % 2 == 0) == (index % 2 == 1);
    PixelPoint(if atRight then width - MARGIN else MARGIN, Row(height, pass))
  }

  method SnakeWaypoints(width: int, height: int) returns (points: array<PixelPoint>)
    ensures fresh(points) && points.Length == PASSES * 2
    ensures forall i :: 0 <= i < points.Length ==> points[i] == Waypoint(width, height, i)
  {
    points := new PixelPoint[PASSES * 2](_ => PixelPoint(0, 0));
    var left, right, top := MARGIN, width - MARGIN, MARGIN;
    var spanY := height - MARGIN - top;
    var lastPass := PASSES - 1;
    for pass := 0 to PASSES
      invariant forall i :: 0 <= i < pass * 2 ==> points[i] == Waypoint(width, height, i)
    {
      var row := top + CDiv(pass * spanY, lastPass);
      var rightward := pass % 2 == 0;
      points[pass * 2] := PixelPoint(if rightward then left else right, row);
      points[pass * 2 + 1] := PixelPoint(if rightward then right else left, row);
    }
  }

  predicate Inside(p: PixelPoint, width: int, height: int) {
    MARGIN <= p.x <= width - MARGIN && MARGIN <= p.y <= height - MARGIN
  }

  lemma RowsDescend(height: int, pass: nat)
    requires 2 * MARGIN <= height && pass < PASSES
    ensures MARGIN <= Row(height, pass) <= height - MARGIN
    ensures pass + 1 < PASSES ==> Row(height, pass) <= Row(height, pass + 1)
  {
    var span := height - 2 * MARGIN;
    assert 0 <= pass * span <= (PASSES - 1) * span;
    assert (pass + 1) * span == pass * span + span;
  }

  lemma WaypointsAreInside(width: int, height: int, index: nat)
    requires Displayable(width, height) && index < PASSES * 2
    ensures Inside(Waypoint(width, height, index), width, height)
  {
    hide Row;
    RowsDescend(height, index / 2);
  }

  lemma SweepEnds(width: int, height: int)
    requires Displayable(width, height)
    ensures Waypoint(width, height, 0) == PixelPoint(MARGIN, MARGIN)
    ensures Waypoint(width, height, PASSES * 2 - 1) == PixelPoint(width - MARGIN, height - MARGIN)
  {
    assert Row(height, 0) == MARGIN && Row(height, PASSES - 1) == height - MARGIN;
    hide Row;
  }

  lemma LegHoldsAnAxis(width: int, height: int, index: nat)
    requires Displayable(width, height) && 0 < index < PASSES * 2
    ensures var from, to := Waypoint(width, height, index - 1), Waypoint(width, height, index);
      if index % 2 == 1 then from.y == to.y && Abs(to.x - from.x) == width - 2 * MARGIN
      else from.x == to.x && from.y <= to.y
  {
    hide Row;
    RowsDescend(height, (index - 1) / 2);
    assert index / 2 == if index % 2 == 1 then (index - 1) / 2 else (index - 1) / 2 + 1;
  }

  /** The sweep starts at the inset's top left and ends at its bottom right; its legs take turns crossing the
      whole inset along a row and going down along one side. */
  lemma WaypointsFormASnake(width: int, height: int, index: nat)
    requires Displayable(width, height) && 0 < index < PASSES * 2
    ensures Waypoint(width, height, 0) == PixelPoint(MARGIN, MARGIN)
    ensures Waypoint(width, height, PASSES * 2 - 1) == PixelPoint(width - MARGIN, height - MARGIN)
    ensures var from, to := Waypoint(width, height, index - 1), Waypoint(width, height, index);
      if index % 2 == 1 then from.y == to.y && Abs(to.x - from.x) == width - 2 * MARGIN
      else from.x == to.x && from.y <= to.y
  {
    hide Waypoint, Abs;
    SweepEnds(width, height);
    LegHoldsAnAxis(width, height, index);
  }

  /** The rows are evenly spaced: each is where an even division of the inset's height puts it, rounded up by less
      than a pixel. */
  lemma RowsAreEven(height: int, pass: nat)
    requires 80 <= height
    ensures 0 <= pass * (height - 80) - 8 * (Row(height, pass) - 40) < 8
  {
    assert 0 <= pass * (height - 80);
  }

  /** Laying out the rows never leaves 32 bits. */
  lemma RowsFitInt32(height: int, pass: nat)
    requires 2 * MARGIN <= height <= INT16_MAX && pass < PASSES
    ensures 0 <= pass * (height - 2 * MARGIN) <= INT32_MAX
  {
    assert pass * (height - 2 * MARGIN) <= (PASSES - 1) * (height - 2 * MARGIN);
  }

  // ---- One leg ----

  function Steps(from: PixelPoint, to: PixelPoint): (steps: nat)
    ensures 1 <= steps
  {
    Max(CDiv(Max(Abs(to.x - from.x), Abs(to.y - from.y)), STEP_PX), 1)
  }

  function Coordinate(from: int, to: int, steps: nat, step: nat): int
    requires 0 < steps
  {
    from + CDiv((to - from) * step, steps)
  }

  function OnLeg(from: PixelPoint, to: PixelPoint, step: nat): PixelPoint {
    PixelPoint(Coordinate(from.x, to.x, Steps(from, to), step), Coordinate(from.y, to.y, Steps(from, to), step))
  }

  /** The points the injector is moved to, the start left out. */
  function Leg(from: PixelPoint, to: PixelPoint): seq<PixelPoint> {
    seq(Steps(from, to), i requires 0 <= i < Steps(from, to) => Narrowed(OnLeg(from, to, i + 1)))
  }

  // One axis of an interpolation: how far along a distance the k-th of n steps has come.

  function Times(a: nat, b: nat): nat {
    a * b
  }

  function Part(a: nat, k: nat, n: nat): nat
    requires 0 < n
  {
    Times(a, k) / n
  }

  lemma TimesGrows(a: nat, j: nat, k: nat)
    requires j <= k
    ensures Times(a, j) <= Times(a, k)
  {
  }

  lemma TimesNext(a: nat, k: nat)
    ensures Times(a, k + 1) == Times(a, k) + a
    ensures Times(a, k) == Times(k, a)
  {
  }

  lemma DivisionBounds(a: nat, n: nat)
    requires 0 < n
    ensures Times(n, a / n) <= a < Times(n, a / n) + n
  {
  }

  lemma DivisionGrows(a: nat, b: nat, n: nat)
    requires 0 < n && a <= b
    ensures a / n <= b / n
  {
    hide Times;
    DivisionBounds(a, n);
    DivisionBounds(b, n);
    if b / n < a / n {
      TimesGrows(n, b / n + 1, a / n);
      TimesNext(n, b / n);
    }
  }

  lemma PartGrows(a: nat, j: nat, k: nat, n: nat)
    requires 0 < n && j <= k
    ensures Part(a, j, n) <= Part(a, k, n)
  {
    hide Times;
    TimesGrows(a, j, k);
    DivisionGrows(Times(a, j), Times(a, k), n);
  }

  lemma PartEnds(a: nat, n: nat)
    requires 0 < n
    ensures Part(a, 0, n) == 0 && Part(a, n, n) == a
  {
    hide Times;
    DivisionBounds(Times(a, n), n);
    TimesNext(a, n);
    TimesNext(n, a);
    var q := Times(a, n) / n;
    if q < a {
      TimesGrows(n, q + 1, a);
      TimesNext(n, q);
    }
    if a < q { TimesGrows(n, a + 1, q); }
    assert Times(a, 0) == 0 by { assert a * 0 == 0; NoneIsNone(a); }
  }

  lemma NoneIsNone(a: nat)
    ensures Times(a, 0) == 0
  {
  }

  lemma TimesSplits(n: nat, q: nat, r: nat)
    ensures Times(n, q + r) == Times(n, q) + Times(n, r)
  {
  }

  /** Up to 23 pixels a step on average never makes one step of 24, for all that both of its ends are
      truncated. */
  lemma PartJump(a: nat, n: nat, k: nat)
    requires 0 < n && a <= Times(n, 23)
    ensures Part(a, k + 1, n) - Part(a, k, n) < 24
  {
    hide Times;
    var q, q' := Part(a, k, n), Part(a, k + 1, n);
    DivisionBounds(Times(a, k), n);
    DivisionBounds(Times(a, k + 1), n);
    TimesNext(a, k);
    if q + 24 <= q' {
      TimesGrows(n, q + 24, q');
      TimesSplits(n, q, 24);
      TimesNext(n, 23);
    }
  }

  /** One axis of an interpolation is on the straight line, rounded towards the start by less than a pixel. */
  lemma CoordinateIsOnTheLine(from: int, to: int, n: nat, k: nat)
    requires 0 < n
    ensures var c := Coordinate(from, to, n, k);
      if from <= to then 0 <= (to - from) * k - n * (c - from) < n
      else 0 <= (from - to) * k - n * (from - c) < n
  {
    SignedPart(to - from, k, n);
    DivisionBounds(Times(Abs(to - from), k), n);
  }

  /** A leg has as many steps as it needs to take twelve pixels or more at a time, and one at least. */
  lemma StepsAreTwelvePixels(from: PixelPoint, to: PixelPoint)
    ensures var distance := if Abs(to.x - from.x) < Abs(to.y - from.y) then Abs(to.y - from.y) else Abs(to.x - from.x);
      if distance < 12 then Steps(from, to) == 1 else 12 * Steps(from, to) <= distance < 12 * (Steps(from, to) + 1)
  {
  }

  // ---- Both axes ----

  lemma StepsSuffice(from: PixelPoint, to: PixelPoint)
    ensures Abs(to.x - from.x) <= Times(Steps(from, to), 23) && Abs(to.y - from.y) <= Times(Steps(from, to), 23)
  {
  }

  function Signed(d: int, size: int): int {
    if d < 0 then -size else size
  }

  lemma SignedPart(d: int, k: nat, n: nat)
    requires 0 < n
    ensures CDiv(d * k, n) == Signed(d, Part(Abs(d), k, n))
  {
    if d < 0 {
      assert d * k == -((-d) * k);
      assert 0 <= (-d) * k;
      if d * k == 0 { assert (-d) * k == 0; }
    } else {
      assert 0 <= d * k;
    }
  }

  predicate Between(a: int, x: int, b: int) {
    a <= x <= b || b <= x <= a
  }

  /** One axis of a leg: it sets out from the start, arrives exactly, never turns back or overshoots, and
      never moves by 24 pixels or more at once. */
  lemma AxisAdvances(from: int, to: int, n: nat, k: nat)
    requires k < n && Abs(to - from) <= Times(n, 23)
    ensures var p, q := Coordinate(from, to, n, k), Coordinate(from, to, n, k + 1);
      Between(from, q, to) && Between(p, q, to) && Abs(q - p) < 24
    ensures Coordinate(from, to, n, 0) == from && Coordinate(from, to, n, n) == to
  {
    var a := Abs(to - from);
    PartGrows(a, 0, k, n);
    PartGrows(a, k, k + 1, n);
    PartGrows(a, k + 1, n, n);
    PartEnds(a, n);
    PartJump(a, n, k);
    SignedPart(to - from, 0, n);
    SignedPart(to - from, k, n);
    SignedPart(to - from, k + 1, n);
    SignedPart(to - from, n, n);
    hide Times, Part, CDiv;
  }

  predicate Near(p: PixelPoint, q: PixelPoint) {
    Abs(q.x - p.x) < 24 && Abs(q.y - p.y) < 24
  }

  predicate OnCourse(from: PixelPoint, p: PixelPoint, q: PixelPoint, to: PixelPoint) {
    && Between(from.x, q.x, to.x) && Between(p.x, q.x, to.x)
    && Between(from.y, q.y, to.y) && Between(p.y, q.y, to.y)
    && Near(p, q)
  }

  lemma InterpolationStaysOnCourse(from: PixelPoint, to: PixelPoint, k: nat)
    requires k < Steps(from, to)
    ensures OnCourse(from, OnLeg(from, to, k), OnLeg(from, to, k + 1), to)
    ensures OnLeg(from, to, 0) == from && OnLeg(from, to, Steps(from, to)) == to
  {
    StepsSuffice(from, to);
    hide Coordinate, Steps, Times;
    AxisAdvances(from.x, to.x, Steps(from, to), k);
    AxisAdvances(from.y, to.y, Steps(from, to), k);
  }

  lemma NarrowingKeeps(p: PixelPoint, width: int, height: int)
    requires Displayable(width, height) && Inside(p, width, height)
    ensures Narrowed(p) == p
  {
  }

  /** The k-th point of a leg within the inset: it is still within, short of 24 pixels from the one before on
      either axis, never turned back and never past the end; the 16-bit interface loses none of it. */
  lemma LegStaysOnCourse(from: PixelPoint, to: PixelPoint, width: int, height: int, k: nat)
    requires Displayable(width, height) && Inside(from, width, height) && Inside(to, width, height)
    requires k < Steps(from, to)
    ensures Leg(from, to)[k] == OnLeg(from, to, k + 1) && Inside(Leg(from, to)[k], width, height)
    ensures OnCourse(from, if k == 0 then from else Leg(from, to)[k - 1], Leg(from, to)[k], to)
    ensures k == Steps(from, to) - 1 ==> Leg(from, to)[k] == to
  {
    hide OnLeg, Steps, Narrowed;
    InterpolationStaysOnCourse(from, to, k);
    NarrowingKeeps(OnLeg(from, to, k + 1), width, height);
    if 0 < k {
      InterpolationStaysOnCourse(from, to, k - 1);
      NarrowingKeeps(OnLeg(from, to, k), width, height);
    }
  }

  /** No product on the way leaves 32 bits. */
  lemma LegFitsInt32(from: PixelPoint, to: PixelPoint, width: int, height: int, step: nat)
    requires Displayable(width, height) && Inside(from, width, height) && Inside(to, width, height)
    requires step <= Steps(from, to)
    ensures Abs((to.x - from.x) * step) <= INT32_MAX && Abs((to.y - from.y) * step) <= INT32_MAX
  {
    assert Steps(from, to) <= INT16_MAX;
    Fits(to.x - from.x, step);
    Fits(to.y - from.y, step);
  }

  lemma Fits(d: int, k: nat)
    requires Abs(d) <= INT16_MAX && k <= INT16_MAX
    ensures Abs(d * k) <= INT32_MAX
  {
    TimesGrows(Abs(d), k, INT16_MAX);
    if d < 0 { assert d * k == -((-d) * k); }
  }

  // ---- The whole sweep ----

  /** Everything the injector is asked for, from the placement to the end of the given leg. */
  function SweepTo(width: int, height: int, leg: nat): (path: seq<PixelPoint>)
    ensures path != []
  {
    if leg == 0 then [Narrowed(Waypoint(width, height, 0))]
    else SweepTo(width, height, leg - 1) + Leg(Waypoint(width, height, leg - 1), Waypoint(width, height, leg))
  }

  predicate Smooth(path: seq<PixelPoint>, width: int, height: int) {
    && (forall i :: 0 <= i < |path| ==> Inside(path[i], width, height))
    && (forall i :: 0 < i < |path| ==> Near(path[i - 1], path[i]))
  }

  lemma SmoothAppends(path: seq<PixelPoint>, leg: seq<PixelPoint>, width: int, height: int)
    requires path != [] && Smooth(path, width, height) && Smooth(leg, width, height)
    requires leg != [] ==> Near(path[|path| - 1], leg[0])
    ensures Smooth(path + leg, width, height)
  {
    hide Near, Inside;
    var all := path + leg;
    forall i | 0 < i < |all|
      ensures Near(all[i - 1], all[i])
    {
      if i < |path| {
        assert all[i - 1] == path[i - 1] && all[i] == path[i];
      } else if i == |path| {
        assert all[i - 1] == path[|path| - 1] && all[i] == leg[0];
      } else {
        assert all[i - 1] == leg[i - |path| - 1] && all[i] == leg[i - |path|];
      }
    }
  }

  lemma LegIsSmooth(from: PixelPoint, to: PixelPoint, width: int, height: int)
    requires Displayable(width, height) && Inside(from, width, height) && Inside(to, width, height)
    ensures var leg := Leg(from, to);
      leg != [] && Smooth(leg, width, height) && Near(from, leg[0]) && leg[|leg| - 1] == to
  {
    hide Steps, OnLeg, Narrowed, Inside, Near;
    var leg := Leg(from, to);
    forall i | 0 <= i < |leg|
      ensures Inside(leg[i], width, height)
      ensures 0 < i ==> Near(leg[i - 1], leg[i])
    {
      LegStaysOnCourse(from, to, width, height, i);
    }
    LegStaysOnCourse(from, to, width, height, 0);
    LegStaysOnCourse(from, to, width, height, |leg| - 1);
  }

  /** The sweep over any display of 80 to 32767 pixels a side never leaves the inset, never jumps by 24 pixels
      on either axis, and every leg of it ends exactly on its waypoint. */
  lemma {:induction false} SweepIsSmooth(width: int, height: int, leg: nat)
    requires Displayable(width, height) && leg < PASSES * 2
    ensures var path := SweepTo(width, height, leg);
      Smooth(path, width, height) && path[|path| - 1] == Waypoint(width, height, leg)
  {
    WaypointsAreInside(width, height, leg);
    if leg == 0 {
      NarrowingKeeps(Waypoint(width, height, 0), width, height);
    } else {
      hide Waypoint, Leg, Inside, Near, Smooth;
      SweepIsSmooth(width, height, leg - 1);
      WaypointsAreInside(width, height, leg - 1);
      var from, to := Waypoint(width, height, leg - 1), Waypoint(width, height, leg);
      var path, next := SweepTo(width, height, leg - 1), Leg(from, to);
      LegIsSmooth(from, to, width, height);
      SmoothAppends(path, next, width, height);
      assert (path + next)[|path + next| - 1] == next[|next| - 1];
    }
  }

  lemma SmoothPrefix(prefix: seq<PixelPoint>, path: seq<PixelPoint>, width: int, height: int)
    requires Smooth(path, width, height) && prefix <= path
    ensures Smooth(prefix, width, height)
  {
    hide Near, Inside;
    forall i | 0 < i < |prefix|
      ensures Near(prefix[i - 1], prefix[i])
    {
      assert prefix[i - 1] == path[i - 1] && prefix[i] == path[i];
    }
  }

  /** The injector; the display server may refuse a move. */
  class Input {
    ghost var moved: seq<PixelPoint>

    constructor ()
      ensures moved == []
    {
      moved := [];
    }

    method Move(p: PixelPoint) returns (ok: bool)
      modifies this
      ensures moved == if ok then old(moved) + [p] else old(moved)
    {
      ok := *;
      if ok { moved := moved + [p]; }
    }

    method MoveLine(from: PixelPoint, to: PixelPoint) returns (ok: bool)
      modifies this
      ensures ok ==> moved == old(moved) + Leg(from, to)
      ensures !ok ==> old(moved) <= moved < old(moved) + Leg(from, to)
    {
      hide Coordinate, CDiv, ToInt16;
      ghost var leg := Leg(from, to);
      var distance := Max(Abs(to.x - from.x), Abs(to.y - from.y));
      var steps := Max(CDiv(distance, STEP_PX), 1);
      var step := 1;
      while step <= steps
        invariant 1 <= step <= steps + 1
        invariant moved == old(moved) + leg[..step - 1]
      {
        var x, y := Coordinate(from.x, to.x, steps, step), Coordinate(from.y, to.y, steps, step);
        assert leg[..step] == leg[..step - 1] + [Narrowed(PixelPoint(x, y))];
        var pushed := Move(PixelPoint(ToInt16(x), ToInt16(y)));
        if !pushed {
          assert leg == leg[..step - 1] + leg[step - 1..];
          return false;
        }
        step := step + 1;
      }
      assert leg[..steps] == leg;
      return true;
    }

    /** A successful sweep is the whole path; a refused move leaves a proper prefix of it. */
    method Sweep(width: int, height: int) returns (ok: bool)
      modifies this
      ensures ok ==> moved == old(moved) + SweepTo(width, height, PASSES * 2 - 1)
      ensures !ok ==> old(moved) <= moved < old(moved) + SweepTo(width, height, PASSES * 2 - 1)
    {
      hide Waypoint, Leg, Narrowed;
      ghost var whole := SweepTo(width, height, PASSES * 2 - 1);
      var waypoints := SnakeWaypoints(width, height);
      ok := Move(Narrowed(waypoints[0]));
      Extends(width, height, 0);
      Follows(old(moved), [], SweepTo(width, height, 0), whole, moved, ok);
      for index := 1 to waypoints.Length
        invariant forall i :: 0 <= i < waypoints.Length ==> waypoints[i] == Waypoint(width, height, i)
        invariant ok ==> moved == old(moved) + SweepTo(width, height, index - 1)
        invariant !ok ==> old(moved) <= moved < old(moved) + whole
      {
        if !ok { return; }
        ok := MoveLine(waypoints[index - 1], waypoints[index]);
        Extends(width, height, index);
        Follows(old(moved), SweepTo(width, height, index - 1),
                Leg(Waypoint(width, height, index - 1), Waypoint(width, height, index)), whole, moved, ok);
      }
    }
  }

  /** A stretch added to a path already followed, or begun and refused. */
  lemma Follows(before: seq<PixelPoint>, path: seq<PixelPoint>, leg: seq<PixelPoint>, whole: seq<PixelPoint>,
                now: seq<PixelPoint>, ok: bool)
    requires path + leg <= whole
    requires if ok then now == before + path + leg else before + path <= now < before + path + leg
    ensures if ok then now == before + (path + leg) else before <= now < before + whole
  {
    assert before + path + leg == before + (path + leg) <= before + whole;
  }

  lemma {:induction false} Extends(width: int, height: int, leg: nat)
    requires leg < PASSES * 2
    ensures SweepTo(width, height, leg) <= SweepTo(width, height, PASSES * 2 - 1)
    decreases PASSES * 2 - leg
  {
    if leg + 1 < PASSES * 2 { Extends(width, height, leg + 1); }
  }

  /** Whatever the injector was made to do on a fit display, it was a smooth walk inside the inset. */
  lemma AnySweepIsSmooth(width: int, height: int, moved: seq<PixelPoint>)
    requires Displayable(width, height) && moved <= SweepTo(width, height, PASSES * 2 - 1)
    ensures Smooth(moved, width, height)
  {
    SweepIsSmooth(width, height, PASSES * 2 - 1);
    SmoothPrefix(moved, SweepTo(width, height, PASSES * 2 - 1), width, height);
  }
}
