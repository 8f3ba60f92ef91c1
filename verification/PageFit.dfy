/** Fitting a page-to-screen map, uniform scale plus translation, to the fiducials found in a capture.
    Coordinates are reals. */
module PageFit {
  import opened Wrappers

  datatype Rect = Rect(x: real, y: real, w: real, h: real)

  datatype PageToScreen = PageToScreen(scale: real, tx: real, ty: real) {
    function Apply(page: Rect): Rect {
      Rect(page.x * scale + tx, page.y * scale + ty, page.w * scale, page.h * scale)
    }
  }

  /** Where a fiducial was authored, and where it was found. */
  datatype Sighting = Sighting(pageX: real, pageY: real, screenX: real, screenY: real)

  /** `meanSquaredError` is the square of the reported residual. */
  datatype AffineFit = AffineFit(map_: PageToScreen, meanSquaredError: real, used: nat)

  const MINIMUM_SIGHTINGS: nat := 2
  const MINIMUM_SPREAD: real := 0.000000001
  const INVALID_ARGUMENT := Error(InvalidArgument, Fatal)

  /** A product the solver is not asked to expand. */
  function Times(x: real, y: real): real {
    x * y
  }

  function ErrorX(m: PageToScreen, s: Sighting): real {
    Times(m.scale, s.pageX) + m.tx - s.screenX
  }

  function ErrorY(m: PageToScreen, s: Sighting): real {
    Times(m.scale, s.pageY) + m.ty - s.screenY
  }

  /** The errors are those of the map applied to where the fiducial was authored. */
  lemma ErrorsAreOfTheMap(m: PageToScreen, s: Sighting)
    ensures var placed := m.Apply(Rect(s.pageX, s.pageY, 0.0, 0.0));
      ErrorX(m, s) == placed.x - s.screenX && ErrorY(m, s) == placed.y - s.screenY
  {
  }

  /** A quantity summed over the sightings. */
  function SumBy(f: Sighting -> real, sightings: seq<Sighting>): real {
    if sightings == [] then 0.0
    else SumBy(f, sightings[..|sightings| - 1]) + f(sightings[|sightings| - 1])
  }

  function ErrorOf(m: PageToScreen): Sighting -> real {
    (s: Sighting) => Times(ErrorX(m, s), ErrorX(m, s)) + Times(ErrorY(m, s), ErrorY(m, s))
  }

  /** The sum of squared distances between predicted and found positions. */
  function SquaredError(m: PageToScreen, sightings: seq<Sighting>): real {
    SumBy(ErrorOf(m), sightings)
  }

  /** A reference point in each space; the fit uses the two centroids. */
  datatype Centre = Centre(pageX: real, pageY: real, screenX: real, screenY: real)

  const PAGE_X := (s: Sighting) => s.pageX
  const PAGE_Y := (s: Sighting) => s.pageY
  const SCREEN_X := (s: Sighting) => s.screenX
  const SCREEN_Y := (s: Sighting) => s.screenY

  function Centroid(sightings: seq<Sighting>): Centre
    requires sightings != []
  {
    var n := |sightings| as real;
    Centre(SumBy(PAGE_X, sightings) / n, SumBy(PAGE_Y, sightings) / n,
           SumBy(SCREEN_X, sightings) / n, SumBy(SCREEN_Y, sightings) / n)
  }

  function SpreadOf(c: Centre): Sighting -> real {
    (s: Sighting) => Times(s.pageX - c.pageX, s.pageX - c.pageX) + Times(s.pageY - c.pageY, s.pageY - c.pageY)
  }

  function CrossOf(c: Centre): Sighting -> real {
    (s: Sighting) => Times(s.pageX - c.pageX, s.screenX - c.screenX) + Times(s.pageY - c.pageY, s.screenY - c.screenY)
  }

  function ScreenSpreadOf(c: Centre): Sighting -> real {
    (s: Sighting) => Times(s.screenX - c.screenX, s.screenX - c.screenX) + Times(s.screenY - c.screenY, s.screenY - c.screenY)
  }

  function DeviationOf(f: Sighting -> real, centre: real): Sighting -> real {
    (s: Sighting) => f(s) - centre
  }

  /** How far the page positions are scattered about a centre, and how that goes with the screen. */
  function Spread(sightings: seq<Sighting>, c: Centre): real {
    SumBy(SpreadOf(c), sightings)
  }

  function Cross(sightings: seq<Sighting>, c: Centre): real {
    SumBy(CrossOf(c), sightings)
  }

  /** How far the map sends the centre of the page from the centre of the screen. */
  function OffX(m: PageToScreen, c: Centre): real {
    Times(m.scale, c.pageX) + m.tx - c.screenX
  }

  function OffY(m: PageToScreen, c: Centre): real {
    Times(m.scale, c.pageY) + m.ty - c.screenY
  }

  // ---- Sums ----

  lemma TimesOne(x: real)
    ensures Times(1.0, x) == x == Times(x, 1.0) && Times(0.0, x) == 0.0 == Times(x, 0.0)
  {
  }

  lemma TimesSum(k: real, a: real, b: real)
    ensures Times(k, a + b) == Times(k, a) + Times(k, b)
  {
  }

  lemma TimesNegated(k: real, x: real)
    ensures Times(-k, x) == -Times(k, x)
  {
  }

  lemma {:induction false} SumByDeviation(f: Sighting -> real, centre: real, sightings: seq<Sighting>)
    ensures SumBy(DeviationOf(f, centre), sightings) == SumBy(f, sightings) - Times(centre, |sightings| as real)
  {
    hide Times;
    TimesOne(centre);
    if sightings != [] {
      var front := sightings[..|sightings| - 1];
      SumByDeviation(f, centre, front);
      TimesSum(centre, |front| as real, 1.0);
    }
  }

  /** Deviations from the mean add up to nothing. */
  lemma DeviationsCancel(f: Sighting -> real, sightings: seq<Sighting>)
    requires sightings != []
    ensures SumBy(DeviationOf(f, SumBy(f, sightings) / |sightings| as real), sightings) == 0.0
  {
    hide Times;
    SumByDeviation(f, SumBy(f, sightings) / |sightings| as real, sightings);
    QuotientTimes(SumBy(f, sightings), |sightings| as real);
  }

  lemma QuotientTimes(x: real, y: real)
    requires y != 0.0
    ensures Times(x / y, y) == x
  {
  }

  /** A sum of terms that are fixed multiples of others. */
  lemma {:induction false} SumByCombines(e: Sighting -> real, sightings: seq<Sighting>, k0: real,
                                         k1: real, f1: Sighting -> real, k2: real, f2: Sighting -> real)
    requires forall s :: e(s) == k0 + Times(k1, f1(s)) + Times(k2, f2(s))
    ensures SumBy(e, sightings)
      == Times(k0, |sightings| as real) + Times(k1, SumBy(f1, sightings)) + Times(k2, SumBy(f2, sightings))
  {
    hide Times;
    TimesOne(k0);
    TimesOne(k1);
    TimesOne(k2);
    if sightings != [] {
      var front, s := sightings[..|sightings| - 1], sightings[|sightings| - 1];
      SumByCombines(e, front, k0, k1, f1, k2, f2);
      TimesSum(k0, |front| as real, 1.0);
      TimesSum(k1, SumBy(f1, front), f1(s));
      TimesSum(k2, SumBy(f2, front), f2(s));
    }
  }

  // ---- The squared error is a quadratic with one lowest point ----

  lemma Binomial(x: real, y: real)
    ensures Times(x + y, x + y) == Times(x, x) + Times(2.0 * y, x) + Times(y, y)
  {
  }

  lemma TimesRegroup(a: real, d: real, q: real)
    ensures Times(Times(a, d), Times(a, d)) == Times(Times(a, a), Times(d, d))
    ensures Times(2.0 * -q, Times(a, d)) == -Times(2.0 * a, Times(d, q))
    ensures Times(-q, -q) == Times(q, q)
  {
  }

  /** One axis of one sighting's squared error, about a centre. */
  lemma AxisError(a: real, t: real, p: real, s: real, cp: real, cs: real)
    ensures var e, off, dp, ds := Times(a, p) + t - s, Times(a, cp) + t - cs, p - cp, s - cs;
      Times(e, e) == Times(Times(a, a), Times(dp, dp)) - Times(2.0 * a, Times(dp, ds)) + Times(ds, ds)
        + Times(2.0 * off, Times(a, dp) - ds) + Times(off, off)
  {
    hide Times;
    var dp, ds, off := p - cp, s - cs, Times(a, cp) + t - cs;
    AxisSplit(a, t, p, s, cp, cs);
    Binomial(Times(a, dp) - ds, off);
    Binomial(Times(a, dp), -ds);
    TimesRegroup(a, dp, ds);
  }

  lemma AxisSplit(a: real, t: real, p: real, s: real, cp: real, cs: real)
    ensures Times(a, p) + t - s == Times(a, p - cp) - (s - cs) + (Times(a, cp) + t - cs)
  {
    TimesSum(a, p, -cp);
    TimesSum(a, cp, -cp);
  }

  /** The parts of one sighting's squared error about a centre: scatter, and what is linear in its
      deviation from the centre. */
  function ScatterOf(a: real, c: Centre): Sighting -> real {
    (s: Sighting) =>
      Times(Times(a, a), SpreadOf(c)(s)) - Times(2.0 * a, CrossOf(c)(s)) + ScreenSpreadOf(c)(s)
  }

  function PullX(a: real, c: Centre): Sighting -> real {
    (s: Sighting) => Times(a, DeviationOf(PAGE_X, c.pageX)(s)) - DeviationOf(SCREEN_X, c.screenX)(s)
  }

  function PullY(a: real, c: Centre): Sighting -> real {
    (s: Sighting) => Times(a, DeviationOf(PAGE_Y, c.pageY)(s)) - DeviationOf(SCREEN_Y, c.screenY)(s)
  }

  function PullOf(a: real, c: Centre, offX: real, offY: real): Sighting -> real {
    (s: Sighting) => Times(2.0 * offX, PullX(a, c)(s)) + Times(2.0 * offY, PullY(a, c)(s))
  }

  function Offset(m: PageToScreen, c: Centre): real {
    Times(OffX(m, c), OffX(m, c)) + Times(OffY(m, c), OffY(m, c))
  }

  lemma ScatterAt(a: real, c: Centre, s: Sighting)
    ensures var px, py, sx, sy := s.pageX - c.pageX, s.pageY - c.pageY, s.screenX - c.screenX, s.screenY - c.screenY;
      ScatterOf(a, c)(s) ==
        Times(Times(a, a), Times(px, px)) - Times(2.0 * a, Times(px, sx)) + Times(sx, sx)
        + (Times(Times(a, a), Times(py, py)) - Times(2.0 * a, Times(py, sy)) + Times(sy, sy))
  {
    hide Times;
    var px, py, sx, sy := s.pageX - c.pageX, s.pageY - c.pageY, s.screenX - c.screenX, s.screenY - c.screenY;
    SpreadAt(c, s);
    TimesSum(Times(a, a), Times(px, px), Times(py, py));
    TimesSum(2.0 * a, Times(px, sx), Times(py, sy));
  }

  lemma SpreadAt(c: Centre, s: Sighting)
    ensures var px, py, sx, sy := s.pageX - c.pageX, s.pageY - c.pageY, s.screenX - c.screenX, s.screenY - c.screenY;
      && SpreadOf(c)(s) == Times(px, px) + Times(py, py)
      && CrossOf(c)(s) == Times(px, sx) + Times(py, sy)
      && ScreenSpreadOf(c)(s) == Times(sx, sx) + Times(sy, sy)
  {
    hide Times;
  }

  lemma OneSighting(m: PageToScreen, c: Centre, s: Sighting)
    ensures ErrorOf(m)(s)
      == Offset(m, c) + ScatterOf(m.scale, c)(s) + PullOf(m.scale, c, OffX(m, c), OffY(m, c))(s)
  {
    hide Times;
    var px, py, sx, sy, a := s.pageX - c.pageX, s.pageY - c.pageY, s.screenX - c.screenX, s.screenY - c.screenY, m.scale;
    AxisError(a, m.tx, s.pageX, s.screenX, c.pageX, c.screenX);
    AxisError(a, m.ty, s.pageY, s.screenY, c.pageY, c.screenY);
    ScatterAt(a, c, s);
    assert DeviationOf(PAGE_X, c.pageX)(s) == px && DeviationOf(SCREEN_X, c.screenX)(s) == sx;
    assert DeviationOf(PAGE_Y, c.pageY)(s) == py && DeviationOf(SCREEN_Y, c.screenY)(s) == sy;
    assert PullX(a, c)(s) == Times(a, px) - sx && PullY(a, c)(s) == Times(a, py) - sy;
    assert PullOf(a, c, OffX(m, c), OffY(m, c))(s)
        == Times(2.0 * OffX(m, c), Times(a, px) - sx) + Times(2.0 * OffY(m, c), Times(a, py) - sy);
    assert ErrorOf(m)(s) == Times(ErrorX(m, s), ErrorX(m, s)) + Times(ErrorY(m, s), ErrorY(m, s));
  }

  lemma ScatterSum(a: real, c: Centre, sightings: seq<Sighting>)
    ensures SumBy(ScatterOf(a, c), sightings)
      == Times(Times(a, a), Spread(sightings, c)) - Times(2.0 * a, Cross(sightings, c)) + SumBy(ScreenSpreadOf(c), sightings)
  {
    hide Times;
    var part := (s: Sighting) => Times(Times(a, a), SpreadOf(c)(s)) + Times(-(2.0 * a), CrossOf(c)(s));
    forall s: Sighting
      ensures ScatterOf(a, c)(s) == 0.0 + Times(1.0, part(s)) + Times(1.0, ScreenSpreadOf(c)(s))
    {
      TimesNegated(2.0 * a, CrossOf(c)(s));
      TimesOne(part(s));
      TimesOne(ScreenSpreadOf(c)(s));
    }
    SumByCombines(part, sightings, 0.0, Times(a, a), SpreadOf(c), -(2.0 * a), CrossOf(c));
    SumByCombines(ScatterOf(a, c), sightings, 0.0, 1.0, part, 1.0, ScreenSpreadOf(c));
    TimesOne(|sightings| as real);
    TimesOne(SumBy(part, sightings));
    TimesOne(SumBy(ScreenSpreadOf(c), sightings));
    TimesNegated(2.0 * a, Cross(sightings, c));
  }

  lemma PullAxisSum(a: real, pull: Sighting -> real, page: Sighting -> real, screen: Sighting -> real, sightings: seq<Sighting>)
    requires forall s :: pull(s) == Times(a, page(s)) - screen(s)
    requires SumBy(page, sightings) == 0.0 == SumBy(screen, sightings)
    ensures SumBy(pull, sightings) == 0.0
  {
    hide Times;
    forall s: Sighting
      ensures pull(s) == 0.0 + Times(a, page(s)) + Times(-1.0, screen(s))
    {
      TimesNegated(1.0, screen(s));
      TimesOne(screen(s));
    }
    SumByCombines(pull, sightings, 0.0, a, page, -1.0, screen);
    TimesOne(|sightings| as real);
    TimesOne(a);
    TimesOne(-1.0);
  }

  /** About the centroids the linear part adds up to nothing. */
  lemma PullSum(a: real, offX: real, offY: real, sightings: seq<Sighting>)
    requires sightings != []
    ensures SumBy(PullOf(a, Centroid(sightings), offX, offY), sightings) == 0.0
  {
    hide Times;
    var c := Centroid(sightings);
    DeviationsCancel(PAGE_X, sightings);
    DeviationsCancel(PAGE_Y, sightings);
    DeviationsCancel(SCREEN_X, sightings);
    DeviationsCancel(SCREEN_Y, sightings);
    PullAxisSum(a, PullX(a, c), DeviationOf(PAGE_X, c.pageX), DeviationOf(SCREEN_X, c.screenX), sightings);
    PullAxisSum(a, PullY(a, c), DeviationOf(PAGE_Y, c.pageY), DeviationOf(SCREEN_Y, c.screenY), sightings);
    SumByCombines(PullOf(a, c, offX, offY), sightings, 0.0, 2.0 * offX, PullX(a, c), 2.0 * offY, PullY(a, c));
    TimesOne(|sightings| as real);
    TimesOne(2.0 * offX);
    TimesOne(2.0 * offY);
  }

  /** About the centroids, the squared error is a quadratic in the scale, plus the squared offset of the
      centroids once per sighting. */
  lemma ErrorAboutCentroid(m: PageToScreen, sightings: seq<Sighting>)
    requires sightings != []
    ensures var c, a := Centroid(sightings), m.scale;
      SquaredError(m, sightings) == Times(Times(a, a), Spread(sightings, c)) - Times(2.0 * a, Cross(sightings, c))
        + SumBy(ScreenSpreadOf(c), sightings) + Times(Offset(m, c), |sightings| as real)
  {
    hide Times;
    var c, a := Centroid(sightings), m.scale;
    var scatter, pull := ScatterOf(a, c), PullOf(a, c, OffX(m, c), OffY(m, c));
    forall s ensures ErrorOf(m)(s) == Offset(m, c) + Times(1.0, scatter(s)) + Times(1.0, pull(s)) {
      OneSighting(m, c, s);
      TimesOne(scatter(s));
      TimesOne(pull(s));
    }
    SumByCombines(ErrorOf(m), sightings, Offset(m, c), 1.0, scatter, 1.0, pull);
    ScatterSum(a, c, sightings);
    PullSum(a, OffX(m, c), OffY(m, c), sightings);
    TimesOne(SumBy(scatter, sightings));
    TimesOne(SumBy(pull, sightings));
  }

  lemma CompleteSquare(a: real, best: real, spread: real, cross: real)
    requires best * spread == cross
    ensures Times(Times(a, a), spread) - Times(2.0 * a, cross)
         == Times(Times(best, best), spread) - Times(2.0 * best, cross) + Times(spread, Times(a - best, a - best))
  {
    assert a * cross == a * best * spread && best * cross == best * best * spread;
    assert (a - best) * (a - best) == a * a - 2.0 * (a * best) + best * best;
  }

  /** How much worse than the best map a map is: nothing, or something positive. */
  function Excess(spread: real, da: real, n: real, offX: real, offY: real): real {
    Times(spread, Times(da, da)) + Times(Times(offX, offX) + Times(offY, offY), n)
  }

  lemma SquareIsPositive(x: real)
    ensures 0.0 <= Times(x, x) && (x == 0.0 || 0.0 < Times(x, x))
  {
    hide Times;
    TimesOne(x);
    if 0.0 < x {
      ProductIsPositive(x, x);
    } else if x < 0.0 {
      ProductIsPositive(-x, -x);
      NegationSquares(x);
    }
  }

  lemma NegationSquares(x: real)
    ensures Times(-x, -x) == Times(x, x)
  {
  }

  lemma TimesCommutes(x: real, y: real)
    ensures Times(x, y) == Times(y, x)
  {
  }

  lemma ProductIsPositive(k: real, x: real)
    requires 0.0 < k && 0.0 <= x
    ensures 0.0 <= Times(k, x) && (x == 0.0 || 0.0 < Times(k, x))
  {
  }

  lemma ExcessIsPositive(spread: real, da: real, n: real, offX: real, offY: real)
    requires 0.0 < spread && 0.0 < n
    ensures 0.0 <= Excess(spread, da, n, offX, offY)
    ensures (da == 0.0 && offX == 0.0 && offY == 0.0) || 0.0 < Excess(spread, da, n, offX, offY)
  {
    hide Times;
    SquareIsPositive(da);
    SquareIsPositive(offX);
    SquareIsPositive(offY);
    ProductIsPositive(spread, Times(da, da));
    ProductIsPositive(n, Times(offX, offX) + Times(offY, offY));
    TimesCommutes(n, Times(offX, offX) + Times(offY, offY));
  }

  /** The squared error is the fitted map's, plus what the distance from it costs. */
  lemma ErrorFromBest(m: PageToScreen, sightings: seq<Sighting>)
    requires sightings != [] && 0.0 < Spread(sightings, Centroid(sightings))
    ensures var c, best := Centroid(sightings), Fitted(sightings);
      SquaredError(m, sightings) == SquaredError(best, sightings)
        + Excess(Spread(sightings, c), m.scale - best.scale, |sightings| as real, OffX(m, c), OffY(m, c))
  {
    hide Times;
    var c, best := Centroid(sightings), Fitted(sightings);
    ErrorAboutCentroid(m, sightings);
    ErrorAboutCentroid(best, sightings);
    assert OffX(best, c) == 0.0 && OffY(best, c) == 0.0;
    TimesOne(0.0);
    TimesOne(|sightings| as real);
    CompleteSquare(m.scale, best.scale, Spread(sightings, c), Cross(sightings, c));
  }

  /** The map the fit returns. */
  function Fitted(sightings: seq<Sighting>): PageToScreen
    requires sightings != [] && Spread(sightings, Centroid(sightings)) != 0.0
  {
    var c := Centroid(sightings);
    var scale := Cross(sightings, c) / Spread(sightings, c);
    PageToScreen(scale, c.screenX - Times(scale, c.pageX), c.screenY - Times(scale, c.pageY))
  }

  ghost predicate LeastSquares(m: PageToScreen, sightings: seq<Sighting>) {
    forall other :: SquaredError(m, sightings) <= SquaredError(other, sightings)
  }

  /** The fitted map has the least squared error of all maps, and every other map has more. */
  lemma FittedIsTheOnlyMinimum(sightings: seq<Sighting>, other: PageToScreen)
    requires sightings != [] && 0.0 < Spread(sightings, Centroid(sightings))
    ensures SquaredError(Fitted(sightings), sightings) <= SquaredError(other, sightings)
    ensures other == Fitted(sightings) || SquaredError(Fitted(sightings), sightings) < SquaredError(other, sightings)
  {
    hide Times;
    var c, best, n := Centroid(sightings), Fitted(sightings), |sightings| as real;
    ErrorFromBest(other, sightings);
    ExcessIsPositive(Spread(sightings, c), other.scale - best.scale, n, OffX(other, c), OffY(other, c));
    if other.scale - best.scale == 0.0 && OffX(other, c) == 0.0 == OffY(other, c) {
      SameMap(other, c);
    }
  }

  lemma SameMap(m: PageToScreen, c: Centre)
    requires OffX(m, c) == 0.0 == OffY(m, c)
    ensures m == PageToScreen(m.scale, c.screenX - Times(m.scale, c.pageX), c.screenY - Times(m.scale, c.pageY))
  {
  }

  /** Every sighting is where the map says. */
  ghost predicate OnMap(m: PageToScreen, sightings: seq<Sighting>) {
    forall k :: 0 <= k < |sightings| ==> ErrorX(m, sightings[k]) == 0.0 == ErrorY(m, sightings[k])
  }

  lemma {:induction false} SquaredErrorSign(m: PageToScreen, sightings: seq<Sighting>)
    ensures 0.0 <= SquaredError(m, sightings)
    ensures OnMap(m, sightings) ==> SquaredError(m, sightings) == 0.0
  {
    hide Times;
    if sightings != [] {
      var front, s := sightings[..|sightings| - 1], sightings[|sightings| - 1];
      SquaredErrorSign(m, front);
      SquareIsPositive(ErrorX(m, s));
      SquareIsPositive(ErrorY(m, s));
      TimesOne(0.0);
    }
  }

  /** Sightings that lie on a map are fitted by exactly that map, with no residual. */
  lemma ExactSightingsAreRecovered(sightings: seq<Sighting>, m: PageToScreen)
    requires sightings != [] && 0.0 < Spread(sightings, Centroid(sightings))
    requires OnMap(m, sightings)
    ensures Fitted(sightings) == m && SquaredError(Fitted(sightings), sightings) == 0.0
  {
    hide Times;
    SquaredErrorSign(m, sightings);
    SquaredErrorSign(Fitted(sightings), sightings);
    FittedIsTheOnlyMinimum(sightings, m);
  }

  // ---- Scrolling ----

  function Scrolled(sightings: seq<Sighting>, dx: real, dy: real): seq<Sighting> {
    seq(|sightings|, i requires 0 <= i < |sightings| =>
      sightings[i].(screenX := sightings[i].screenX + dx, screenY := sightings[i].screenY + dy))
  }

  function ScrolledMap(m: PageToScreen, dx: real, dy: real): PageToScreen {
    PageToScreen(m.scale, m.tx + dx, m.ty + dy)
  }

  /** What is the same sighting by sighting is the same in sum. */
  lemma {:induction false} ScrollKeepsSums(f: Sighting -> real, g: Sighting -> real, sightings: seq<Sighting>, dx: real, dy: real)
    requires forall k :: 0 <= k < |sightings| ==> g(Scrolled(sightings, dx, dy)[k]) == f(sightings[k])
    ensures SumBy(g, Scrolled(sightings, dx, dy)) == SumBy(f, sightings)
  {
    if sightings != [] {
      var front := sightings[..|sightings| - 1];
      assert Scrolled(sightings, dx, dy)[..|front|] == Scrolled(front, dx, dy);
      assert forall k :: 0 <= k < |front| ==> Scrolled(front, dx, dy)[k] == Scrolled(sightings, dx, dy)[k];
      ScrollKeepsSums(f, g, front, dx, dy);
    }
  }

  lemma ScrollKeepsErrors(m: PageToScreen, sightings: seq<Sighting>, dx: real, dy: real)
    ensures SquaredError(ScrolledMap(m, dx, dy), Scrolled(sightings, dx, dy)) == SquaredError(m, sightings)
  {
    var moved, map_ := Scrolled(sightings, dx, dy), ScrolledMap(m, dx, dy);
    forall k | 0 <= k < |sightings|
      ensures ErrorOf(map_)(moved[k]) == ErrorOf(m)(sightings[k])
    {
      assert ErrorX(map_, moved[k]) == ErrorX(m, sightings[k]) && ErrorY(map_, moved[k]) == ErrorY(m, sightings[k]);
    }
    ScrollKeepsSums(ErrorOf(m), ErrorOf(map_), sightings, dx, dy);
  }

  lemma ScrollKeepsSpread(sightings: seq<Sighting>, dx: real, dy: real)
    requires sightings != []
    ensures var moved := Scrolled(sightings, dx, dy);
      Spread(moved, Centroid(moved)) == Spread(sightings, Centroid(sightings))
  {
    var moved := Scrolled(sightings, dx, dy);
    ScrollKeepsSums(PAGE_X, PAGE_X, sightings, dx, dy);
    ScrollKeepsSums(PAGE_Y, PAGE_Y, sightings, dx, dy);
    ScrollKeepsSums(SpreadOf(Centroid(sightings)), SpreadOf(Centroid(moved)), sightings, dx, dy);
  }

  /** Moving every found position, as scrolling the page does, moves only the translation. */
  lemma ScrollMovesOnlyTheTranslation(sightings: seq<Sighting>, dx: real, dy: real)
    requires sightings != [] && 0.0 < Spread(sightings, Centroid(sightings))
    ensures var moved := Scrolled(sightings, dx, dy);
      && Spread(moved, Centroid(moved)) == Spread(sightings, Centroid(sightings))
      && Fitted(moved) == ScrolledMap(Fitted(sightings), dx, dy)
      && SquaredError(Fitted(moved), moved) == SquaredError(Fitted(sightings), sightings)
  {
    hide Times;
    var moved := Scrolled(sightings, dx, dy);
    ScrollKeepsSpread(sightings, dx, dy);
    var best, back := Fitted(moved), ScrolledMap(Fitted(moved), -dx, -dy);
    ScrollKeepsErrors(Fitted(sightings), sightings, dx, dy);
    ScrollKeepsErrors(back, sightings, dx, dy);
    assert ScrolledMap(back, dx, dy) == best;
    FittedIsTheOnlyMinimum(sightings, back);
    FittedIsTheOnlyMinimum(moved, ScrolledMap(Fitted(sightings), dx, dy));
  }

  // ---- The code ----

  method SumPositions(sightings: seq<Sighting>) returns (pageX: real, pageY: real, screenX: real, screenY: real)
    ensures pageX == SumBy(PAGE_X, sightings) && pageY == SumBy(PAGE_Y, sightings)
    ensures screenX == SumBy(SCREEN_X, sightings) && screenY == SumBy(SCREEN_Y, sightings)
  {
    pageX, pageY, screenX, screenY := 0.0, 0.0, 0.0, 0.0;
    var next := 0;
    while next < |sightings|
      invariant 0 <= next <= |sightings|
      invariant pageX == SumBy(PAGE_X, sightings[..next]) && pageY == SumBy(PAGE_Y, sightings[..next])
      invariant screenX == SumBy(SCREEN_X, sightings[..next]) && screenY == SumBy(SCREEN_Y, sightings[..next])
    {
      var s := sightings[next];
      pageX, pageY := pageX + s.pageX, pageY + s.pageY;
      screenX, screenY := screenX + s.screenX, screenY + s.screenY;
      next := next + 1;
      assert sightings[..next][..next - 1] == sightings[..next - 1];
    }
    assert sightings[..next] == sightings;
  }

  method SumScatter(sightings: seq<Sighting>, mean: Centre) returns (cross: real, spread: real)
    ensures cross == Cross(sightings, mean) && spread == Spread(sightings, mean)
  {
    cross, spread := 0.0, 0.0;
    var next := 0;
    while next < |sightings|
      invariant 0 <= next <= |sightings|
      invariant cross == Cross(sightings[..next], mean) && spread == Spread(sightings[..next], mean)
    {
      var s := sightings[next];
      cross := cross + CrossOf(mean)(s);
      spread := spread + SpreadOf(mean)(s);
      next := next + 1;
      assert sightings[..next][..next - 1] == sightings[..next - 1];
    }
    assert sightings[..next] == sightings;
  }

  method SumErrors(sightings: seq<Sighting>, m: PageToScreen) returns (squaredError: real)
    ensures squaredError == SquaredError(m, sightings)
  {
    squaredError := 0.0;
    var next := 0;
    while next < |sightings|
      invariant 0 <= next <= |sightings|
      invariant squaredError == SquaredError(m, sightings[..next])
    {
      var s := sightings[next];
      squaredError := squaredError + ErrorOf(m)(s);
      next := next + 1;
      assert sightings[..next][..next - 1] == sightings[..next - 1];
    }
    assert sightings[..next] == sightings;
  }

  /** Squares add up to nothing exactly if every one of them is nothing. */
  lemma {:induction false} SpreadAbout(sightings: seq<Sighting>, c: Centre)
    ensures 0.0 <= Spread(sightings, c)
    ensures Spread(sightings, c) == 0.0 <==>
      forall i :: 0 <= i < |sightings| ==> sightings[i].pageX == c.pageX && sightings[i].pageY == c.pageY
  {
    if sightings != [] {
      var front, last := sightings[..|sightings| - 1], sightings[|sightings| - 1];
      SpreadAbout(front, c);
      SquareIsPositive(last.pageX - c.pageX);
      SquareIsPositive(last.pageY - c.pageY);
      TimesOne(0.0);
      hide Times;
      assert Spread(sightings, c) == Spread(front, c) + SpreadOf(c)(last);
    }
  }

  lemma {:induction false} SameSum(f: Sighting -> real, at: real, sightings: seq<Sighting>)
    requires forall i :: 0 <= i < |sightings| ==> f(sightings[i]) == at
    ensures SumBy(f, sightings) == Times(at, |sightings| as real)
  {
    hide Times;
    TimesOne(at);
    if sightings != [] {
      SameSum(f, at, sightings[..|sightings| - 1]);
      TimesSum(at, (|sightings| - 1) as real, 1.0);
    }
  }

  lemma MeanOfSame(at: real, n: real)
    requires n != 0.0
    ensures Times(at, n) / n == at
  {
  }

  /** There is no spread exactly if all the fiducials were authored in one place. */
  lemma SpreadVanishesExactly(sightings: seq<Sighting>)
    requires sightings != []
    ensures Spread(sightings, Centroid(sightings)) == 0.0 <==>
      forall i :: 0 <= i < |sightings| ==> sightings[i].pageX == sightings[0].pageX && sightings[i].pageY == sightings[0].pageY
  {
    var c := Centroid(sightings);
    SpreadAbout(sightings, c);
    hide Times, SumBy, Spread;
    if forall i :: 0 <= i < |sightings| ==> sightings[i].pageX == sightings[0].pageX && sightings[i].pageY == sightings[0].pageY {
      SameSum(PAGE_X, sightings[0].pageX, sightings);
      SameSum(PAGE_Y, sightings[0].pageY, sightings);
      MeanOfSame(sightings[0].pageX, |sightings| as real);
      MeanOfSame(sightings[0].pageY, |sightings| as real);
    }
  }

  lemma FittedIsTheLeastSquares(sightings: seq<Sighting>)
    requires sightings != [] && 0.0 < Spread(sightings, Centroid(sightings))
    ensures LeastSquares(Fitted(sightings), sightings)
    ensures forall other :: LeastSquares(other, sightings) ==> other == Fitted(sightings)
  {
    forall other
      ensures SquaredError(Fitted(sightings), sightings) <= SquaredError(other, sightings)
      ensures other == Fitted(sightings) || SquaredError(Fitted(sightings), sightings) < SquaredError(other, sightings)
    {
      FittedIsTheOnlyMinimum(sightings, other);
    }
  }

  lemma MeanTimesCount(sum: real, count: real)
    requires count != 0.0
    ensures sum / count * count == sum
  {
  }

  /** Fails exactly on too few or too bunched sightings; otherwise returns the one map with the least
      squared error, and that error per sighting. */
  method SolvePageToScreen(sightings: seq<Sighting>) returns (r: Result<AffineFit>)
    ensures r.Err? <==> |sightings| < MINIMUM_SIGHTINGS || Spread(sightings, Centroid(sightings)) < MINIMUM_SPREAD
    ensures r.Err? ==> r.error == INVALID_ARGUMENT
    ensures r.Ok? ==> LeastSquares(r.value.map_, sightings)
    ensures r.Ok? ==> forall other :: LeastSquares(other, sightings) ==> other == r.value.map_
    ensures r.Ok? ==> r.value.map_ == Fitted(sightings) && r.value.used == |sightings|
    ensures r.Ok? ==> r.value.meanSquaredError * |sightings| as real == SquaredError(r.value.map_, sightings)
  {
    if |sightings| < MINIMUM_SIGHTINGS {
      return Err(INVALID_ARGUMENT);
    }
    hide LeastSquares, SquaredError, Spread, Cross, SumBy, Times;
    var count := |sightings| as real;
    var pageX, pageY, screenX, screenY := SumPositions(sightings);
    var mean := Centre(pageX / count, pageY / count, screenX / count, screenY / count);
    var cross, spread := SumScatter(sightings, mean);
    if spread < MINIMUM_SPREAD {
      return Err(INVALID_ARGUMENT);
    }
    var scale := cross / spread;
    var fitted := PageToScreen(scale, mean.screenX - Times(scale, mean.pageX), mean.screenY - Times(scale, mean.pageY));
    var squaredError := SumErrors(sightings, fitted);
    assert fitted == Fitted(sightings);
    FittedIsTheLeastSquares(sightings);
    MeanTimesCount(squaredError, count);
    return Ok(AffineFit(fitted, squaredError / count, |sightings|));
  }
}
