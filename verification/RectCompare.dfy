/** Comparing an authored rectangle with an observed one: edge displacements and overlap ratio. */
module RectCompare {
  import opened PageFit

  datatype RectVerdict = RectVerdict(dx: real, dy: real, dw: real, dh: real, iou: real, ok: bool)

  function Max(a: real, b: real): real {
    if a < b then b else a
  }

  function Min(a: real, b: real): real {
    if b < a then b else a
  }

  function Abs(x: real): real {
    if x < 0.0 then -x else x
  }

  function Area(r: Rect): real {
    Times(r.w, r.h)
  }

  /** The two extents of the intersection; not positive if there is none. */
  function OverlapW(a: Rect, b: Rect): real {
    Min(a.x + a.w, b.x + b.w) - Max(a.x, b.x)
  }

  function OverlapH(a: Rect, b: Rect): real {
    Min(a.y + a.h, b.y + b.h) - Max(a.y, b.y)
  }

  function IntersectionOverUnion(a: Rect, b: Rect): real {
    if OverlapW(a, b) <= 0.0 || OverlapH(a, b) <= 0.0 then 0.0
    else
      var overlap := Times(OverlapW(a, b), OverlapH(a, b));
      var union := Area(a) + Area(b) - overlap;
      if 0.0 < union then overlap / union else 0.0
  }

  function CompareRects(expected: Rect, observed: Rect, tolerance: real, minimumIou: real): RectVerdict {
    var dx, dy, dw, dh := observed.x - expected.x, observed.y - expected.y, observed.w - expected.w, observed.h - expected.h;
    var iou := IntersectionOverUnion(expected, observed);
    var within := Abs(dx) <= tolerance && Abs(dy) <= tolerance && Abs(dw) <= tolerance && Abs(dh) <= tolerance;
    RectVerdict(dx, dy, dw, dh, iou, within && iou >= minimumIou)
  }

  predicate Positive(r: Rect) {
    0.0 < r.w && 0.0 < r.h
  }

  predicate Overlap(a: Rect, b: Rect) {
    0.0 < OverlapW(a, b) && 0.0 < OverlapH(a, b)
  }

  lemma IouIsSymmetric(a: Rect, b: Rect)
    ensures IntersectionOverUnion(a, b) == IntersectionOverUnion(b, a)
  {
    hide Times;
  }

  // ---- The ratio lies between nothing and identity ----

  lemma ProductGrows(a: real, b: real, c: real, d: real)
    requires 0.0 < a <= c && 0.0 < b <= d
    ensures 0.0 < Times(a, b) <= Times(c, d)
    ensures a < c || b < d ==> Times(a, b) < Times(c, d)
  {
    assert c * d - a * b == c * (d - b) + (c - a) * b;
    ProductIsPositive(a, b);
    ProductIsPositive(c, d - b);
    ProductIsPositive(b, c - a);
  }

  /** An overlap is no larger than the rectangle, and as large only if it covers it. */
  lemma OverlapFits(a: Rect, b: Rect)
    requires Overlap(a, b)
    ensures var overlap := Times(OverlapW(a, b), OverlapH(a, b));
      && 0.0 < overlap <= Area(a)
      && (overlap == Area(a) ==> OverlapW(a, b) == a.w && OverlapH(a, b) == a.h)
  {
    hide Times;
    ProductGrows(OverlapW(a, b), OverlapH(a, b), a.w, a.h);
  }

  lemma RatioOf(part: real, whole: real)
    requires 0.0 < part <= whole
    ensures 0.0 < part / whole <= 1.0 && (part / whole == 1.0 <==> part == whole)
  {
    if part < whole {
      assert (part / whole) * whole == part;
      if 1.0 <= part / whole {
        RatioTimes(part / whole, whole);
      }
    }
  }

  lemma RatioTimes(ratio: real, whole: real)
    requires 0.0 < whole && 1.0 <= ratio
    ensures whole <= ratio * whole
  {
    assert (ratio - 1.0) * whole >= 0.0;
  }

  lemma OverlapIsSymmetric(a: Rect, b: Rect)
    ensures OverlapW(a, b) == OverlapW(b, a) && OverlapH(a, b) == OverlapH(b, a)
  {
  }

  /** The overlap ratio is between zero and one, and one exactly for two identical rectangles of positive
      extent. */
  lemma IouIsARatio(a: Rect, b: Rect)
    ensures 0.0 <= IntersectionOverUnion(a, b) <= 1.0
    ensures IntersectionOverUnion(a, b) == 1.0 <==> a == b && Positive(a)
  {
    hide Times;
    if Overlap(a, b) {
      OverlapFits(a, b);
      OverlapIsSymmetric(a, b);
      OverlapFits(b, a);
      var overlap := Times(OverlapW(a, b), OverlapH(a, b));
      RatioOf(overlap, Area(a) + Area(b) - overlap);
    }
  }

  // ---- Mapping both rectangles changes nothing ----

  lemma MappedExtent(scale: real, t: real, low: real, extent: real)
    ensures Times(low, scale) + t + Times(extent, scale) == Times(low + extent, scale) + t
  {
  }

  lemma MapKeepsOrder(scale: real, t: real, x: real, y: real)
    requires 0.0 < scale
    ensures x < y <==> Times(x, scale) + t < Times(y, scale) + t
  {
    ProductIsPositive(scale, if x < y then y - x else x - y);
    assert Times(scale, y - x) == Times(y, scale) - Times(x, scale);
    assert Times(scale, x - y) == Times(x, scale) - Times(y, scale);
  }

  lemma MappedOverlap(scale: real, t: real, x1: real, w1: real, x2: real, w2: real)
    requires 0.0 < scale
    ensures Min(Times(x1, scale) + t + Times(w1, scale), Times(x2, scale) + t + Times(w2, scale))
              - Max(Times(x1, scale) + t, Times(x2, scale) + t)
         == Times(Min(x1 + w1, x2 + w2) - Max(x1, x2), scale)
  {
    hide Times;
    MappedExtent(scale, t, x1, w1);
    MappedExtent(scale, t, x2, w2);
    MapKeepsOrder(scale, t, x1, x2);
    MapKeepsOrder(scale, t, x2 + w2, x1 + w1);
    MappedExtent(scale, 0.0, Max(x1, x2), Min(x1 + w1, x2 + w2) - Max(x1, x2));
  }

  lemma ApplyIsTimes(m: PageToScreen, r: Rect)
    ensures m.Apply(r) == Rect(Times(r.x, m.scale) + m.tx, Times(r.y, m.scale) + m.ty, Times(r.w, m.scale), Times(r.h, m.scale))
  {
  }

  lemma ScaledProduct(a: real, b: real, scale: real)
    ensures Times(Times(a, scale), Times(b, scale)) == Times(Times(a, b), Times(scale, scale))
  {
  }

  lemma ScaledRatio(part: real, whole: real, k: real)
    requires 0.0 < k && 0.0 < whole
    ensures 0.0 < Times(whole, k) && Times(part, k) / Times(whole, k) == part / whole
  {
    ProductIsPositive(k, whole);
    TimesCommutes(k, whole);
    var q := part / whole;
    assert q * whole == part;
    assert Times(part, k) == q * Times(whole, k);
  }

  lemma SumScales(a: real, b: real, c: real, k: real)
    ensures Times(a, k) + Times(b, k) - Times(c, k) == Times(a + b - c, k)
  {
  }

  /** A page-to-screen map with positive scale keeps the overlap ratio. */
  lemma IouIsScaleInvariant(m: PageToScreen, a: Rect, b: Rect)
    requires 0.0 < m.scale
    ensures IntersectionOverUnion(m.Apply(a), m.Apply(b)) == IntersectionOverUnion(a, b)
  {
    hide Times;
    var ma, mb, s := m.Apply(a), m.Apply(b), m.scale;
    ApplyIsTimes(m, a);
    ApplyIsTimes(m, b);
    MappedOverlap(s, m.tx, a.x, a.w, b.x, b.w);
    MappedOverlap(s, m.ty, a.y, a.h, b.y, b.h);
    assert OverlapW(ma, mb) == Times(OverlapW(a, b), s) && OverlapH(ma, mb) == Times(OverlapH(a, b), s);
    MapKeepsOrder(s, 0.0, 0.0, OverlapW(a, b));
    MapKeepsOrder(s, 0.0, 0.0, OverlapH(a, b));
    TimesOne(s);
    if Overlap(a, b) {
      var k, overlap := Times(s, s), Times(OverlapW(a, b), OverlapH(a, b));
      var union := Area(a) + Area(b) - overlap;
      ProductIsPositive(s, s);
      OverlapFits(a, b);
      OverlapIsSymmetric(a, b);
      OverlapFits(b, a);
      ScaledProduct(OverlapW(a, b), OverlapH(a, b), s);
      ScaledProduct(a.w, a.h, s);
      ScaledProduct(b.w, b.h, s);
      SumScales(Area(a), Area(b), overlap, k);
      ScaledRatio(overlap, union, k);
    }
  }

  /** The point is in the interior of the rectangle. */
  predicate Inside(r: Rect, x: real, y: real) {
    r.x < x < r.x + r.w && r.y < y < r.y + r.h
  }

  /** The rectangle of the common points. */
  function Common(a: Rect, b: Rect): Rect {
    Rect(Max(a.x, b.x), Max(a.y, b.y), OverlapW(a, b), OverlapH(a, b))
  }

  lemma CommonShare(a: Rect, b: Rect)
    requires Positive(Common(a, b))
    ensures var union := Area(a) + Area(b) - Area(Common(a, b));
      0.0 < union && IntersectionOverUnion(a, b) * union == Area(Common(a, b))
  {
    hide Times;
    OverlapFits(a, b);
    OverlapIsSymmetric(a, b);
    OverlapFits(b, a);
    QuotientTimes(Area(Common(a, b)), Area(a) + Area(b) - Area(Common(a, b)));
  }

  lemma CommonHolds(a: Rect, b: Rect)
    ensures forall x, y :: Inside(Common(a, b), x, y) <==> Inside(a, x, y) && Inside(b, x, y)
    ensures !Positive(Common(a, b)) ==> IntersectionOverUnion(a, b) == 0.0
  {
    hide Times;
  }

  /** The ratio is what the rectangles share of what they cover: the area of the rectangle of their common points,
      against both areas without it; nothing if they have no point in common. */
  lemma IouIsTheCommonShare(a: Rect, b: Rect) returns (common: Rect)
    ensures forall x, y :: Inside(common, x, y) <==> Inside(a, x, y) && Inside(b, x, y)
    ensures Positive(common) ==>
      var union := a.w * a.h + b.w * b.h - common.w * common.h;
      0.0 < union && IntersectionOverUnion(a, b) * union == common.w * common.h
    ensures !Positive(common) ==> IntersectionOverUnion(a, b) == 0.0
  {
    hide *;
    common := Common(a, b);
    CommonHolds(a, b);
    AreaIsTheProduct(a);
    AreaIsTheProduct(b);
    AreaIsTheProduct(common);
    if Positive(common) { CommonShare(a, b); }
  }

  lemma AreaIsTheProduct(r: Rect)
    ensures Area(r) == r.w * r.h
  {
  }

  // ---- The verdict ----

  predicate Near(a: real, b: real, tolerance: real) {
    b - tolerance <= a <= b + tolerance
  }

  /** The verdict says by how much each edge and extent is off, and is positive exactly if each is within the
      tolerance and the overlap reaches the minimum. */
  lemma VerdictExactly(expected: Rect, observed: Rect, tolerance: real, minimumIou: real)
    ensures var v := CompareRects(expected, observed, tolerance, minimumIou);
      && observed == Rect(expected.x + v.dx, expected.y + v.dy, expected.w + v.dw, expected.h + v.dh)
      && v.iou == IntersectionOverUnion(expected, observed)
      && (v.ok <==>
            && Near(observed.x, expected.x, tolerance) && Near(observed.y, expected.y, tolerance)
            && Near(observed.w, expected.w, tolerance) && Near(observed.h, expected.h, tolerance)
            && minimumIou <= v.iou)
  {
  }

  /** With no tolerance, a verdict is positive exactly for equality, and then only if the overlap a
      rectangle has with itself reaches the minimum. */
  lemma ExactVerdictIsEquality(expected: Rect, observed: Rect, minimumIou: real)
    ensures CompareRects(expected, observed, 0.0, minimumIou).ok <==>
      observed == expected && minimumIou <= if Positive(expected) then 1.0 else 0.0
  {
    hide Times;
    IouIsARatio(expected, observed);
    if observed == expected && !Positive(expected) {
      assert OverlapW(expected, observed) == Min(expected.x + expected.w, expected.x + expected.w) - expected.x;
    }
  }

  /** Which rectangle is called the expected one does not matter for the verdict. */
  lemma VerdictIsSymmetric(expected: Rect, observed: Rect, tolerance: real, minimumIou: real)
    ensures CompareRects(expected, observed, tolerance, minimumIou).ok
         == CompareRects(observed, expected, tolerance, minimumIou).ok
  {
    IouIsSymmetric(expected, observed);
  }
}
