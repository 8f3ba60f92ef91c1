/** Measuring where overlay shapes render: one probe, one capture, one affine map per axis. Lengths are reals. */
module OverlayAlign {
  import opened Wrappers
  import opened PixelScan

  datatype Rect = Rect(x: real, y: real, w: real, h: real) {
    function CenterX(): real {
      x + w / 2.0
    }

    function CenterY(): real {
      y + h / 2.0
    }
  }

  const PROBE_SIZE: real := 24.0
  const SIZE_SLACK: real := 3.0

  function Abs(x: real): real {
    if x < 0.0 then -x else x
  }

  function Product(a: real, b: real): real {
    a * b
  }

  /** From a place on the display to the place to hand the overlay. */
  datatype OverlayMap = OverlayMap(sx: real, sy: real, dx: real, dy: real, measured: bool) {
    predicate Plausible() {
      0.5 <= sx <= 4.0 && 0.5 <= sy <= 4.0
    }

    function X(deviceX: real): real
      requires sx != 0.0
    {
      (deviceX - dx) / sx
    }

    function Y(deviceY: real): real
      requires sy != 0.0
    {
      (deviceY - dy) / sy
    }

    function Drawn(device: Rect): Rect
      requires sx != 0.0 && sy != 0.0
    {
      Rect(X(device.x), Y(device.y), device.w / sx, device.h / sy)
    }

    predicate Identity() {
      Abs(sx - 1.0) < 0.01 && Abs(sy - 1.0) < 0.01 && Abs(dx) < 1.5 && Abs(dy) < 1.5
    }

    /** Where the display shows what the overlay was handed. */
    function RendersX(overlayX: real): real {
      Product(sx, overlayX) + dx
    }

    function RendersY(overlayY: real): real {
      Product(sy, overlayY) + dy
    }

    function Renders(drawn: Rect): Rect {
      Rect(RendersX(drawn.x), RendersY(drawn.y), Product(sx, drawn.w), Product(sy, drawn.h))
    }
  }

  const UNMEASURED := OverlayMap(1.0, 1.0, 0.0, 0.0, false)

  function Quantised(found: real): real {
    if Abs(found - PROBE_SIZE) <= SIZE_SLACK then 1.0 else found / PROBE_SIZE
  }

  /** The map as fitted, before identity is snapped. */
  function Fitted(box: Box, probeX: real, probeY: real): OverlayMap {
    var sx, sy := Quantised(box.Width() as real), Quantised(box.Height() as real);
    OverlayMap(sx, sy, box.minX as real - Product(sx, probeX), box.minY as real - Product(sy, probeY), true)
  }

  function Snapped(m: OverlayMap): OverlayMap {
    if m.Identity() then OverlayMap(1.0, 1.0, 0.0, 0.0, true) else m
  }

  predicate Located(frame: Option<Image>) {
    && frame.Some? && frame.value.width != 0 && frame.value.height != 0
    && Sane(ScanAll(frame.value, MagentaProbe), PROBE_SIZE)
  }

  /** The probe is located exactly in a capture with room, if its matches fill at least half of their box and that
      is from twelve to ninety-six pixels each way. */
  lemma LocatedExactly(frame: Image)
    ensures var box := ScanAll(frame, MagentaProbe); var w, h := box.maxX - box.minX + 1, box.maxY - box.minY + 1;
      Located(Some(frame)) <==>
        0 < frame.width && 0 < frame.height && 0 < box.hits && 12 <= w <= 96 && 12 <= h <= 96 && w * h <= 2 * box.hits
  {
    var box := ScanAll(frame, MagentaProbe);
    HalfFull(box.maxX - box.minX + 1, box.maxY - box.minY + 1, box.hits);
  }

  lemma HalfFull(w: int, h: int, hits: nat)
    ensures hits as real >= 0.5 * w as real * h as real <==> w * h <= 2 * hits
  {
    assert (w * h) as real == w as real * h as real;
  }

  /** The map renders the probe where it was found: the near corner exactly, the far one within three pixels. If the
      probe was found as large as it is, within three pixels, and less than one and a half from where it was drawn,
      the map is the identity. */
  ghost predicate Finds(m: OverlayMap, box: Box, probeX: real, probeY: real) {
    var w, h := (box.maxX - box.minX + 1) as real, (box.maxY - box.minY + 1) as real;
    if Abs(w - 24.0) <= 3.0 && Abs(h - 24.0) <= 3.0 && Abs(box.minX as real - probeX) < 1.5 && Abs(box.minY as real - probeY) < 1.5
    then m == OverlayMap(1.0, 1.0, 0.0, 0.0, true)
    else
      && m.RendersX(probeX) == box.minX as real && m.RendersY(probeY) == box.minY as real
      && Abs(m.RendersX(probeX + 24.0) - (box.minX as real + w)) <= 3.0
      && Abs(m.RendersY(probeY + 24.0) - (box.minY as real + h)) <= 3.0
  }

  lemma FitFinds(box: Box, probeX: real, probeY: real)
    ensures Finds(Snapped(Fitted(box, probeX, probeY)), box, probeX, probeY)
  {
    SnapsExactlyWhenClose(box, probeX, probeY);
    ProbeIsWhereItWasFound(box, probeX, probeY);
    hide Product;
  }

  /** `overlay` says whether there is an overlay at all, `drawn` whether it took the probe, and `frame` is the
      capture, if it succeeded. */
  method Measure(overlay: bool, drawn: bool, frame: Option<Image>, probeX: real, probeY: real) returns (m: OverlayMap)
    ensures m.Plausible() && (m.measured <==> overlay && drawn && Located(frame))
    ensures !m.measured ==> m == OverlayMap(1.0, 1.0, 0.0, 0.0, false)
    ensures m.measured ==> m == Snapped(Fitted(ScanAll(frame.value, MagentaProbe), probeX, probeY))
    ensures m.measured ==> Finds(m, ScanAll(frame.value, MagentaProbe), probeX, probeY)
  {
    m := UNMEASURED;
    if !overlay || !drawn || frame.None? || frame.value.width == 0 || frame.value.height == 0 { return; }
    var box := Scan(frame.value, MagentaProbe);
    if !Sane(box, PROBE_SIZE) { return; }
    FitIsPlausible(box, probeX, probeY);
    FitFinds(box, probeX, probeY);
    hide Finds;
    var sx, sy := Quantised(box.Width() as real), Quantised(box.Height() as real);
    m := OverlayMap(sx, sy, box.minX as real - Product(sx, probeX), box.minY as real - Product(sy, probeY), true);
    if m.Identity() { m := m.(sx := 1.0, sy := 1.0, dx := 0.0, dy := 0.0); }
  }

  lemma FitIsPlausible(box: Box, probeX: real, probeY: real)
    requires Sane(box, PROBE_SIZE)
    ensures Fitted(box, probeX, probeY).Plausible()
  {
    hide Product;
  }

  // ---- What a measured map promises ----

  lemma DivisionUndoes(s: real, x: real)
    requires s != 0.0
    ensures Product(s, x / s) == x && Product(s, x) / s == x
  {
  }

  /** Drawing where the map says renders exactly where it was wanted, for points and for rectangles; and the
      map of where a point renders is that point. */
  lemma MapsAreInverse(m: OverlayMap, device: Rect, overlay: real)
    requires m.Plausible()
    ensures m.Renders(m.Drawn(device)) == device
    ensures m.X(m.RendersX(overlay)) == overlay && m.Y(m.RendersY(overlay)) == overlay
  {
    hide Product;
    DivisionUndoes(m.sx, device.x - m.dx);
    DivisionUndoes(m.sy, device.y - m.dy);
    DivisionUndoes(m.sx, device.w);
    DivisionUndoes(m.sy, device.h);
    DivisionUndoes(m.sx, overlay);
    DivisionUndoes(m.sy, overlay);
  }

  lemma OneTimes(x: real)
    ensures Product(1.0, x) == x
  {
  }

  lemma DistributesOver(s: real, a: real, b: real)
    ensures Product(s, a + b) == Product(s, a) + Product(s, b)
  {
  }

  lemma ProbeScales(found: real)
    ensures Abs(Product(Quantised(found), PROBE_SIZE) - found) <= SIZE_SLACK
    ensures Quantised(found) == 1.0 || 3.0 < Abs(found - PROBE_SIZE)
    ensures Abs(Quantised(found) - 1.0) < 0.01 ==> Quantised(found) == 1.0
  {
  }

  /** Identity is what the fit becomes exactly if both sizes are within the slack and the probe is found less
      than one and a half pixels from where it was drawn, on both axes. */
  lemma SnapsExactlyWhenClose(box: Box, probeX: real, probeY: real)
    ensures Fitted(box, probeX, probeY).Identity() <==>
      && Abs(box.Width() as real - PROBE_SIZE) <= SIZE_SLACK && Abs(box.Height() as real - PROBE_SIZE) <= SIZE_SLACK
      && Abs(box.minX as real - probeX) < 1.5 && Abs(box.minY as real - probeY) < 1.5
  {
    hide Product;
    OneTimes(probeX);
    OneTimes(probeY);
    ScaleOneExactlyInSlack(box.Width() as real);
    ScaleOneExactlyInSlack(box.Height() as real);
  }

  lemma ScaleOneExactlyInSlack(found: real)
    ensures Abs(Quantised(found) - 1.0) < 0.01 <==> Abs(found - PROBE_SIZE) <= SIZE_SLACK
    ensures Abs(found - PROBE_SIZE) <= SIZE_SLACK ==> Quantised(found) == 1.0
  {
  }

  /** A measured map renders the probe's near corner where it was found: exactly, or within a pixel and a half
      if the map was snapped to identity. Its far corner is off by three pixels more at most. */
  lemma ProbeIsWhereItWasFound(box: Box, probeX: real, probeY: real)
    ensures var m, slack := Snapped(Fitted(box, probeX, probeY)), if Fitted(box, probeX, probeY).Identity() then 1.5 else 0.0;
      && Abs(m.RendersX(probeX) - box.minX as real) <= slack && Abs(m.RendersY(probeY) - box.minY as real) <= slack
      && Abs(m.RendersX(probeX + PROBE_SIZE) - (box.minX + box.Width()) as real) <= SIZE_SLACK + slack
      && Abs(m.RendersY(probeY + PROBE_SIZE) - (box.minY + box.Height()) as real) <= SIZE_SLACK + slack
  {
    hide Product;
    SnapsExactlyWhenClose(box, probeX, probeY);
    AxisIsFound(box.minX as real, box.Width() as real, probeX);
    AxisIsFound(box.minY as real, box.Height() as real, probeY);
    OneTimes(probeX);
    OneTimes(probeY);
    OneTimes(probeX + PROBE_SIZE);
    OneTimes(probeY + PROBE_SIZE);
  }

  lemma AxisIsFound(least: real, found: real, probe: real)
    ensures var s := Quantised(found);
      Abs(Product(s, probe + PROBE_SIZE) + (least - Product(s, probe)) - (least + found)) <= SIZE_SLACK
  {
    hide Product;
    ProbeScales(found);
    DistributesOver(Quantised(found), probe, PROBE_SIZE);
  }
}
