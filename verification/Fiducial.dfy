/** Anchoring accessibility coordinates to rendered pixels: two coloured patches in opposite corners of the page
    give one affine map per axis. Lengths are reals. */
module Fiducial {
  import opened Wrappers
  import opened PixelScan
  import opened OverlayAlign

  const PATCH_SIZE: real := 18.0
  const PATCH_A := Patch(Colour(255, 0, 102))
  const PATCH_B := Patch(Colour(102, 255, 0))

  const MIN_SPAN: real := 100.0
  const SANE_LOW: real := 0.5
  const SANE_HIGH: real := 3.0

  /** From a place in accessibility space to the place it renders. */
  datatype SpaceMap = SpaceMap(sx: real, sy: real, dx: real, dy: real, measured: bool) {
    predicate Plausible() {
      SANE_LOW <= sx <= SANE_HIGH && SANE_LOW <= sy <= SANE_HIGH
    }

    predicate Identity() {
      Abs(sx - 1.0) < 0.005 && Abs(sy - 1.0) < 0.005 && Abs(dx) < 1.5 && Abs(dy) < 1.5
    }

    function MapX(x: real): real {
      Product(sx, x) + dx
    }

    function MapY(y: real): real {
      Product(sy, y) + dy
    }

    function MapRect(r: Rect): Rect {
      Rect(MapX(r.x), MapY(r.y), Product(sx, r.w), Product(sy, r.h))
    }
  }

  const RAW_SPACE := SpaceMap(1.0, 1.0, 0.0, 0.0, false)

  // ---- Resolving the patches ----

  const POLL_TRIES: nat := 150

  /** What one look at the accessibility tree gives, if the tree could be synchronised. */
  datatype Look = Look(synced: bool, fida: Option<Rect>, fidb: Option<Rect>)

  datatype Patches = Patches(a: Rect, b: Rect)

  predicate Complete(look: Look) {
    look.synced && look.fida.Some? && look.fidb.Some?
  }

  /** The first look that has both patches. */
  function FirstComplete(looks: seq<Look>): Option<Patches> {
    if looks == [] then None
    else if Complete(looks[0]) then Some(Patches(looks[0].fida.value, looks[0].fidb.value))
    else FirstComplete(looks[1..])
  }

  /** Polls until both patches are seen in one look; patches of different looks are never combined. */
  method Resolve(looks: seq<Look>) returns (fida: Option<Rect>, fidb: Option<Rect>)
    requires |looks| == POLL_TRIES
    ensures fida.Some? && fidb.Some? <==> FirstComplete(looks).Some?
    ensures fida.Some? && fidb.Some? ==> FirstComplete(looks) == Some(Patches(fida.value, fidb.value))
  {
    fida, fidb := None, None;
    for attempt := 0 to POLL_TRIES
      invariant FirstComplete(looks) == FirstComplete(looks[attempt..])
      invariant fida.None? || fidb.None?
    {
      var look := looks[attempt];
      assert looks[attempt..][1..] == looks[attempt + 1..];
      if look.synced {
        fida, fidb := look.fida, look.fidb;
        if fida.Some? && fidb.Some? { break; }
      }
    }
  }

  // ---- Locating a patch ----

  datatype Found = Found(cx: real, cy: real, w: real, h: real)

  /** The centre a believable patch has, and its extent. */
  function Centre(box: Box): Found {
    Found((box.minX as real + box.maxX as real) / 2.0, (box.minY as real + box.maxY as real) / 2.0,
          box.Width() as real, box.Height() as real)
  }

  function Located(frame: Image, patch: Want): Option<Found> {
    if Sane(ScanAll(frame, patch), PATCH_SIZE) then Some(Centre(ScanAll(frame, patch))) else None
  }

  method Locate(frame: Image, patch: Want) returns (found: Option<Found>)
    ensures found == Located(frame, patch)
  {
    var box := Scan(frame, patch);
    if !Sane(box, PATCH_SIZE) { return None; }
    return Some(Centre(box));
  }

  /** A patch that is found lies in the frame, every pixel of its colour is within half its extent of its
      centre, and at least half of that extent has its colour. */
  lemma FoundPatchHoldsEveryMatch(frame: Image, patch: Want, row: nat, col: nat)
    requires Located(frame, patch).Some? && Hit(frame, patch, row, col)
    ensures var found := Located(frame, patch).value;
      && Abs(col as real - found.cx) <= (found.w - 1.0) / 2.0 && Abs(row as real - found.cy) <= (found.h - 1.0) / 2.0
      && 9.0 <= found.w <= 72.0 && 9.0 <= found.h <= 72.0
      && 0.0 <= found.cx < frame.width as real && 0.0 <= found.cy < frame.height as real
  {
    ScanIsTight(frame, patch);
  }

  /** A patch is located exactly if its matches fill at least half of their box and that is from nine to
      seventy-two pixels each way; it is located in the middle of the box. */
  lemma LocatedExactly(frame: Image, patch: Want)
    ensures var box := ScanAll(frame, patch); var w, h := box.maxX - box.minX + 1, box.maxY - box.minY + 1;
      && (Located(frame, patch).Some? <==> 0 < box.hits && 9 <= w <= 72 && 9 <= h <= 72 && w * h <= 2 * box.hits)
      && (Located(frame, patch).Some? ==>
            var found := Located(frame, patch).value;
            2.0 * found.cx == (box.minX + box.maxX) as real && 2.0 * found.cy == (box.minY + box.maxY) as real)
  {
    var box := ScanAll(frame, patch);
    HalfFull(box.maxX - box.minX + 1, box.maxY - box.minY + 1, box.hits);
  }

  // ---- The fit of one axis ----

  /** Where the straight line through both sightings has a coordinate. */
  function Line(a: real, seenA: real, b: real, seenB: real, at: real): real
    requires a != b
  {
    seenA + Product((seenB - seenA) / (b - a), at - a)
  }

  function Quantise(scale: real): real {
    if Abs(scale - 1.0) < 0.01 then 1.0 else scale
  }

  function Scale(a: real, seenA: real, b: real, seenB: real): real
    requires a != b
  {
    Quantise((seenB - seenA) / (b - a))
  }

  predicate Spans(a: Rect, b: Rect) {
    MIN_SPAN <= Abs(b.CenterX() - a.CenterX()) && MIN_SPAN <= Abs(b.CenterY() - a.CenterY())
  }

  /** The map two resolved and located patches give, if it is plausible. */
  function Fitted(a: Rect, b: Rect, seenA: Found, seenB: Found): SpaceMap
    requires Spans(a, b)
  {
    var sx := Scale(a.CenterX(), seenA.cx, b.CenterX(), seenB.cx);
    var sy := Scale(a.CenterY(), seenA.cy, b.CenterY(), seenB.cy);
    SpaceMap(sx, sy, seenA.cx - Product(sx, a.CenterX()), seenA.cy - Product(sy, a.CenterY()), true)
  }

  function Snapped(m: SpaceMap): SpaceMap {
    if m.Identity() then RAW_SPACE.(measured := true) else m
  }

  /** The map installed with the patches that were resolved and the frame that was captured, if they were. */
  function Installed(patches: Option<Patches>, frame: Option<Image>): SpaceMap {
    if patches.None? || frame.None? || frame.value.width == 0 || frame.value.height == 0 then RAW_SPACE
    else
      var a, b := patches.value.a, patches.value.b;
      var seenA, seenB := Located(frame.value, PATCH_A), Located(frame.value, PATCH_B);
      if seenA.None? || seenB.None? || !Spans(a, b) then RAW_SPACE
      else
        var fitted := Fitted(a, b, seenA.value, seenB.value);
        if fitted.Plausible() then Snapped(fitted) else RAW_SPACE
  }

  // ---- When a map is installed, and where it puts the patches ----

  /** The first look at the tree that has both patches. */
  ghost predicate Seen(looks: seq<Look>, k: int) {
    && 0 <= k < |looks| && Complete(looks[k])
    && forall j :: 0 <= j < k ==> !(looks[j].synced && looks[j].fida.Some? && looks[j].fidb.Some?)
  }

  lemma {:induction false} FirstCompleteIsSeen(looks: seq<Look>)
    ensures forall k :: Seen(looks, k) ==> FirstComplete(looks) == Some(Patches(looks[k].fida.value, looks[k].fidb.value))
    ensures (forall k :: !Seen(looks, k)) ==> FirstComplete(looks) == None
  {
    if looks != [] {
      var rest := looks[1..];
      FirstCompleteIsSeen(rest);
      if Complete(looks[0]) {
        assert Seen(looks, 0);
      } else {
        assert forall k :: Seen(looks, k) ==> 0 < k && rest[k - 1] == looks[k];
        assert forall k :: Seen(looks, k) ==> Seen(rest, k - 1);
        assert forall k :: Seen(rest, k) ==> Seen(looks, k + 1);
      }
    }
  }

  function Slope(a: real, seenA: real, b: real, seenB: real): real
    requires a != b
  {
    (seenB - seenA) / (b - a)
  }

  /** Both patches are located in a frame, far enough apart in the tree and neither closer than half nor further
      than three times as far in the frame. */
  ghost predicate Measurable(a: Rect, b: Rect, frame: Option<Image>) {
    && frame.Some? && 0 < frame.value.width && 0 < frame.value.height
    && Located(frame.value, PATCH_A).Some? && Located(frame.value, PATCH_B).Some?
    && 100.0 <= Abs(b.CenterX() - a.CenterX()) && 100.0 <= Abs(b.CenterY() - a.CenterY())
    && var seenA, seenB := Located(frame.value, PATCH_A).value, Located(frame.value, PATCH_B).value;
      && 0.5 <= Slope(a.CenterX(), seenA.cx, b.CenterX(), seenB.cx) <= 3.0
      && 0.5 <= Slope(a.CenterY(), seenA.cy, b.CenterY(), seenB.cy) <= 3.0
  }

  /** One axis of a map: patch A lands where it was seen, but for the snapping to the identity, and patch B too,
      but for a slope so near to one that it was taken for one. */
  ghost predicate Lands(placedA: real, placedB: real, a: real, seenA: real, b: real, seenB: real, snap: real)
    requires a != b
  {
    && Abs(placedA - seenA) <= snap
    && Abs(placedB - seenB) <= snap + if Abs(Slope(a, seenA, b, seenB) - 1.0) < 0.01 then Product(0.01, Abs(b - a)) else 0.0
  }

  const IDENTITY := SpaceMap(1.0, 1.0, 0.0, 0.0, true)

  /** The scale is the slope between the sightings, and exactly one if that is within a hundredth of one. */
  ghost predicate Scales(scale: real, a: real, seenA: real, b: real, seenB: real)
    requires a != b
  {
    var slope := Slope(a, seenA, b, seenB);
    scale == if Abs(slope - 1.0) < 0.01 then 1.0 else slope
  }

  /** The map puts both patches where they were located; it is the identity whenever it is close to it. */
  ghost predicate Places(m: SpaceMap, a: Rect, b: Rect, frame: Image)
    requires Measurable(a, b, Some(frame))
  {
    var seenA, seenB := Located(frame, PATCH_A).value, Located(frame, PATCH_B).value;
    var snap := if m == IDENTITY then 1.5 else 0.0;
    && Lands(m.MapRect(a).CenterX(), m.MapRect(b).CenterX(), a.CenterX(), seenA.cx, b.CenterX(), seenB.cx, snap)
    && Lands(m.MapRect(a).CenterY(), m.MapRect(b).CenterY(), a.CenterY(), seenA.cy, b.CenterY(), seenB.cy, snap)
    && Scales(m.sx, a.CenterX(), seenA.cx, b.CenterX(), seenB.cx) && Scales(m.sy, a.CenterY(), seenA.cy, b.CenterY(), seenB.cy)
    && (m == IDENTITY || !(Abs(m.sx - 1.0) < 0.005 && Abs(m.sy - 1.0) < 0.005 && Abs(m.dx) < 1.5 && Abs(m.dy) < 1.5))
  }

  lemma ScaleInRange(a: real, seenA: real, b: real, seenB: real)
    requires a != b
    ensures SANE_LOW <= Scale(a, seenA, b, seenB) <= SANE_HIGH <==> 0.5 <= Slope(a, seenA, b, seenB) <= 3.0
    ensures Scales(Scale(a, seenA, b, seenB), a, seenA, b, seenB)
    ensures Abs(Scale(a, seenA, b, seenB) - 1.0) < 0.005 ==> Scale(a, seenA, b, seenB) == 1.0
  {
  }

  /** A map is installed exactly when both patches can be measured; it puts them where they were located. */
  lemma InstalledExactly(patches: Patches, frame: Option<Image>)
    ensures var m := Installed(Some(patches), frame);
      && (m.measured <==> Measurable(patches.a, patches.b, frame))
      && (m.measured ==> Places(m, patches.a, patches.b, frame.value))
  {
    hide Located, Product, Lands, Slope, Scale, Scales;
    var a, b := patches.a, patches.b;
    if Spans(a, b) && frame.Some? && Located(frame.value, PATCH_A).Some? && Located(frame.value, PATCH_B).Some? {
      var seenA, seenB := Located(frame.value, PATCH_A).value, Located(frame.value, PATCH_B).value;
      ScaleInRange(a.CenterX(), seenA.cx, b.CenterX(), seenB.cx);
      ScaleInRange(a.CenterY(), seenA.cy, b.CenterY(), seenB.cy);
      PatchesAreWhereTheyWereSeen(a, b, seenA, seenB);
    }
  }

  /** The same, from the looks at the tree. */
  lemma InstalledAfter(looks: seq<Look>, frame: Option<Image>)
    ensures var m := Installed(FirstComplete(looks), frame);
      && (m.measured <==> exists k :: Seen(looks, k) && Measurable(looks[k].fida.value, looks[k].fidb.value, frame))
      && (forall k :: m.measured && Seen(looks, k) && Measurable(looks[k].fida.value, looks[k].fidb.value, frame) ==>
            Places(m, looks[k].fida.value, looks[k].fidb.value, frame.value))
      && (!m.measured ==> m == SpaceMap(1.0, 1.0, 0.0, 0.0, false))
  {
    InstalledIsPlausible(FirstComplete(looks), frame);
    FirstCompleteIsSeen(looks);
    hide Installed, Measurable, Places;
    if exists k :: Seen(looks, k) {
      var k :| Seen(looks, k);
      InstalledExactly(Patches(looks[k].fida.value, looks[k].fidb.value), frame);
    } else {
      NothingInstalled(frame);
    }
  }

  lemma NothingInstalled(frame: Option<Image>)
    ensures !Installed(None, frame).measured
  {
  }

  /** The process-wide map. */
  class Space {
    var current: SpaceMap

    constructor ()
      ensures current == RAW_SPACE
    {
      current := RAW_SPACE;
    }

    /** The looks are what the accessibility tree shows at each attempt; the frame is there if the capture
        succeeded. */
    method Measure(looks: seq<Look>, frame: Option<Image>)
      requires |looks| == POLL_TRIES
      modifies this
      ensures current == Installed(FirstComplete(looks), frame)
      ensures current.measured <==>
        exists k :: Seen(looks, k) && Measurable(looks[k].fida.value, looks[k].fidb.value, frame)
      ensures forall k :: current.measured && Seen(looks, k) && Measurable(looks[k].fida.value, looks[k].fidb.value, frame) ==>
        Places(current, looks[k].fida.value, looks[k].fidb.value, frame.value)
      ensures !current.measured ==> current == SpaceMap(1.0, 1.0, 0.0, 0.0, false)
    {
      InstalledAfter(looks, frame);
      hide Measurable, Places, Seen, Complete, FirstComplete, Product;
      var fida, fidb := Resolve(looks);
      current := RAW_SPACE;
      if fida.None? || fidb.None? { return; }
      if frame.None? || frame.value.width == 0 || frame.value.height == 0 { return; }
      var foundA := Locate(frame.value, PATCH_A);
      var foundB := Locate(frame.value, PATCH_B);
      if foundA.None? || foundB.None? { return; }
      var aX, aY, bX, bY := fida.value.CenterX(), fida.value.CenterY(), fidb.value.CenterX(), fidb.value.CenterY();
      var spanX, spanY := bX - aX, bY - aY;
      if Abs(spanX) < MIN_SPAN || Abs(spanY) < MIN_SPAN { return; }
      var sx := (foundB.value.cx - foundA.value.cx) / spanX;
      var sy := (foundB.value.cy - foundA.value.cy) / spanY;
      if Abs(sx - 1.0) < 0.01 { sx := 1.0; }
      if Abs(sy - 1.0) < 0.01 { sy := 1.0; }
      if sx < SANE_LOW || sx > SANE_HIGH || sy < SANE_LOW || sy > SANE_HIGH { return; }
      current := SpaceMap(sx, sy, foundA.value.cx - Product(sx, aX), foundA.value.cy - Product(sy, aY), true);
      if current.Identity() { current := RAW_SPACE.(measured := true); }
    }
  }

  // ---- What the installed map promises ----

  /** Whatever fails, the scales are between a half and three; a map that is not measured is the identity. */
  lemma InstalledIsPlausible(patches: Option<Patches>, frame: Option<Image>)
    ensures Installed(patches, frame).Plausible()
    ensures !Installed(patches, frame).measured ==> Installed(patches, frame) == RAW_SPACE
  {
    hide Located, Fitted, Spans;
    if patches.Some? && Spans(patches.value.a, patches.value.b) {
      FittedIsMeasured(patches.value.a, patches.value.b);
    }
  }

  lemma FittedIsMeasured(a: Rect, b: Rect)
    requires Spans(a, b)
    ensures forall seenA, seenB :: Fitted(a, b, seenA, seenB).measured
  {
  }

  lemma Shrinks(error: real, length: real)
    requires Abs(error) <= 0.01
    ensures Abs(Product(error, length)) <= Product(0.01, Abs(length))
  {
    if 0.0 <= length {
      NotNegative(0.01 - error, length);
      NotNegative(0.01 + error, length);
    } else {
      NotNegative(0.01 - error, -length);
      NotNegative(0.01 + error, -length);
    }
  }

  lemma NotNegative(a: real, b: real)
    requires 0.0 <= a && 0.0 <= b
    ensures 0.0 <= a * b
  {
  }

  lemma DifferenceTimes(s: real, t: real, at: real, a: real)
    ensures Product(s, at) - Product(s, a) - Product(t, at - a) == Product(s - t, at - a)
  {
  }

  lemma NothingTimes(x: real)
    ensures Product(0.0, x) == 0.0 && Product(x, 0.0) == 0.0
  {
  }

  lemma SlopeTimesSpan(rise: real, run: real)
    requires run != 0.0
    ensures Product(rise / run, run) == rise
  {
  }

  /** The line passes through both sightings. */
  lemma LineThroughBoth(a: real, seenA: real, b: real, seenB: real)
    requires a != b
    ensures Line(a, seenA, b, seenB, a) == seenA && Line(a, seenA, b, seenB, b) == seenB
  {
    hide Product;
    NothingTimes((seenB - seenA) / (b - a));
    SlopeTimesSpan(seenB - seenA, b - a);
  }

  /** Before snapping, one axis of the fit follows the line through both sightings exactly, or within a
      hundredth of the distance from the first patch if its scale was quantised. */
  lemma AxisFollowsTheLine(a: real, seenA: real, b: real, seenB: real, at: real)
    requires a != b
    ensures var s, slope := Scale(a, seenA, b, seenB), (seenB - seenA) / (b - a);
      Abs(Product(s, at) + (seenA - Product(s, a)) - Line(a, seenA, b, seenB, at))
        <= if 0.01 <= Abs(slope - 1.0) then 0.0 else Product(0.01, Abs(at - a))
  {
    hide Product;
    var s, slope := Scale(a, seenA, b, seenB), (seenB - seenA) / (b - a);
    DifferenceTimes(s, slope, at, a);
    NothingTimes(at - a);
    if Abs(slope - 1.0) < 0.01 { Shrinks(s - slope, at - a); }
  }

  /** How far an installed map may stray from the line at a coordinate. */
  function Slack(a: real, seenA: real, b: real, seenB: real, at: real, snapped: bool): real
    requires a != b
  {
    (if 0.01 <= Abs((seenB - seenA) / (b - a) - 1.0) then 0.0 else Product(0.01, Abs(at - a)))
    + (if snapped then 1.5 else 0.0)
  }

  lemma SnappingMovesLittle(m: SpaceMap, x: real, y: real)
    requires m.Identity() ==> m.sx == 1.0 && m.sy == 1.0
    ensures Abs(Snapped(m).MapX(x) - m.MapX(x)) <= if m.Identity() then 1.5 else 0.0
    ensures Abs(Snapped(m).MapY(y) - m.MapY(y)) <= if m.Identity() then 1.5 else 0.0
  {
  }

  /** An installed map sends every coordinate near where the line through both sightings has it: exactly when
      nothing was rounded, with a hundredth of the distance from patch A allowed for a quantised scale and a
      pixel and a half for a snapped identity. At patch A itself only the snapping is left; at patch B the
      line is the sighting. */
  lemma MapFollowsTheSightings(a: Rect, b: Rect, seenA: Found, seenB: Found, x: real, y: real)
    requires Spans(a, b)
    ensures var fitted := Fitted(a, b, seenA, seenB); var m := Snapped(fitted);
      && Abs(m.MapX(x) - Line(a.CenterX(), seenA.cx, b.CenterX(), seenB.cx, x))
           <= Slack(a.CenterX(), seenA.cx, b.CenterX(), seenB.cx, x, fitted.Identity())
      && Abs(m.MapY(y) - Line(a.CenterY(), seenA.cy, b.CenterY(), seenB.cy, y))
           <= Slack(a.CenterY(), seenA.cy, b.CenterY(), seenB.cy, y, fitted.Identity())
  {
    hide Product, Line;
    SnappingMovesLittle(Fitted(a, b, seenA, seenB), x, y);
    AxisFollowsTheLine(a.CenterX(), seenA.cx, b.CenterX(), seenB.cx, x);
    AxisFollowsTheLine(a.CenterY(), seenA.cy, b.CenterY(), seenB.cy, y);
  }

  lemma HalvesMap(s: real, x: real, w: real)
    ensures Product(s, x) + Product(s, w) / 2.0 == Product(s, x + w / 2.0)
  {
  }

  /** A mapped rectangle is centred where the map sends the rectangle's centre. */
  lemma MappedRectKeepsItsCentre(m: SpaceMap, r: Rect)
    ensures m.MapRect(r).CenterX() == m.MapX(r.CenterX()) && m.MapRect(r).CenterY() == m.MapY(r.CenterY())
  {
    hide Product;
    HalvesMap(m.sx, r.x, r.w);
    HalvesMap(m.sy, r.y, r.h);
  }

  /** Both patches: A's mapped rectangle is centred where A was seen, but for the snapping; B's also but for a
      hundredth of the span, if the scale was quantised. */
  lemma PatchesAreWhereTheyWereSeen(a: Rect, b: Rect, seenA: Found, seenB: Found)
    requires Spans(a, b)
    ensures var fitted := Fitted(a, b, seenA, seenB);
      var placedA, placedB := Snapped(fitted).MapRect(a), Snapped(fitted).MapRect(b);
      var snap := if fitted.Identity() then 1.5 else 0.0;
      && Lands(placedA.CenterX(), placedB.CenterX(), a.CenterX(), seenA.cx, b.CenterX(), seenB.cx, snap)
      && Lands(placedA.CenterY(), placedB.CenterY(), a.CenterY(), seenA.cy, b.CenterY(), seenB.cy, snap)
  {
    hide Line, Fitted, Product;
    MappedRectKeepsItsCentre(Snapped(Fitted(a, b, seenA, seenB)), a);
    MappedRectKeepsItsCentre(Snapped(Fitted(a, b, seenA, seenB)), b);
    MapFollowsTheSightings(a, b, seenA, seenB, a.CenterX(), a.CenterY());
    MapFollowsTheSightings(a, b, seenA, seenB, b.CenterX(), b.CenterY());
    LineThroughBoth(a.CenterX(), seenA.cx, b.CenterX(), seenB.cx);
    LineThroughBoth(a.CenterY(), seenA.cy, b.CenterY(), seenB.cy);
    NothingTimes(0.01);
  }
}
