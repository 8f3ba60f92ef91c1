/** Scanning a captured frame for pixels of one colour: the bounding box of the matches and their number. */
module PixelScan {
  import opened Wrappers

  type Byte = x: int | 0 <= x < 256

  datatype PixelFormat = Bgra | Rgba | Rgb | Bgr | Gray

  datatype Image = Image(width: nat, height: nat, stride: nat, format: PixelFormat, pixels: seq<Byte>)

  datatype Colour = Colour(red: Byte, green: Byte, blue: Byte)

  /** The two kinds of match in use: the magenta alignment probe, and a page patch of an authored colour. */
  datatype Want = MagentaProbe | Patch(colour: Colour)

  const PROBE_TOLERANCE: int := 40
  const PATCH_TOLERANCE: int := 36

  predicate Close(have: Byte, want: Byte) {
    && have >= (if want > PATCH_TOLERANCE then want - PATCH_TOLERANCE else 0)
    && have <= (if want < 255 - PATCH_TOLERANCE then want + PATCH_TOLERANCE else 255)
  }

  predicate Matches(want: Want, have: Colour) {
    match want
    case MagentaProbe =>
      have.red >= 255 - PROBE_TOLERANCE && have.blue >= 255 - PROBE_TOLERANCE && have.green <= PROBE_TOLERANCE
    case Patch(c) => Close(have.red, c.red) && Close(have.green, c.green) && Close(have.blue, c.blue)
  }

  function BytesPerPixel(format: PixelFormat): nat {
    match format
    case Bgra => 4
    case Rgba => 4
    case Rgb => 3
    case Bgr => 3
    case Gray => 1
  }

  /** The colour of a pixel, if its three bytes are in the buffer at all. */
  function ColourAt(frame: Image, row: nat, col: nat): Option<Colour> {
    var at := row * frame.stride + col * BytesPerPixel(frame.format);
    if at + 2 >= |frame.pixels| then None
    else
      var b0, b1, b2 := frame.pixels[at], frame.pixels[at + 1], frame.pixels[at + 2];
      Some(if frame.format.Bgra? || frame.format.Bgr? then Colour(b2, b1, b0) else Colour(b0, b1, b2))
  }

  predicate Hit(frame: Image, want: Want, row: nat, col: nat) {
    && row < frame.height && col < frame.width
    && ColourAt(frame, row, col).Some? && Matches(want, ColourAt(frame, row, col).value)
  }

  // ---- What a hit is ----

  predicate Nearby(have: int, want: int, tolerance: int) {
    -tolerance <= have - want <= tolerance
  }

  /** A colour matches exactly if every channel is near the wanted one: within 36 of the patch's, within 40 of full
      magenta's. */
  lemma MatchesExactly(want: Want, have: Colour)
    ensures Matches(want, have) <==>
      match want
      case MagentaProbe => Nearby(have.red, 255, 40) && Nearby(have.green, 0, 40) && Nearby(have.blue, 255, 40)
      case Patch(c) => Nearby(have.red, c.red, 36) && Nearby(have.green, c.green, 36) && Nearby(have.blue, c.blue, 36)
  {
  }

  /** How a colour is stored in each format that has three channels. */
  function Stored(format: PixelFormat, c: Colour, alpha: Byte): seq<Byte> {
    match format
    case Bgra => [c.blue, c.green, c.red, alpha]
    case Rgba => [c.red, c.green, c.blue, alpha]
    case Rgb => [c.red, c.green, c.blue]
    case Bgr => [c.blue, c.green, c.red]
    case Gray => [c.red, c.green, c.blue]
  }

  /** A pixel stored in the frame's format, `col` pixels into its row, is read back; a gray frame gives three
      neighbouring pixels for one colour. A pixel that is not all in the buffer has no colour. */
  lemma ColourReadsBack(frame: Image, row: nat, col: nat, c: Colour, alpha: Byte)
    ensures var stored := Stored(frame.format, c, alpha);
      var at := row * frame.stride + col * if frame.format.Gray? then 1 else |stored|;
      && (at + |stored| <= |frame.pixels| && frame.pixels[at..at + |stored|] == stored ==> ColourAt(frame, row, col) == Some(c))
      && (ColourAt(frame, row, col).None? <==> |frame.pixels| < at + 3)
  {
    var stored := Stored(frame.format, c, alpha);
    var at := row * frame.stride + col * if frame.format.Gray? then 1 else |stored|;
    if at + |stored| <= |frame.pixels| && frame.pixels[at..at + |stored|] == stored {
      var taken := frame.pixels[at..at + |stored|];
      assert frame.pixels[at] == taken[0] && frame.pixels[at + 1] == taken[1] && frame.pixels[at + 2] == taken[2];
    }
  }

  // ---- The scan ----

  /** Where the minima start; a frame has to be wider or taller than this for the start value to matter. */
  const FAR: int := 1_000_000_000

  datatype Box = Box(minX: int, minY: int, maxX: int, maxY: int, hits: nat) {
    function Width(): int {
      maxX - minX + 1
    }

    function Height(): int {
      maxY - minY + 1
    }

    function Widened(row: nat, col: nat): Box {
      Box(Min(minX, col), Min(minY, row), Max(maxX, col), Max(maxY, row), hits + 1)
    }
  }

  const NOTHING := Box(FAR, FAR, -1, -1, 0)

  function Min(a: int, b: int): int {
    if b < a then b else a
  }

  function Max(a: int, b: int): int {
    if a < b then b else a
  }

  function ScanRow(frame: Image, want: Want, row: nat, col: nat, box: Box): Box {
    if col == 0 then box
    else
      var before := ScanRow(frame, want, row, col - 1, box);
      if Hit(frame, want, row, col - 1) then before.Widened(row, col - 1) else before
  }

  function ScanRows(frame: Image, want: Want, rows: nat): Box {
    if rows == 0 then NOTHING
    else ScanRow(frame, want, rows - 1, frame.width, ScanRows(frame, want, rows - 1))
  }

  function ScanAll(frame: Image, want: Want): Box {
    ScanRows(frame, want, frame.height)
  }

  method Scan(frame: Image, want: Want) returns (box: Box)
    ensures box == ScanAll(frame, want)
  {
    var minX, minY, maxX, maxY, hits := FAR, FAR, -1, -1, 0;
    for row := 0 to frame.height
      invariant 0 <= hits && Box(minX, minY, maxX, maxY, hits) == ScanRows(frame, want, row)
    {
      ghost var above := ScanRows(frame, want, row);
      for col := 0 to frame.width
        invariant 0 <= hits && Box(minX, minY, maxX, maxY, hits) == ScanRow(frame, want, row, col, above)
      {
        var colour := ColourAt(frame, row, col);
        if colour.None? { continue; }
        if Matches(want, colour.value) {
          minX, minY := Min(minX, col), Min(minY, row);
          maxX, maxY := Max(maxX, col), Max(maxY, row);
          hits := hits + 1;
        }
      }
    }
    box := Box(minX, minY, maxX, maxY, hits);
  }

  // ---- What the scan finds ----

  predicate Within(box: Box, row: nat, col: nat) {
    box.minX <= col <= box.maxX && box.minY <= row <= box.maxY
  }

  /** Every match up to the given place is in the box. */
  ghost predicate Covers(frame: Image, want: Want, row: nat, col: nat, box: Box) {
    forall r: nat, c: nat :: Hit(frame, want, r, c) && (r < row || (r == row && c < col)) ==> Within(box, r, c)
  }

  ghost predicate HitInColumn(frame: Image, want: Want, col: int) {
    0 <= col && exists row: nat :: Hit(frame, want, row, col)
  }

  ghost predicate HitInRow(frame: Image, want: Want, row: int) {
    0 <= row && exists col: nat :: Hit(frame, want, row, col)
  }

  /** Every side of the box is a match's, or still where it started. */
  ghost predicate Touched(frame: Image, want: Want, box: Box) {
    && (box.minX == FAR || HitInColumn(frame, want, box.minX))
    && (box.minY == FAR || HitInRow(frame, want, box.minY))
    && (box.maxX == -1 || HitInColumn(frame, want, box.maxX))
    && (box.maxY == -1 || HitInRow(frame, want, box.maxY))
    && 0 <= box.minX <= FAR && 0 <= box.minY <= FAR && -1 <= box.maxX && -1 <= box.maxY
    && (box.hits == 0 ==> box == NOTHING)
    && (0 < box.hits ==> 0 <= box.maxX && 0 <= box.maxY)
  }

  lemma {:induction false} RowIsCovered(frame: Image, want: Want, row: nat, col: nat, box: Box)
    requires Covers(frame, want, row, 0, box) && Touched(frame, want, box)
    ensures var after := ScanRow(frame, want, row, col, box);
      Covers(frame, want, row, col, after) && Touched(frame, want, after)
  {
    hide Hit;
    if 0 < col { RowIsCovered(frame, want, row, col - 1, box); }
  }

  lemma {:induction false} RowsAreCovered(frame: Image, want: Want, rows: nat)
    ensures var box := ScanRows(frame, want, rows);
      Covers(frame, want, rows, 0, box) && Touched(frame, want, box)
  {
    if 0 < rows {
      RowsAreCovered(frame, want, rows - 1);
      RowIsCovered(frame, want, rows - 1, frame.width, ScanRows(frame, want, rows - 1));
    }
  }

  ghost predicate SomeHitBy(frame: Image, want: Want, maxRow: int, maxCol: int) {
    exists r: nat, c: nat :: Hit(frame, want, r, c) && r <= maxRow && c <= maxCol
  }

  /** In every frame the scan counts nothing exactly if nothing matches; otherwise its box holds every match,
      its far sides are matches', and a near side is a match's exactly if some match is not beyond the place
      where the minima start, a thousand million pixels in. */
  lemma ScanIsTight(frame: Image, want: Want)
    ensures var box := ScanAll(frame, want);
      && (box.hits == 0 <==> forall r: nat, c: nat :: !Hit(frame, want, r, c))
      && (forall r: nat, c: nat :: Hit(frame, want, r, c) ==> Within(box, r, c))
      && 0 <= box.minX && 0 <= box.minY
      && (0 < box.hits ==>
            && HitInColumn(frame, want, box.maxX) && HitInRow(frame, want, box.maxY)
            && (HitInColumn(frame, want, box.minX) <==> SomeHitBy(frame, want, frame.height, FAR))
            && (HitInRow(frame, want, box.minY) <==> SomeHitBy(frame, want, FAR, frame.width)))
  {
    RowsAreCovered(frame, want, frame.height);
    var box := ScanAll(frame, want);
    if SomeHitBy(frame, want, frame.height, FAR) {
      var r: nat, c: nat :| Hit(frame, want, r, c) && r <= frame.height && c <= FAR;
      assert Within(box, r, c);
    }
    if SomeHitBy(frame, want, FAR, frame.width) {
      var r: nat, c: nat :| Hit(frame, want, r, c) && r <= FAR && c <= frame.width;
      assert Within(box, r, c);
    }
    if HitInColumn(frame, want, box.minX) {
      var r: nat :| Hit(frame, want, r, box.minX);
      assert r <= frame.height && box.minX <= FAR;
    }
    if HitInRow(frame, want, box.minY) {
      var c: nat :| Hit(frame, want, box.minY, c);
      assert c <= frame.width && box.minY <= FAR;
    }
  }

  /** In a frame of up to a thousand million pixels a side the box is tight on all four sides. */
  lemma OrdinaryScanIsTight(frame: Image, want: Want)
    requires frame.width <= FAR && frame.height <= FAR && 0 < ScanAll(frame, want).hits
    ensures var box := ScanAll(frame, want);
      && HitInColumn(frame, want, box.minX) && HitInColumn(frame, want, box.maxX)
      && HitInRow(frame, want, box.minY) && HitInRow(frame, want, box.maxY)
  {
    ScanIsTight(frame, want);
    var r: nat :| Hit(frame, want, r, ScanAll(frame, want).maxX);
    assert SomeHitBy(frame, want, frame.height, FAR) && SomeHitBy(frame, want, FAR, frame.width);
  }

  // ---- Counting ----

  /** How many places of a stretch of `length` from `start` lie before `end`. */
  function Covered(start: int, length: int, end: int): nat {
    Max(0, Min(start + length, end) - start)
  }

  function Times(a: int, b: int): int {
    a * b
  }

  lemma TimesNext(a: int, b: int)
    ensures Times(a, b + 1) == Times(a, b) + a && Times(a, 0) == 0
  {
  }

  lemma {:induction false} RowCount(frame: Image, want: Want, row: nat, col: nat, box: Box, outer: Box)
    requires forall r: nat, c: nat :: Hit(frame, want, r, c) ==> Within(outer, r, c)
    ensures ScanRow(frame, want, row, col, box).hits
         <= box.hits + if outer.minY <= row <= outer.maxY then Covered(outer.minX, outer.Width(), col) else 0
  {
    if 0 < col { RowCount(frame, want, row, col - 1, box, outer); }
  }

  lemma {:induction false} RowsCount(frame: Image, want: Want, rows: nat, outer: Box)
    requires forall r: nat, c: nat :: Hit(frame, want, r, c) ==> Within(outer, r, c)
    requires 0 <= outer.Width() && 0 <= outer.minY
    ensures ScanRows(frame, want, rows).hits <= Times(outer.Width(), Covered(outer.minY, outer.Height(), rows))
  {
    hide Times, Hit, Within;
    TimesNext(outer.Width(), 0);
    if 0 < rows {
      RowsCount(frame, want, rows - 1, outer);
      RowCount(frame, want, rows - 1, frame.width, ScanRows(frame, want, rows - 1), outer);
      var before, after := Covered(outer.minY, outer.Height(), rows - 1), Covered(outer.minY, outer.Height(), rows);
      assert after == if outer.minY <= rows - 1 <= outer.maxY then before + 1 else before;
      assert Covered(outer.minX, outer.Width(), frame.width) <= outer.Width();
      TimesNext(outer.Width(), before);
      assert Times(outer.Width(), after)
          == Times(outer.Width(), before) + if outer.minY <= rows - 1 <= outer.maxY then outer.Width() else 0;
    }
  }

  /** There are no more matches than places in the box. */
  lemma HitsFitTheBox(frame: Image, want: Want)
    requires 0 < ScanAll(frame, want).hits
    ensures var box := ScanAll(frame, want);
      1 <= box.Width() && 1 <= box.Height() && box.hits <= box.Width() * box.Height()
  {
    var box := ScanAll(frame, want);
    ScanIsTight(frame, want);
    var r: nat :| Hit(frame, want, r, box.maxX);
    assert Within(box, r, box.maxX);
    RowsCount(frame, want, frame.height, box);
    assert Covered(box.minY, box.Height(), frame.height) <= box.Height();
    TimesGrows(box.Width(), Covered(box.minY, box.Height(), frame.height), box.Height());
  }

  lemma TimesGrows(a: nat, j: int, k: int)
    requires j <= k
    ensures Times(a, j) <= Times(a, k)
  {
  }

  /** The matches in the first `col` places of a row, and in the first rows. */
  ghost function InRow(frame: Image, want: Want, row: nat, col: nat): set<(nat, nat)> {
    set c: nat | c < col && Hit(frame, want, row, c) :: (row, c)
  }

  ghost function InRows(frame: Image, want: Want, rows: nat): set<(nat, nat)> {
    set r: nat, c: nat | r < rows && c < frame.width && Hit(frame, want, r, c) :: (r, c)
  }

  lemma {:induction false} RowHits(frame: Image, want: Want, row: nat, col: nat, box: Box)
    ensures ScanRow(frame, want, row, col, box).hits == box.hits + |InRow(frame, want, row, col)|
  {
    hide Hit;
    if 0 < col {
      RowHits(frame, want, row, col - 1, box);
      var before, after := InRow(frame, want, row, col - 1), InRow(frame, want, row, col);
      assert after == if Hit(frame, want, row, col - 1) then before + {(row, col - 1)} else before;
    } else {
      assert InRow(frame, want, row, 0) == {};
    }
  }

  lemma {:induction false} RowsHits(frame: Image, want: Want, rows: nat)
    ensures ScanRows(frame, want, rows).hits == |InRows(frame, want, rows)|
  {
    hide Hit;
    if 0 < rows {
      RowsHits(frame, want, rows - 1);
      RowHits(frame, want, rows - 1, frame.width, ScanRows(frame, want, rows - 1));
      assert InRows(frame, want, rows) == InRows(frame, want, rows - 1) + InRow(frame, want, rows - 1, frame.width);
    } else {
      assert InRows(frame, want, 0) == {};
    }
  }

  /** The scan counts every match once. */
  lemma HitsAreCounted(frame: Image, want: Want)
    ensures ScanAll(frame, want).hits
      == |set r: nat, c: nat | r < frame.height && c < frame.width && Hit(frame, want, r, c) :: (r, c)|
  {
    RowsHits(frame, want, frame.height);
  }

  // ---- The sanity gate ----

  /** A find is believed if its box is between half and four times the authored size each way and at least half full. */
  predicate Sane(box: Box, size: real) {
    && box.hits > 0
    && size * 0.5 <= box.Width() as real <= size * 4.0
    && size * 0.5 <= box.Height() as real <= size * 4.0
    && box.hits as real >= 0.5 * box.Width() as real * box.Height() as real
  }
}
