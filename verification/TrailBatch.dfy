/** Drawing a cursor's trail in batches while it moves: samples gather in a pending list, and a stroke hands
    them to the overlay as one polyline whenever there is time to spare. */
module TrailBatch {
  import opened OverlayAlign

  datatype Vec2 = Vec2(x: real, y: real)

  // ---- Polylines ----

  /** Polylines laid end to end, each shared endpoint kept once. */
  function Glued(polylines: seq<seq<Vec2>>): seq<Vec2> {
    if polylines == [] then []
    else
      var n := |polylines| - 1;
      var last := polylines[n];
      Glued(polylines[..n]) + if n == 0 || last == [] then last else last[1..]
  }

  /** The segments a polyline draws. */
  function Segments(points: seq<Vec2>): seq<(Vec2, Vec2)> {
    if |points| < 2 then []
    else Segments(points[..|points| - 1]) + [(points[|points| - 2], points[|points| - 1])]
  }

  /** They are those between neighbouring points, in order. */
  lemma {:induction false} SegmentsAreConsecutive(points: seq<Vec2>)
    ensures |Segments(points)| == if points == [] then 0 else |points| - 1
    ensures forall i :: 0 <= i < |Segments(points)| ==> Segments(points)[i] == (points[i], points[i + 1])
  {
    if 2 <= |points| { SegmentsAreConsecutive(points[..|points| - 1]); }
  }

  function AllSegments(polylines: seq<seq<Vec2>>): seq<(Vec2, Vec2)> {
    if polylines == [] then []
    else
      var n := |polylines| - 1;
      AllSegments(polylines[..n]) + Segments(polylines[n])
  }

  /** Every polyline has a segment, and starts where the one before ended. */
  predicate Linked(polylines: seq<seq<Vec2>>) {
    && (forall i :: 0 <= i < |polylines| ==> 2 <= |polylines[i]|)
    && (forall i :: 0 < i < |polylines| ==> End(polylines[i - 1]) == polylines[i][0])
  }

  function End(points: seq<Vec2>): Vec2 {
    if points == [] then Vec2(0.0, 0.0) else points[|points| - 1]
  }

  lemma {:induction false} SegmentsJoin(a: seq<Vec2>, b: seq<Vec2>)
    requires a != [] && b != [] && End(a) == b[0]
    ensures Segments(a + b[1..]) == Segments(a) + Segments(b)
  {
    if |b| == 1 {
      assert a + b[1..] == a;
    } else {
      var whole := a + b[1..];
      SegmentsJoin(a, b[..|b| - 1]);
      assert whole[..|whole| - 1] == a + b[..|b| - 1][1..];
      assert whole[|whole| - 2] == b[|b| - 2];
    }
  }

  lemma {:induction false} GluedEnds(polylines: seq<seq<Vec2>>)
    requires polylines != [] && Linked(polylines)
    ensures Glued(polylines) != [] && End(Glued(polylines)) == End(polylines[|polylines| - 1])
  {
    var n := |polylines| - 1;
    if 0 < n { GluedEnds(polylines[..n]); }
  }

  lemma OnePolyline(polylines: seq<seq<Vec2>>)
    requires |polylines| == 1
    ensures Glued(polylines) == polylines[0] && AllSegments(polylines) == Segments(polylines[0])
  {
    hide Segments;
    assert polylines[..0] == [] && [] + polylines[0] == polylines[0];
    assert [] + Segments(polylines[0]) == Segments(polylines[0]);
  }

  /** Linked polylines draw every segment of the glued path once, in order, and nothing else. */
  lemma {:induction false} GluedDrawsEachSegmentOnce(polylines: seq<seq<Vec2>>)
    requires Linked(polylines)
    ensures AllSegments(polylines) == Segments(Glued(polylines))
  {
    assert Segments([]) == [];
    if polylines != [] {
      var n := |polylines| - 1;
      var front, last := polylines[..n], polylines[n];
      GluedDrawsEachSegmentOnce(front);
      hide Segments;
      if n == 0 {
        OnePolyline(polylines);
      } else {
        GluedEnds(front);
        SegmentsJoin(Glued(front), last);
      }
    }
  }

  // ---- Handing a polyline to the overlay ----

  /** The path commands for a polyline: a move to its first point, lines to the rest, in overlay coordinates. */
  function Commands(m: OverlayMap, points: seq<Vec2>): (commands: seq<Vec2>)
    requires m.Plausible()
    ensures |commands| == |points|
  {
    seq(|points|, i requires 0 <= i < |points| => Vec2(m.X(points[i].x), m.Y(points[i].y)))
  }

  /** Where the display shows them. */
  function Shown(m: OverlayMap, commands: seq<Vec2>): (points: seq<Vec2>)
    ensures |points| == |commands|
  {
    seq(|commands|, i requires 0 <= i < |commands| => Vec2(m.RendersX(commands[i].x), m.RendersY(commands[i].y)))
  }

  lemma CommandsAreShownAsMeant(m: OverlayMap, points: seq<Vec2>)
    requires m.Plausible()
    ensures Shown(m, Commands(m, points)) == points
  {
    forall i | 0 <= i < |points|
      ensures Shown(m, Commands(m, points))[i] == points[i]
    {
      MapsAreInverse(m, Rect(points[i].x, points[i].y, 0.0, 0.0), 0.0);
    }
  }

  function ShownAll(m: OverlayMap, submitted: seq<seq<Vec2>>): seq<seq<Vec2>> {
    seq(|submitted|, i requires 0 <= i < |submitted| => Shown(m, submitted[i]))
  }

  // ---- The trail ----

  /** What has been drawn and what is still pending make up the whole path. */
  predicate Whole(drawn: seq<seq<Vec2>>, pending: seq<Vec2>, path: seq<Vec2>) {
    && Linked(drawn)
    && if drawn == [] then pending == path
       else pending != [] && pending[0] == End(drawn[|drawn| - 1]) && Glued(drawn) + pending[1..] == path
  }

  lemma StrokeKeepsWhole(drawn: seq<seq<Vec2>>, pending: seq<Vec2>, path: seq<Vec2>)
    requires Whole(drawn, pending, path) && 2 <= |pending|
    ensures Whole(drawn + [pending], [End(pending)], path) && Glued(drawn + [pending]) == path
  {
    var after := drawn + [pending];
    assert after[..|drawn|] == drawn;
    LinkedPush(drawn, pending);
    assert [End(pending)][1..] == [];
    hide Linked;
    assert Glued(after) == path && Glued(after) + [] == path;
  }

  lemma LinkedPush(drawn: seq<seq<Vec2>>, next: seq<Vec2>)
    requires Linked(drawn) && 2 <= |next| && (drawn != [] ==> End(drawn[|drawn| - 1]) == next[0])
    ensures Linked(drawn + [next])
  {
    hide End;
    var after := drawn + [next];
    forall i | 0 < i < |after|
      ensures End(after[i - 1]) == after[i][0]
    {
      if i < |drawn| { assert after[i - 1] == drawn[i - 1] && after[i] == drawn[i]; }
    }
  }

  lemma SampleKeepsWhole(drawn: seq<seq<Vec2>>, pending: seq<Vec2>, path: seq<Vec2>, sample: Vec2)
    requires Whole(drawn, pending, path)
    ensures Whole(drawn, pending + [sample], path + [sample])
  {
    if drawn != [] { assert (pending + [sample])[1..] == pending[1..] + [sample]; }
  }

  lemma ShownAllPush(m: OverlayMap, submitted: seq<seq<Vec2>>, points: seq<Vec2>)
    requires m.Plausible()
    ensures ShownAll(m, submitted + [Commands(m, points)]) == ShownAll(m, submitted) + [points]
  {
    CommandsAreShownAsMeant(m, points);
  }

  class Trail {
    const overlay: bool
    const omap: OverlayMap
    var pending: seq<Vec2>
    var trailIds: seq<nat>
    /** Every polyline handed to the overlay, in overlay coordinates; every sample appended; the refusals. */
    ghost var submitted: seq<seq<Vec2>>
    ghost var path: seq<Vec2>
    ghost var refused: nat

    ghost predicate Valid()
      reads this
    {
      && omap.Plausible()
      && Whole(ShownAll(omap, submitted), pending, path)
      && (!overlay ==> submitted == [])
      && |trailIds| + refused == |submitted|
    }

    constructor (overlay: bool, omap: OverlayMap)
      requires omap.Plausible()
      ensures Valid() && path == [] && this.overlay == overlay && this.omap == omap
    {
      this.overlay, this.omap := overlay, omap;
      pending, trailIds, submitted, path, refused := [], [], [], [], 0;
    }

    /** Nothing is left to draw but the point the next stroke starts from. */
    ghost predicate FullyDrawn()
      reads this
    {
      overlay && 2 <= |path| ==> Glued(ShownAll(omap, submitted)) == path && pending == [End(path)]
    }

    method Stroke()
      requires Valid()
      modifies this`pending, this`trailIds, this`submitted, this`refused
      ensures Valid() && FullyDrawn() && old(submitted) <= submitted
    {
      if !overlay || |pending| < 2 {
        if overlay { PendingIsAll(ShownAll(omap, submitted), pending, path); }
        return;
      }
      var commands := [Vec2(omap.X(pending[0].x), omap.Y(pending[0].y))];
      for step := 1 to |pending|
        invariant commands == Commands(omap, pending)[..step]
      {
        commands := commands + [Vec2(omap.X(pending[step].x), omap.Y(pending[step].y))];
      }
      assert commands == Commands(omap, pending);
      StrokeKeepsWhole(ShownAll(omap, submitted), pending, path);
      ShownAllPush(omap, submitted, pending);
      Add(commands);
      var tail := pending[|pending| - 1];
      pending := [tail];
      DrawnEnds(ShownAll(omap, submitted), path);
    }

    /** The overlay may refuse the shape. */
    method Add(commands: seq<Vec2>)
      modifies this`trailIds, this`submitted, this`refused
      ensures submitted == old(submitted) + [commands]
      ensures |trailIds| + refused == old(|trailIds| + refused) + 1
      ensures old(trailIds) <= trailIds
    {
      submitted := submitted + [commands];
      var added: bool := *;
      if added {
        var id: nat :| true;
        trailIds := trailIds + [id];
      } else {
        refused := refused + 1;
      }
    }

    /** One sample, drawn at once if it must be, or if there is time. */
    method Take(sample: Vec2, mustDraw: bool)
      requires Valid()
      modifies this
      ensures Valid() && (mustDraw ==> FullyDrawn())
      ensures path == old(path) + [sample] && old(submitted) <= submitted
    {
      SampleKeepsWhole(ShownAll(omap, submitted), pending, path, sample);
      pending, path := pending + [sample], path + [sample];
      var slack: bool := *;
      if mustDraw || slack { Stroke(); }
    }

    /** One planned movement. Whether there is time to draw after a sample is up to the clock, but the last
        sample always draws. */
    method Walk(samples: seq<Vec2>, trail: bool) returns (last: Vec2)
      requires Valid() && FullyDrawn()
      modifies this
      ensures Valid() && FullyDrawn() && path == old(path) + if trail then samples else []
      ensures last == End(samples) && old(submitted) <= submitted
    {
      hide Whole, Glued, ShownAll;
      last := Vec2(0.0, 0.0);
      for step := 0 to |samples|
        invariant Valid() && old(submitted) <= submitted
        invariant path == old(path) + if trail then samples[..step] else []
        invariant last == End(samples[..step])
        invariant !trail || step == 0 || step == |samples| ==> FullyDrawn()
      {
        last := samples[step];
        assert samples[..step + 1] == samples[..step] + [last];
        if !trail { continue; }
        Take(last, step + 1 == |samples|);
      }
      assert samples[..|samples|] == samples;
    }
  }

  lemma PendingIsAll(drawn: seq<seq<Vec2>>, pending: seq<Vec2>, path: seq<Vec2>)
    requires Whole(drawn, pending, path) && |pending| < 2
    ensures 2 <= |path| ==> Glued(drawn) == path && pending == [End(path)]
  {
    if drawn != [] { GluedEnds(drawn); }
  }

  lemma DrawnEnds(drawn: seq<seq<Vec2>>, path: seq<Vec2>)
    requires drawn != [] && Linked(drawn) && Glued(drawn) == path
    ensures End(drawn[|drawn| - 1]) == End(path)
  {
    GluedEnds(drawn);
  }

  /** Both legs of a drag, whatever the clock does: the polylines handed over are shown as exactly the
      segments of the approach followed by the carry, each once. */
  method DrawDrag(overlay: bool, omap: OverlayMap, approach: seq<Vec2>, carry: seq<Vec2>)
    returns (trail: Trail, ghost shown: seq<seq<Vec2>>)
    requires omap.Plausible()
    ensures shown == ShownAll(omap, trail.submitted)
    ensures AllSegments(shown) == if overlay then Segments(approach + carry) else []
  {
    hide Whole, Glued, Segments, AllSegments, ShownAll, Linked;
    trail := new Trail(overlay, omap);
    var pressed := trail.Walk(approach, true);
    var dropped := trail.Walk(carry, true);
    assert [] + approach == approach;
    shown := ShownAll(omap, trail.submitted);
    FullyDrawnSegments(trail);
  }

  /** A trail drawn to its end is shown as the segments of its path. */
  lemma FullyDrawnSegments(trail: Trail)
    requires trail.Valid() && trail.FullyDrawn()
    ensures AllSegments(ShownAll(trail.omap, trail.submitted)) == if trail.overlay then Segments(trail.path) else []
  {
    var shown := ShownAll(trail.omap, trail.submitted);
    GluedDrawsEachSegmentOnce(shown);
    if trail.overlay && |trail.path| < 2 { ShortPathDrawsNothing(shown, trail.pending, trail.path); }
  }

  lemma ShortPathDrawsNothing(drawn: seq<seq<Vec2>>, pending: seq<Vec2>, path: seq<Vec2>)
    requires Whole(drawn, pending, path) && |path| < 2
    ensures drawn == []
  {
    if drawn != [] { GluedEnds(drawn); LongGlue(drawn); }
  }

  lemma {:induction false} LongGlue(drawn: seq<seq<Vec2>>)
    requires drawn != [] && Linked(drawn)
    ensures 2 <= |Glued(drawn)|
  {
    var n := |drawn| - 1;
    if 0 < n { LongGlue(drawn[..n]); }
  }
}
