/** Turning a stream of events into trail segments: consecutive positioned moves of one origin in one space. */
module TrailRenderer {
  import opened Wrappers
  import opened Events

  datatype Sample = Sample(position: Point, origin: Origin)

  datatype Segment = Segment(from: Point, to: Point, origin: Origin)

  // ---- What a history draws ----

  /** The sample an item carries, if it is a move with a position. */
  function SampleOf(item: Item): Option<Sample> {
    match item
    case Ev(Event(_, _, MouseMoveKind, MouseMove(Some(p)), origin)) => Some(Sample(p, origin))
    case _ => None
  }

  /** Items the renderer passes over: events of any other kind. */
  predicate Skipped(item: Item) {
    item.Ev? && item.event.kind != MouseMoveKind
  }

  /** The index of the last item before `end` that is not skipped. */
  function LastSeen(history: seq<Item>, end: nat): (found: Option<nat>)
    requires end <= |history|
    ensures match found
            case Some(k) => k < end && !Skipped(history[k]) && forall i :: k < i < end ==> Skipped(history[i])
            case None => forall i :: 0 <= i < end ==> Skipped(history[i])
  {
    if end == 0 then None
    else if Skipped(history[end - 1]) then LastSeen(history, end - 1)
    else Some(end - 1)
  }

  /** A segment joins item j to item k exactly if only skipped items lie between and both are moves with a
      position, of one origin and in one space. */
  predicate Joins(history: seq<Item>, j: nat, k: nat) {
    && j < k < |history|
    && (forall i :: j < i < k ==> Skipped(history[i]))
    && SampleOf(history[j]).Some? && SampleOf(history[k]).Some?
    && SampleOf(history[j]).value.origin == SampleOf(history[k]).value.origin
    && SampleOf(history[j]).value.position.space == SampleOf(history[k]).value.position.space
  }

  /** The sample a renderer remembers after a history. */
  function Remembered(history: seq<Item>): Option<Sample> {
    match LastSeen(history, |history|)
    case None => None
    case Some(k) => SampleOf(history[k])
  }

  function SegmentsOf(history: seq<Item>): seq<Segment> {
    if history == [] then []
    else
      var n := |history| - 1;
      SegmentsOf(history[..n]) + Joint(Remembered(history[..n]), SampleOf(history[n]))
  }

  function Joint(previous: Option<Sample>, current: Option<Sample>): seq<Segment> {
    if previous.Some? && current.Some? && previous.value.position.space == current.value.position.space
       && previous.value.origin == current.value.origin
    then [Segment(previous.value.position, current.value.position, current.value.origin)]
    else []
  }

  lemma {:induction false} LastSeenOfPrefix(history: seq<Item>, longer: seq<Item>, end: nat)
    requires history <= longer && end <= |history|
    ensures LastSeen(history, end) == LastSeen(longer, end)
  {
    if 0 < end { LastSeenOfPrefix(history, longer, end - 1); }
  }

  lemma RememberedPush(history: seq<Item>, item: Item)
    ensures Remembered(history + [item]) == if Skipped(item) then Remembered(history) else SampleOf(item)
  {
    LastSeenOfPrefix(history, history + [item], |history|);
  }

  // ---- The segments are the joined pairs ----

  /** The pairs joined by a segment, in order of their ends. */
  function Pairs(history: seq<Item>): (pairs: seq<(nat, nat)>)
    ensures forall p :: p in pairs ==> p.0 < p.1 < |history|
  {
    if history == [] then []
    else
      var n := |history| - 1;
      Pairs(history[..n]) +
      match LastSeen(history, n)
      case None => []
      case Some(j) => if Joins(history, j, n) then [(j, n)] else []
  }

  lemma JoinsOfPrefix(history: seq<Item>, longer: seq<Item>, j: nat, k: nat)
    requires history <= longer && k < |history|
    ensures Joins(history, j, k) == Joins(longer, j, k)
  {
    if j < k {
      assert forall i :: j <= i <= k ==> history[i] == longer[i];
    }
  }

  /** The pairs drawn are exactly the joined ones, each once and in order. */
  lemma {:induction false} PairsAreTheJoins(history: seq<Item>)
    ensures forall j: nat, k: nat :: (j, k) in Pairs(history) <==> Joins(history, j, k)
    ensures forall a, b :: 0 <= a < b < |Pairs(history)| ==> Pairs(history)[a].1 < Pairs(history)[b].1
  {
    if history != [] {
      var n := |history| - 1;
      PairsAreTheJoins(history[..n]);
      forall j: nat, k: nat
        ensures (j, k) in Pairs(history) <==> Joins(history, j, k)
      {
        if k < n {
          JoinsOfPrefix(history[..n], history, j, k);
        } else if k == n && Joins(history, j, k) {
          assert !Skipped(history[j]);
          assert LastSeen(history, n) == Some(j);
        }
      }
    }
  }

  predicate Draws(history: seq<Item>, pair: (nat, nat), segment: Segment) {
    && pair.0 < |history| && pair.1 < |history|
    && SampleOf(history[pair.0]).Some? && SampleOf(history[pair.1]).Some?
    && var from, to := SampleOf(history[pair.0]).value, SampleOf(history[pair.1]).value;
      segment == Segment(from.position, to.position, to.origin)
  }

  lemma LastJoint(history: seq<Item>, n: nat)
    requires |history| == n + 1
    ensures var joint := Joint(Remembered(history[..n]), SampleOf(history[n]));
      match LastSeen(history, n)
      case None => joint == []
      case Some(j) => if Joins(history, j, n) then |joint| == 1 && Draws(history, (j, n), joint[0]) else joint == []
  {
    hide SampleOf;
    LastSeenOfPrefix(history[..n], history, n);
  }

  /** The k-th segment drawn is that of the k-th joined pair, and there is no other. */
  lemma {:induction false} SegmentsJoinThePairs(history: seq<Item>)
    ensures |SegmentsOf(history)| == |Pairs(history)|
    ensures forall i :: 0 <= i < |Pairs(history)| ==> Draws(history, Pairs(history)[i], SegmentsOf(history)[i])
  {
    if history != [] {
      var n := |history| - 1;
      SegmentsJoinThePairs(history[..n]);
      LastJoint(history, n);
      hide Joint, Joins, SampleOf;
      forall i | 0 <= i < |Pairs(history[..n])|
        ensures Draws(history, Pairs(history)[i], SegmentsOf(history)[i])
      {
        assert Draws(history[..n], Pairs(history[..n])[i], SegmentsOf(history[..n])[i]);
      }
    }
  }

  // ---- Which items matter ----

  /** The gaps and the moves of a history: what is left without the events of any other kind. */
  function WithoutOthers(history: seq<Item>): seq<Item> {
    if history == [] then []
    else
      var last := history[|history| - 1];
      WithoutOthers(history[..|history| - 1]) + if last.Gap? || last.event.kind == MouseMoveKind then [last] else []
  }

  /** Events of other kinds neither draw nor break the trail. */
  lemma {:induction false} OthersDrawNothing(history: seq<Item>)
    ensures SegmentsOf(WithoutOthers(history)) == SegmentsOf(history)
    ensures Remembered(WithoutOthers(history)) == Remembered(history)
  {
    if history != [] {
      var n := |history| - 1;
      var front, last := history[..n], history[n];
      OthersDrawNothing(front);
      assert history == front + [last];
      RememberedPush(front, last);
      hide SampleOf, Remembered;
      if last.Gap? || last.event.kind == MouseMoveKind {
        RememberedPush(WithoutOthers(front), last);
        assert (WithoutOthers(front) + [last])[..|WithoutOthers(front)|] == WithoutOthers(front);
      } else {
        OtherHasNoSample(last);
        assert WithoutOthers(history) == WithoutOthers(front);
      }
    }
  }

  lemma OtherHasNoSample(item: Item)
    requires item.Ev? && item.event.kind != MouseMoveKind
    ensures SampleOf(item) == None
  {
  }

  /** After a move with a position, another one of the same origin in the same space draws the segment between
      them; after a gap, or a move without a position, nothing is drawn. */
  lemma NeighboursJoin(history: seq<Item>, a: Item, b: Item)
    requires a.Gap? || a.event.kind == MouseMoveKind
    ensures var drawn := SegmentsOf(history + [a] + [b]);
      if a.Ev? && b.Ev? && b.event.kind == MouseMoveKind && a.event.payload.MouseMove? && b.event.payload.MouseMove?
         && a.event.payload.position.Some? && b.event.payload.position.Some? && a.event.origin == b.event.origin
         && a.event.payload.position.value.space == b.event.payload.position.value.space
      then drawn == SegmentsOf(history + [a])
             + [Segment(a.event.payload.position.value, b.event.payload.position.value, b.event.origin)]
      else drawn == SegmentsOf(history + [a])
  {
    assert (history + [a] + [b])[..|history| + 1] == history + [a];
    RememberedPush(history, a);
    hide Remembered;
  }

  // ---- The renderer ----

  class Renderer {
    var previous: Option<Sample>
    var error: Option<Error>
    /** What was consumed, what the overlay was asked to draw, and the first refusal. */
    ghost var history: seq<Item>
    ghost var requested: seq<Segment>

    ghost predicate Valid()
      reads this
    {
      previous == Remembered(history) && requested == SegmentsOf(history)
    }

    constructor ()
      ensures Valid() && history == [] && error == None
    {
      previous, error, history, requested := None, None, [], [];
    }

    method RememberError(e: Error)
      modifies this`error
      ensures error == if old(error).None? then Some(e) else old(error)
    {
      if error.None? { error := Some(e); }
    }

    method Add(segment: Segment) returns (refusal: Option<Error>)
      modifies this`requested
      ensures requested == old(requested) + [segment]
    {
      requested := requested + [segment];
      refusal := *;
    }

    /** Whatever the overlay refuses, the renderer keeps asking for the joined pairs, and the first error stays. */
    method Consume(item: Item)
      requires Valid()
      modifies this
      ensures Valid() && history == old(history) + [item]
      ensures old(error).Some? ==> error == old(error)
    {
      RememberedPush(history, item);
      assert (history + [item])[..|history|] == history;
      history := history + [item];
      if item.Gap? {
        previous := None;
        return;
      }
      var event := item.event;
      if event.kind != MouseMoveKind { return; }
      if !event.payload.MouseMove? || event.payload.position.None? {
        previous := None;
        return;
      }
      var current := event.payload.position.value;
      if previous.None? || previous.value.position.space != current.space || previous.value.origin != event.origin {
        previous := Some(Sample(current, event.origin));
        return;
      }
      var refusal := Add(Segment(previous.value.position, current, event.origin));
      if refusal.Some? { RememberError(refusal.value); }
      previous := Some(Sample(current, event.origin));
    }
  }
}
