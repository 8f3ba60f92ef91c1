/** The live feed: motion and scroll streams collapse into summary lines, everything else prints
    one line, and the feed stays chronological. */
module Feed {
  import opened Wrappers
  import opened Events

  const WINDOW_SECONDS: real := 0.3
  const SCROLL_FIRST: nat := 4
  const SCROLL_LAST: nat := 7

  datatype Line =
    | GapLine(lastDelivered: nat)
    | EventLine(event: Event)
    | MoveSummary(first: real, last: Option<Point>, samples: nat)
    | ScrollSummary(first: real, button: nat, detents: nat)

  datatype MovePending = MovePending(first: real, samples: nat, last: Option<Point>)
  datatype ScrollPending = ScrollPending(first: real, button: nat, detents: nat)
  datatype Flags = Flags(showMouse: bool, showVisibility: bool)

  /** What the feed has pending and has done so far. */
  datatype State = State(
    move: Option<MovePending>,
    scroll: Option<ScrollPending>,
    lines: seq<Line>,
    observed: nat,
    gaps: nat)

  const START := State(None, None, [], 0, 0)

  predicate IsScrollButton(button: nat) {
    SCROLL_FIRST <= button <= SCROLL_LAST
  }

  predicate IsVisibilityChurn(e: Event) {
    && e.kind == A11yStateKind
    && e.payload.A11y?
    && e.payload.detail in ["showing", "visible", "hidden", "collapsed"]
  }

  predicate IsMotion(e: Event) {
    e.kind == MouseMoveKind && e.payload.MouseMove?
  }

  predicate IsScroll(e: Event) {
    e.kind == MouseClickKind && e.payload.MouseClick? && IsScrollButton(e.payload.button)
  }

  /** Mouse traffic and widget churn are hidden unless their flag is set. */
  predicate Hidden(flags: Flags, e: Event) {
    || (!flags.showMouse && (e.kind == MouseMoveKind || e.kind == MouseClickKind))
    || (!flags.showVisibility && IsVisibilityChurn(e))
  }

  // ---- One coalescer ----

  function RenderMove(p: MovePending): Line {
    MoveSummary(p.first, p.last, p.samples)
  }

  function RenderScroll(p: ScrollPending): Line {
    ScrollSummary(p.first, p.button, p.detents)
  }

  function MoveFeed(pending: Option<MovePending>, e: Event): (MovePending, Option<Line>)
    requires e.payload.MouseMove?
  {
    var aged := pending.Some? && e.timestamp - pending.value.first >= WINDOW_SECONDS;
    var p := if pending.Some? && !aged then pending.value else MovePending(e.timestamp, 0, None);
    (MovePending(p.first, p.samples + 1, if e.payload.position.Some? then e.payload.position else p.last),
     if aged then Some(RenderMove(pending.value)) else None)
  }

  function ScrollFeed(pending: Option<ScrollPending>, e: Event): (ScrollPending, Option<Line>)
    requires e.payload.MouseClick?
  {
    var button := e.payload.button;
    var closes := pending.Some? &&
      (pending.value.button != button || e.timestamp - pending.value.first >= WINDOW_SECONDS);
    var p := if pending.Some? && !closes then pending.value else ScrollPending(e.timestamp, button, 0);
    (p.(detents := p.detents + 1), if closes then Some(RenderScroll(pending.value)) else None)
  }

  class MoveCoalescer {
    var pending: Option<MovePending>

    constructor ()
      ensures pending == None
    {
      pending := None;
    }

    method Feed(e: Event) returns (line: Option<Line>)
      modifies this
      ensures if e.payload.MouseMove? then (pending, line) == (Some(MoveFeed(old(pending), e).0), MoveFeed(old(pending), e).1)
              else pending == old(pending) && line == None
    {
      line := None;
      if !e.payload.MouseMove? {
        return;
      }
      if pending.Some? && e.timestamp - pending.value.first >= WINDOW_SECONDS {
        line := Some(RenderMove(pending.value));
        pending := None;
      }
      if pending.None? {
        pending := Some(MovePending(e.timestamp, 0, None));
      }
      pending := Some(pending.value.(samples := pending.value.samples + 1));
      if e.payload.position.Some? {
        pending := Some(pending.value.(last := e.payload.position));
      }
    }

    method Flush() returns (line: Option<Line>)
      modifies this
      ensures pending == None
      ensures line == if old(pending).Some? then Some(RenderMove(old(pending).value)) else None
    {
      if pending.None? {
        return None;
      }
      line := Some(RenderMove(pending.value));
      pending := None;
    }

    method FlushIfOlder(now: real) returns (line: Option<Line>)
      modifies this
      ensures if old(pending).Some? && now - old(pending).value.first >= WINDOW_SECONDS
              then pending == None && line == Some(RenderMove(old(pending).value))
              else pending == old(pending) && line == None
    {
      if pending.None? || now - pending.value.first < WINDOW_SECONDS {
        return None;
      }
      line := Flush();
    }
  }

  class ScrollCoalescer {
    var pending: Option<ScrollPending>

    constructor ()
      ensures pending == None
    {
      pending := None;
    }

    method Feed(e: Event) returns (line: Option<Line>)
      modifies this
      ensures if e.payload.MouseClick? && IsScrollButton(e.payload.button)
              then (pending, line) == (Some(ScrollFeed(old(pending), e).0), ScrollFeed(old(pending), e).1)
              else pending == old(pending) && line == None
    {
      line := None;
      if !e.payload.MouseClick? || !IsScrollButton(e.payload.button) {
        return;
      }
      var button := e.payload.button;
      if pending.Some? && (pending.value.button != button || e.timestamp - pending.value.first >= WINDOW_SECONDS) {
        line := Some(RenderScroll(pending.value));
        pending := None;
      }
      if pending.None? {
        pending := Some(ScrollPending(e.timestamp, button, 0));
      }
      pending := Some(pending.value.(detents := pending.value.detents + 1));
    }

    method Flush() returns (line: Option<Line>)
      modifies this
      ensures pending == None
      ensures line == if old(pending).Some? then Some(RenderScroll(old(pending).value)) else None
    {
      if pending.None? {
        return None;
      }
      line := Some(RenderScroll(pending.value));
      pending := None;
    }

    method FlushIfOlder(now: real) returns (line: Option<Line>)
      modifies this
      ensures if old(pending).Some? && now - old(pending).value.first >= WINDOW_SECONDS
              then pending == None && line == Some(RenderScroll(old(pending).value))
              else pending == old(pending) && line == None
    {
      if pending.None? || now - pending.value.first < WINDOW_SECONDS {
        return None;
      }
      line := Flush();
    }
  }

  // ---- The feed as a function of its commands ----

  function Print(s: State, line: Line): State {
    s.(lines := s.lines + [line])
  }

  function PrintIf(s: State, line: Option<Line>): State {
    if line.Some? then Print(s, line.value) else s
  }

  function FlushMove(s: State): State {
    if s.move.None? then s else Print(s.(move := None), RenderMove(s.move.value))
  }

  function FlushScroll(s: State): State {
    if s.scroll.None? then s else Print(s.(scroll := None), RenderScroll(s.scroll.value))
  }

  function FlushPending(s: State): State {
    FlushScroll(FlushMove(s))
  }

  function Tick(s: State, now: real): State {
    var s1 := if s.move.Some? && now - s.move.value.first >= WINDOW_SECONDS then FlushMove(s) else s;
    if s1.scroll.Some? && now - s1.scroll.value.first >= WINDOW_SECONDS then FlushScroll(s1) else s1
  }

  function AddMotion(s: State, e: Event): State
    requires IsMotion(e)
  {
    var (p, line) := MoveFeed(s.move, e);
    PrintIf(s.(move := Some(p)), line)
  }

  function AddScroll(s: State, e: Event): State
    requires IsScroll(e)
  {
    var (p, line) := ScrollFeed(s.scroll, e);
    PrintIf(s.(scroll := Some(p)), line)
  }

  function ShowEvent(s: State, e: Event): State {
    if e.kind == MouseMoveKind then
      if IsMotion(e) then AddMotion(FlushScroll(s), e) else FlushScroll(s)
    else if IsScroll(e) then AddScroll(FlushMove(s), e)
    else Print(FlushPending(s), EventLine(e))
  }

  function Consume(s: State, flags: Flags, item: Item): State {
    match item
    case Gap(n) => Print(FlushPending(s.(gaps := s.gaps + 1)), GapLine(n))
    case Ev(e) =>
      var s1 := s.(observed := s.observed + 1);
      if Hidden(flags, e) then s1 else ShowEvent(s1, e)
  }

  // ---- Runs ----

  datatype Command = Take(item: Item) | TickNow(now: real) | FlushNow

  function Apply(s: State, flags: Flags, c: Command): State {
    match c
    case Take(item) => Consume(s, flags, item)
    case TickNow(now) => Tick(s, now)
    case FlushNow => FlushPending(s)
  }

  function Run(flags: Flags, commands: seq<Command>): State {
    if commands == [] then START
    else Apply(Run(flags, commands[..|commands| - 1]), flags, commands[|commands| - 1])
  }

  lemma RunPush(flags: Flags, commands: seq<Command>, c: Command)
    ensures Run(flags, commands + [c]) == Apply(Run(flags, commands), flags, c)
  {
    assert (commands + [c])[..|commands|] == commands;
  }

  /** The events consumed, in order, shown or not. */
  function EventsTaken(commands: seq<Command>): seq<Event> {
    if commands == [] then []
    else
      var c := commands[|commands| - 1];
      EventsTaken(commands[..|commands| - 1]) + if c.Take? && c.item.Ev? then [c.item.event] else []
  }

  lemma EventsTakenPush(commands: seq<Command>, c: Command)
    ensures EventsTaken(commands + [c]) == EventsTaken(commands) + if c.Take? && c.item.Ev? then [c.item.event] else []
  {
    assert (commands + [c])[..|commands|] == commands;
  }

  /** How many writes succeed before one fails. */
  function WrittenCount(writes: seq<bool>): (n: nat)
    ensures n <= |writes| && (forall k :: 0 <= k < n ==> writes[k]) && (n < |writes| ==> !writes[n])
  {
    if writes == [] || !writes[0] then 0 else 1 + WrittenCount(writes[1..])
  }

  lemma {:induction false} WrittenCountPush(writes: seq<bool>, written: bool)
    ensures WrittenCount(writes + [written])
      == WrittenCount(writes) + if written && WrittenCount(writes) == |writes| then 1 else 0
  {
    if writes != [] {
      assert (writes + [written])[1..] == writes[1..] + [written];
      WrittenCountPush(writes[1..], written);
    }
  }

  /** The logger, with the recording sink that runs beside the printed feed. */
  class EventLogger {
    const coalescer: MoveCoalescer
    const scrollCoalescer: ScrollCoalescer
    const flags: Flags
    const hasSink: bool
    var observed: nat
    var printed: nat
    var gaps: nat
    var output: seq<Line>
    var recorded: seq<Event>
    var sinkFailed: bool
    ghost var commands: seq<Command>  // everything asked of the logger so far
    ghost var writes: seq<bool>       // for every event, what the sink says or would say to it

    ghost predicate Counted()
      reads this
    {
      printed == |output|
    }

    ghost function Abstract(): State
      reads this, coalescer, scrollCoalescer
    {
      State(coalescer.pending, scrollCoalescer.pending, output, observed, gaps)
    }

    ghost predicate Valid()
      reads this, coalescer, scrollCoalescer
    {
      Counted() && Abstract() == Run(flags, commands) && Recording()
    }

    /** The recording is every event before the sink's first failure and none after it, whatever the feed
        hides; without a sink it is nothing. */
    ghost predicate Recording()
      reads this
    {
      && |writes| == |EventsTaken(commands)|
      && recorded == (if hasSink then EventsTaken(commands)[..WrittenCount(writes)] else [])
      && sinkFailed == (hasSink && WrittenCount(writes) < |writes|)
    }

    constructor (flags: Flags, hasSink: bool)
      ensures Valid() && this.flags == flags && this.hasSink == hasSink && commands == []
      ensures fresh(coalescer) && fresh(scrollCoalescer)
      ensures recorded == [] && !sinkFailed
    {
      coalescer := new MoveCoalescer();
      scrollCoalescer := new ScrollCoalescer();
      this.flags, this.hasSink := flags, hasSink;
      observed, printed, gaps, output, recorded, sinkFailed := 0, 0, 0, [], [], false;
      commands, writes := [], [];
    }

    method PrintLine(line: Line)
      requires Counted()
      modifies this`printed, this`output
      ensures Counted() && Abstract() == Print(old(Abstract()), line)
    {
      printed := printed + 1;
      output := output + [line];
    }

    method PrintIfAny(line: Option<Line>)
      requires Counted()
      modifies this`printed, this`output
      ensures Counted() && Abstract() == PrintIf(old(Abstract()), line)
    {
      if line.Some? {
        PrintLine(line.value);
      }
    }

    method CloseWindows()
      requires Counted()
      modifies this`printed, this`output, coalescer, scrollCoalescer
      ensures Counted() && Abstract() == FlushPending(old(Abstract()))
      ensures coalescer.pending.None? && scrollCoalescer.pending.None?
    {
      var line := coalescer.Flush();
      PrintIfAny(line);
      line := scrollCoalescer.Flush();
      PrintIfAny(line);
    }

    /** `written` is the sink's answer; the first failure stops the recording for good. */
    method Record(e: Event, written: bool)
      modifies this`recorded, this`sinkFailed
      ensures recorded == if !hasSink || old(sinkFailed) || !written then old(recorded) else old(recorded) + [e]
      ensures sinkFailed == (old(sinkFailed) || (hasSink && !written))
    {
      if !hasSink || sinkFailed {
        return;
      }
      if written {
        recorded := recorded + [e];
      } else {
        sinkFailed := true;
      }
    }

    method Show(e: Event)
      requires Counted()
      modifies this`printed, this`output, coalescer, scrollCoalescer
      ensures Counted() && Abstract() == if Hidden(flags, e) then old(Abstract()) else ShowEvent(old(Abstract()), e)
    {
      if !flags.showMouse && (e.kind == MouseMoveKind || e.kind == MouseClickKind) {
        return;
      }
      if !flags.showVisibility && IsVisibilityChurn(e) {
        return;
      }
      if e.kind == MouseMoveKind {
        var line := scrollCoalescer.Flush();
        PrintIfAny(line);
        line := coalescer.Feed(e);
        PrintIfAny(line);
        return;
      }
      if e.kind == MouseClickKind && e.payload.MouseClick? && IsScrollButton(e.payload.button) {
        var line := coalescer.Flush();
        PrintIfAny(line);
        line := scrollCoalescer.Feed(e);
        PrintIfAny(line);
        return;
      }
      CloseWindows();
      PrintLine(EventLine(e));
    }

    method FlushAll()
      requires Valid()
      modifies this`printed, this`output, this`commands, coalescer, scrollCoalescer
      ensures Valid() && commands == old(commands) + [FlushNow]
      ensures coalescer.pending.None? && scrollCoalescer.pending.None?
    {
      CloseWindows();
      RunPush(flags, commands, FlushNow);
      EventsTakenPush(commands, FlushNow);
      hide Run, FlushPending, EventsTaken, WrittenCount;
      commands := commands + [FlushNow];
    }

    method TickAt(now: real)
      requires Valid()
      modifies this`printed, this`output, this`commands, coalescer, scrollCoalescer
      ensures Valid() && commands == old(commands) + [TickNow(now)]
      ensures coalescer.pending.Some? ==> now - coalescer.pending.value.first < WINDOW_SECONDS
      ensures scrollCoalescer.pending.Some? ==> now - scrollCoalescer.pending.value.first < WINDOW_SECONDS
      ensures Ticked(old(Abstract()), now, Abstract())
    {
      RunPush(flags, commands, TickNow(now));
      EventsTakenPush(commands, TickNow(now));
      hide Run, EventsTaken, WrittenCount;
      var line := coalescer.FlushIfOlder(now);
      PrintIfAny(line);
      line := scrollCoalescer.FlushIfOlder(now);
      PrintIfAny(line);
      commands := commands + [TickNow(now)];
    }

    /** The recording is independent of what the feed hides. */
    method ConsumeItem(item: Item, written: bool)
      requires Valid()
      modifies this, coalescer, scrollCoalescer
      ensures Valid() && commands == old(commands) + [Take(item)]
      ensures writes == old(writes) + if item.Ev? then [written] else []
    {
      RunPush(flags, commands, Take(item));
      EventsTakenPush(commands, Take(item));
      WrittenCountPush(writes, written);
      hide Run, ShowEvent, FlushPending, Print, Hidden, WrittenCount, EventsTaken;
      if item.Gap? {
        gaps := gaps + 1;
        CloseWindows();
        PrintLine(GapLine(item.lastDelivered));
      } else {
        observed := observed + 1;
        Record(item.event, written);
        Show(item.event);
        writes := writes + [written];
      }
      commands := commands + [Take(item)];
    }
  }

  // ---- What one command does ----

  /** The windows that are as old as the window length are closed, each printed as one summary line, the motion's
      first; a younger window, and everything printed so far, stays. */
  ghost predicate Ticked(before: State, now: real, after: State) {
    var moves := before.move.Some? && now - before.move.value.first >= WINDOW_SECONDS;
    var scrolls := before.scroll.Some? && now - before.scroll.value.first >= WINDOW_SECONDS;
    && after.move == (if moves then None else before.move)
    && after.scroll == (if scrolls then None else before.scroll)
    && after.lines == before.lines
         + (if moves then [MoveSummary(before.move.value.first, before.move.value.last, before.move.value.samples)] else [])
         + (if scrolls then [ScrollSummary(before.scroll.value.first, before.scroll.value.button, before.scroll.value.detents)]
            else [])
    && after.observed == before.observed && after.gaps == before.gaps
  }

  /** At any moment of any run. */
  lemma TickOutcome(flags: Flags, commands: seq<Command>, now: real)
    ensures Ticked(Run(flags, commands), now, Run(flags, commands + [TickNow(now)]))
  {
    RunPush(flags, commands, TickNow(now));
    hide Run;
  }

  /** Mouse traffic is shown only with its flag, and so are the changes of state that come and go. */
  ghost predicate Visible(flags: Flags, e: Event) {
    match e.kind
    case MouseMoveKind => flags.showMouse
    case MouseClickKind => flags.showMouse
    case A11yStateKind =>
      flags.showVisibility || !e.payload.A11y?
        || (e.payload.detail != "showing" && e.payload.detail != "visible"
            && e.payload.detail != "hidden" && e.payload.detail != "collapsed")
    case OtherKind(_, _) => true
  }

  /** What an event leaves: a motion is the latest of the motion window, a turn of the wheel (buttons four to
      seven) is counted in the window of its button, a motion that carries no motion only ends the
      scrolling, and every other event is the last line printed, with nothing pending. */
  ghost predicate Left(before: State, e: Event, after: State) {
    match e.kind
    case MouseMoveKind =>
      && after.scroll.None?
      && if e.payload.MouseMove?
         then after.move.Some? && 0 < after.move.value.samples && e.timestamp - after.move.value.first < WINDOW_SECONDS
              && (e.payload.position.Some? ==> after.move.value.last == e.payload.position)
         else after.move == before.move
    case MouseClickKind =>
      && after.move.None?
      && if e.payload.MouseClick? && 4 <= e.payload.button <= 7
         then after.scroll.Some? && 0 < after.scroll.value.detents && after.scroll.value.button == e.payload.button
         else after.scroll.None? && after.lines != [] && after.lines[|after.lines| - 1] == EventLine(e)
    case _ => after.move.None? && after.scroll.None? && after.lines != [] && after.lines[|after.lines| - 1] == EventLine(e)
  }

  /** At any moment of any run, an event changes the feed exactly as far as it is visible. */
  lemma EventOutcome(flags: Flags, commands: seq<Command>, e: Event)
    ensures var before, after := Run(flags, commands), Run(flags, commands + [Take(Ev(e))]);
      && after.observed == before.observed + 1 && after.gaps == before.gaps && before.lines <= after.lines
      && if Visible(flags, e) then Left(before, e, after)
         else (after.move, after.scroll, after.lines) == (before.move, before.scroll, before.lines)
  {
    RunPush(flags, commands, Take(Ev(e)));
    hide Run;
  }

  // ---- The feed groups its input ----

  /** The items a reader of the feed should find in it: gaps, and events that are not hidden and,
      for motion, carry a motion payload. */
  function Shown(flags: Flags, c: Command): seq<Item> {
    match c
    case Take(Gap(n)) => [Gap(n)]
    case Take(Ev(e)) => if Hidden(flags, e) || (e.kind == MouseMoveKind && !IsMotion(e)) then [] else [Ev(e)]
    case _ => []
  }

  function AllShown(flags: Flags, commands: seq<Command>): seq<Item> {
    if commands == [] then []
    else AllShown(flags, commands[..|commands| - 1]) + Shown(flags, commands[|commands| - 1])
  }

  function Flatten(groups: seq<seq<Item>>): seq<Item> {
    if groups == [] then [] else Flatten(groups[..|groups| - 1]) + groups[|groups| - 1]
  }

  /** The last position any motion of the group reported. */
  function LastPosition(group: seq<Item>): Option<Point> {
    if group == [] then None
    else
      var item := group[|group| - 1];
      if item.Ev? && item.event.payload.MouseMove? && item.event.payload.position.Some? then item.event.payload.position
      else LastPosition(group[..|group| - 1])
  }

  ghost predicate Within(first: real, group: seq<Item>) {
    && group != []
    && (forall k :: 0 <= k < |group| ==> group[k].Ev? && group[k].event.timestamp - first < WINDOW_SECONDS)
    && group[0].event.timestamp == first
  }

  /** The line is the right summary of exactly this group. */
  ghost predicate Explains(line: Line, group: seq<Item>) {
    match line
    case GapLine(n) => group == [Gap(n)]
    case EventLine(e) => group == [Ev(e)] && e.kind != MouseMoveKind && !IsScroll(e)
    case MoveSummary(first, last, samples) =>
      && Within(first, group) && samples == |group| && last == LastPosition(group)
      && forall k :: 0 <= k < |group| ==> IsMotion(group[k].event)
    case ScrollSummary(first, button, detents) =>
      && Within(first, group) && detents == |group|
      && forall k :: 0 <= k < |group| ==> IsScroll(group[k].event) && group[k].event.payload.button == button
  }

  /** The line the pending window would print now, if there is one. */
  function PendingLine(s: State): Option<Line> {
    if s.move.Some? then Some(RenderMove(s.move.value))
    else if s.scroll.Some? then Some(RenderScroll(s.scroll.value))
    else None
  }

  /** At most one coalescer holds anything, and the lines and the pending window are the summaries
      of `groups` and `open`. */
  ghost predicate Grouped(s: State, groups: seq<seq<Item>>, open: seq<Item>) {
    && !(s.move.Some? && s.scroll.Some?)
    && |groups| == |s.lines|
    && (forall i :: 0 <= i < |groups| ==> Explains(s.lines[i], groups[i]))
    && (if PendingLine(s).Some? then Explains(PendingLine(s).value, open) else open == [])
  }

  datatype Grouping = Grouping(groups: seq<seq<Item>>, open: seq<Item>)

  ghost predicate GroupedBy(s: State, g: Grouping) {
    Grouped(s, g.groups, g.open)
  }

  function Everything(g: Grouping): seq<Item> {
    Flatten(g.groups) + g.open
  }

  /** Closing whatever is pending turns the open group into the group of one more line. */
  function Closed(g: Grouping): Grouping {
    if g.open == [] then g else Grouping(g.groups + [g.open], [])
  }

  lemma ClosedKeepsItems(g: Grouping)
    ensures Everything(Closed(g)) == Everything(g) && Closed(g).open == []
  {
    if g.open != [] {
      assert (g.groups + [g.open])[..|g.groups|] == g.groups;
    }
  }

  lemma FlushGroups(s: State, g: Grouping)
    requires GroupedBy(s, g)
    ensures GroupedBy(FlushPending(s), Closed(g))
    ensures s.scroll.None? ==> FlushMove(s) == FlushPending(s)
    ensures s.move.None? ==> FlushScroll(s) == FlushPending(s)
    ensures s.scroll.Some? ==> FlushMove(s) == s
    ensures s.move.Some? ==> FlushScroll(s) == s
  {
  }

  /** A line printed for one item, when nothing is pending. */
  lemma PrintGroups(s: State, g: Grouping, line: Line, item: Item) returns (g': Grouping)
    requires GroupedBy(s, g) && PendingLine(s).None? && Explains(line, [item])
    ensures GroupedBy(Print(s, line), g') && Everything(g') == Everything(g) + [item]
  {
    g' := Grouping(g.groups + [[item]], []);
    assert (g.groups + [[item]])[..|g.groups|] == g.groups;
  }

  lemma MotionJoins(p: MovePending, group: seq<Item>, e: Event)
    requires Explains(RenderMove(p), group) && IsMotion(e) && e.timestamp - p.first < WINDOW_SECONDS
    ensures Explains(RenderMove(MoveFeed(Some(p), e).0), group + [Ev(e)])
  {
    assert (group + [Ev(e)])[..|group|] == group;
  }

  lemma MotionOpens(e: Event)
    requires IsMotion(e)
    ensures Explains(RenderMove(MoveFeed(None, e).0), [Ev(e)])
  {
    assert [Ev(e)][..0] == [];
  }

  /** A motion joining, or closing and reopening, the motion window. */
  lemma MotionGroups(s: State, g: Grouping, e: Event) returns (g': Grouping)
    requires GroupedBy(s, g) && s.scroll.None? && IsMotion(e)
    ensures GroupedBy(AddMotion(s, e), g') && Everything(g') == Everything(g) + [Ev(e)]
  {
    if s.move.Some? && e.timestamp - s.move.value.first < WINDOW_SECONDS {
      g' := g.(open := g.open + [Ev(e)]);
      MotionJoins(s.move.value, g.open, e);
      hide Explains;
      assert Flatten(g.groups) + (g.open + [Ev(e)]) == Everything(g) + [Ev(e)];
    } else {
      g' := Closed(g).(open := [Ev(e)]);
      ClosedKeepsItems(g);
      FlushGroups(s, g);
      MotionOpens(e);
    }
  }

  lemma ScrollGroups(s: State, g: Grouping, e: Event) returns (g': Grouping)
    requires GroupedBy(s, g) && s.move.None? && IsScroll(e)
    ensures GroupedBy(AddScroll(s, e), g') && Everything(g') == Everything(g) + [Ev(e)]
  {
    var button := e.payload.button;
    if s.scroll.Some? && s.scroll.value.button == button && e.timestamp - s.scroll.value.first < WINDOW_SECONDS {
      g' := g.(open := g.open + [Ev(e)]);
      assert Flatten(g.groups) + (g.open + [Ev(e)]) == Everything(g) + [Ev(e)];
    } else {
      g' := Closed(g).(open := [Ev(e)]);
      ClosedKeepsItems(g);
      FlushGroups(s, g);
    }
  }

  lemma ShowGroups(s: State, e: Event, g: Grouping) returns (g': Grouping)
    requires GroupedBy(s, g)
    ensures GroupedBy(ShowEvent(s, e), g')
    ensures Everything(g') == Everything(g) + if e.kind == MouseMoveKind && !IsMotion(e) then [] else [Ev(e)]
  {
    FlushGroups(s, g);
    ClosedKeepsItems(g);
    if e.kind == MouseMoveKind {
      g' := if s.scroll.Some? then Closed(g) else g;
      if IsMotion(e) { g' := MotionGroups(FlushScroll(s), g', e); }
    } else if IsScroll(e) {
      g' := if s.move.Some? then Closed(g) else g;
      g' := ScrollGroups(FlushMove(s), g', e);
    } else {
      g' := PrintGroups(FlushPending(s), Closed(g), EventLine(e), Ev(e));
    }
  }

  lemma GapGroups(s: State, n: nat, g: Grouping) returns (g': Grouping)
    requires GroupedBy(s, g)
    ensures GroupedBy(Print(FlushPending(s), GapLine(n)), g') && Everything(g') == Everything(g) + [Gap(n)]
  {
    FlushGroups(s, g);
    ClosedKeepsItems(g);
    g' := PrintGroups(FlushPending(s), Closed(g), GapLine(n), Gap(n));
  }

  lemma TickGroups(s: State, now: real, g: Grouping) returns (g': Grouping)
    requires GroupedBy(s, g)
    ensures GroupedBy(Tick(s, now), g') && Everything(g') == Everything(g)
  {
    FlushGroups(s, g);
    ClosedKeepsItems(g);
    g' := if Tick(s, now) == s then g else Closed(g);
  }

  /** One command extends the grouping by exactly the items it shows. */
  lemma ApplyGroups(s: State, flags: Flags, c: Command, g: Grouping) returns (g': Grouping)
    requires GroupedBy(s, g)
    ensures GroupedBy(Apply(s, flags, c), g') && Everything(g') == Everything(g) + Shown(flags, c)
  {
    match c
    case FlushNow =>
      FlushGroups(s, g);
      ClosedKeepsItems(g);
      g' := Closed(g);
    case TickNow(now) => g' := TickGroups(s, now, g);
    case Take(Gap(n)) => g' := GapGroups(s.(gaps := s.gaps + 1), n, g);
    case Take(Ev(e)) =>
      assert GroupedBy(s.(observed := s.observed + 1), g);
      hide Grouped, ShowEvent;
      g' := g;
      if !Hidden(flags, e) { g' := ShowGroups(s.(observed := s.observed + 1), e, g); }
  }

  /** The feed is a grouping of its input: for every run, the items behind the printed lines, then
      the items behind the pending window, are exactly the shown items in order. */
  lemma {:induction false} FeedGroupsItsInput(flags: Flags, commands: seq<Command>) returns (g: Grouping)
    ensures GroupedBy(Run(flags, commands), g)
    ensures Everything(g) == AllShown(flags, commands)
  {
    if commands == [] {
      g := Grouping([], []);
    } else {
      var before := commands[..|commands| - 1];
      var g0 := FeedGroupsItsInput(flags, before);
      g := ApplyGroups(Run(flags, before), flags, commands[|commands| - 1], g0);
    }
  }

  // ---- Chronology ----

  predicate Stamped(line: Line) {
    !line.GapLine?
  }

  function Stamp(line: Line): real
    requires Stamped(line)
  {
    if line.EventLine? then line.event.timestamp else line.first
  }

  ghost predicate NoLater(line: Line, time: Option<real>) {
    Stamped(line) ==> time.Some? && Stamp(line) <= time.value
  }

  /** Printed timestamps never decrease; no printed one is after the pending one, nor that after `latest`. */
  ghost predicate Chronological(s: State, latest: Option<real>) {
    var end := if PendingLine(s).Some? then Some(Stamp(PendingLine(s).value)) else latest;
    && !(s.move.Some? && s.scroll.Some?)
    && (PendingLine(s).Some? ==> NoLater(PendingLine(s).value, latest))
    && (forall i :: 0 <= i < |s.lines| ==> NoLater(s.lines[i], end))
    && (forall i, j :: 0 <= i < j < |s.lines| && Stamped(s.lines[j]) ==> NoLater(s.lines[i], Some(Stamp(s.lines[j]))))
  }

  /** The timestamps of the shown events never decrease. */
  ghost predicate InOrder(items: seq<Item>) {
    forall i, j :: 0 <= i < j < |items| && items[i].Ev? && items[j].Ev? ==>
      items[i].event.timestamp <= items[j].event.timestamp
  }

  lemma FlushChronological(s: State, latest: Option<real>)
    requires Chronological(s, latest)
    ensures Chronological(FlushPending(s), latest) && PendingLine(FlushPending(s)).None?
    ensures FlushMove(s) == s || FlushMove(s) == FlushPending(s)
    ensures FlushScroll(s) == s || FlushScroll(s) == FlushPending(s)
  {
  }

  lemma PrintChronological(s: State, latest: Option<real>, line: Line)
    requires Chronological(s, latest) && PendingLine(s).None? && NoLater(line, latest)
    requires Stamped(line) ==> latest == Some(Stamp(line))
    ensures Chronological(Print(s, line), latest)
  {
  }

  lemma MotionChronological(s: State, latest: Option<real>, e: Event)
    requires Chronological(s, latest) && s.scroll.None? && IsMotion(e) && latest == Some(e.timestamp)
    ensures Chronological(AddMotion(s, e), latest)
  {
    FlushChronological(s, latest);
  }

  lemma ScrollChronological(s: State, latest: Option<real>, e: Event)
    requires Chronological(s, latest) && s.move.None? && IsScroll(e) && latest == Some(e.timestamp)
    ensures Chronological(AddScroll(s, e), latest)
  {
    FlushChronological(s, latest);
  }

  lemma ShowChronological(s: State, latest: Option<real>, e: Event)
    requires Chronological(s, latest)
    requires (e.kind == MouseMoveKind && !IsMotion(e)) || latest == Some(e.timestamp)
    ensures Chronological(ShowEvent(s, e), latest)
  {
    FlushChronological(s, latest);
    if e.kind == MouseMoveKind {
      if IsMotion(e) { MotionChronological(FlushScroll(s), latest, e); }
    } else if IsScroll(e) {
      ScrollChronological(FlushMove(s), latest, e);
    } else {
      PrintChronological(FlushPending(s), latest, EventLine(e));
    }
  }

  /** The latest timestamp after `shown` more items. */
  function Later(latest: Option<real>, shown: seq<Item>): Option<real> {
    if shown != [] && shown[0].Ev? then Some(shown[0].event.timestamp) else latest
  }

  lemma GapChronological(s: State, latest: Option<real>, n: nat)
    requires Chronological(s, latest)
    ensures Chronological(Print(FlushPending(s), GapLine(n)), latest)
  {
    FlushChronological(s, latest);
    PrintChronological(FlushPending(s), latest, GapLine(n));
  }

  lemma LaterChronological(s: State, latest: Option<real>, later: Option<real>)
    requires Chronological(s, latest)
    requires latest.Some? ==> later.Some? && latest.value <= later.value
    ensures Chronological(s, later)
  {
  }

  lemma ApplyChronological(s: State, flags: Flags, c: Command, latest: Option<real>)
    requires Chronological(s, latest)
    requires latest.Some? && Later(latest, Shown(flags, c)).Some? ==> latest.value <= Later(latest, Shown(flags, c)).value
    ensures Chronological(Apply(s, flags, c), Later(latest, Shown(flags, c)))
  {
    match c
    case FlushNow => FlushChronological(s, latest);
    case TickNow(_) => FlushChronological(s, latest);
    case Take(Gap(n)) => GapChronological(s.(gaps := s.gaps + 1), latest, n);
    case Take(Ev(e)) =>
      var s1, later := s.(observed := s.observed + 1), Later(latest, Shown(flags, c));
      LaterChronological(s1, latest, later);
      hide Chronological, ShowEvent;
      if !Hidden(flags, e) { ShowChronological(s1, later, e); }
  }

  function Latest(items: seq<Item>): Option<real> {
    if items == [] then None
    else
      var item := items[|items| - 1];
      if item.Ev? then Some(item.event.timestamp) else Latest(items[..|items| - 1])
  }

  lemma LatestIsShown(items: seq<Item>)
    ensures Latest(items).Some? ==> exists i :: 0 <= i < |items| && items[i].Ev? && items[i].event.timestamp == Latest(items).value
  {
    if items != [] && items[|items| - 1].Gap? {
      LatestIsShown(items[..|items| - 1]);
    }
  }

  /** If shown events arrive in time order then the lines are printed in time order, wherever ticks,
      flushes and gaps fall; and at most one coalescer is ever pending. */
  lemma {:induction false} FeedIsChronological(flags: Flags, commands: seq<Command>)
    requires InOrder(AllShown(flags, commands))
    ensures Chronological(Run(flags, commands), Latest(AllShown(flags, commands)))
  {
    if commands != [] {
      var before, c := commands[..|commands| - 1], commands[|commands| - 1];
      var was, now := AllShown(flags, before), AllShown(flags, commands);
      assert forall i :: 0 <= i < |was| ==> now[i] == was[i];
      FeedIsChronological(flags, before);
      LatestIsShown(was);
      if Shown(flags, c) != [] {
        assert now[|was|] == Shown(flags, c)[0] && now[..|was|] == was;
      } else {
        assert now == was;
      }
      ApplyChronological(Run(flags, before), flags, c, Latest(was));
    }
  }

  // ---- No summary is cut short ----

  /** Two summaries that one window could have held. */
  ghost predicate SameStream(a: Line, b: Line) {
    || (a.MoveSummary? && b.MoveSummary?)
    || (a.ScrollSummary? && b.ScrollSummary? && a.button == b.button)
  }

  ghost predicate WindowApart(a: Line, b: Line) {
    SameStream(a, b) ==> Stamp(b) - Stamp(a) >= WINDOW_SECONDS
  }

  /** Neighbouring summaries of one stream are a full window apart, the pending one included. */
  ghost predicate FullWindows(s: State) {
    && !(s.move.Some? && s.scroll.Some?)
    && (forall i :: 0 < i < |s.lines| ==> WindowApart(s.lines[i - 1], s.lines[i]))
    && (s.lines != [] && (s.lines[|s.lines| - 1].MoveSummary? || s.lines[|s.lines| - 1].ScrollSummary?) ==>
          PendingLine(s).Some? && WindowApart(s.lines[|s.lines| - 1], PendingLine(s).value))
  }

  /** Nothing is pending, and the next line interrupts whatever was printed last. */
  lemma PrintFullWindows(s: State, line: Line)
    requires FullWindows(s) && (line.GapLine? || line.EventLine?)
    ensures FullWindows(Print(FlushPending(s), line))
  {
    var flushed := FlushPending(s);
    assert forall i :: 0 < i < |flushed.lines| ==> WindowApart(flushed.lines[i - 1], flushed.lines[i]);
  }

  lemma MotionFullWindows(s: State, e: Event)
    requires FullWindows(s) && IsMotion(e)
    ensures FullWindows(AddMotion(FlushScroll(s), e))
  {
    var flushed := FlushScroll(s);
    assert forall i :: 0 < i < |flushed.lines| ==> WindowApart(flushed.lines[i - 1], flushed.lines[i]);
  }

  lemma ScrollFullWindows(s: State, e: Event)
    requires FullWindows(s) && IsScroll(e)
    ensures FullWindows(AddScroll(FlushMove(s), e))
  {
    var flushed := FlushMove(s);
    assert forall i :: 0 < i < |flushed.lines| ==> WindowApart(flushed.lines[i - 1], flushed.lines[i]);
  }

  lemma TakeFullWindows(s: State, flags: Flags, item: Item)
    requires FullWindows(s)
    requires item.Ev? && item.event.kind == MouseMoveKind ==> IsMotion(item.event)
    ensures FullWindows(Consume(s, flags, item))
  {
    if item.Gap? {
      PrintFullWindows(s.(gaps := s.gaps + 1), GapLine(item.lastDelivered));
    } else {
      var s1, e := s.(observed := s.observed + 1), item.event;
      assert FullWindows(s1);
      hide FullWindows;
      if !Hidden(flags, e) {
        if IsMotion(e) {
          MotionFullWindows(s1, e);
        } else if IsScroll(e) {
          ScrollFullWindows(s1, e);
        } else {
          PrintFullWindows(s1, EventLine(e));
        }
      }
    }
  }

  /** Without ticks and flushes, a summary line ends only because another kind of line interrupts it
      or because its window is over. */
  lemma {:induction false} SummariesAreMaximal(flags: Flags, commands: seq<Command>)
    requires forall k :: 0 <= k < |commands| ==> commands[k].Take?
    requires forall k :: 0 <= k < |commands| && commands[k].item.Ev? && commands[k].item.event.kind == MouseMoveKind ==>
      IsMotion(commands[k].item.event)
    ensures FullWindows(Run(flags, commands))
  {
    if commands != [] {
      var before, item := commands[..|commands| - 1], commands[|commands| - 1].item;
      hide Consume;
      SummariesAreMaximal(flags, before);
      TakeFullWindows(Run(flags, before), flags, item);
    }
  }

  function GapsTaken(commands: seq<Command>): nat {
    if commands == [] then 0
    else
      var c := commands[|commands| - 1];
      GapsTaken(commands[..|commands| - 1]) + if c.Take? && c.item.Gap? then 1 else 0
  }

  lemma ApplyCounts(s: State, flags: Flags, c: Command)
    ensures Apply(s, flags, c).observed == s.observed + if c.Take? && c.item.Ev? then 1 else 0
    ensures Apply(s, flags, c).gaps == s.gaps + if c.Take? && c.item.Gap? then 1 else 0
  {
  }

  lemma {:induction false} CountersAreExact(flags: Flags, commands: seq<Command>)
    ensures var s := Run(flags, commands); s.observed == |EventsTaken(commands)| && s.gaps == GapsTaken(commands)
  {
    if commands != [] {
      hide Apply;
      CountersAreExact(flags, commands[..|commands| - 1]);
      ApplyCounts(Run(flags, commands[..|commands| - 1]), flags, commands[|commands| - 1]);
    }
  }
}
