/** Events as the queue, the feed and the trail see them. */
module Events {
  import opened Wrappers

  datatype Point = Point(x: real, y: real, space: nat)

  /** The kinds some code branches on; every other kind keeps only its coalescing class. */
  datatype Kind =
    | MouseMoveKind
    | MouseClickKind
    | A11yStateKind
    | OtherKind(code: nat, neverDrop: bool)

  datatype Payload =
    | MouseMove(position: Option<Point>)
    | MouseClick(button: nat)
    | A11y(detail: string)
    | OtherPayload(tag: nat)

  datatype Origin = Physical | InjectedOther | UnknownOrigin

  datatype Event = Event(timestamp: real, sequence: nat, kind: Kind, payload: Payload, origin: Origin)

  /** What a subscription hands out: an event, or a marker for events that were lost. */
  datatype Item = Gap(lastDelivered: nat) | Ev(event: Event)

  predicate NeverDropClass(kind: Kind) {
    match kind
    case MouseMoveKind => false
    case MouseClickKind => true
    case A11yStateKind => false
    case OtherKind(_, neverDrop) => neverDrop
  }
}
