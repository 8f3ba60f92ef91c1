/** One subscription stream over the socket: a reader thread fills a queue that the client polls. */
module GrpcStream {
  import opened Wrappers
  import opened Events

  /** A message as received; `decoded` is what the decoder makes of it. */
  datatype Wire = Wire(decoded: Option<Event>)

  datatype StatusCode =
    | StatusOk | Unavailable | StatusDeadlineExceeded | StatusCancelled | StatusInvalidArgument
    | Unauthenticated | StatusPermissionDenied | NotFound | AlreadyExists | ResourceExhausted
    | Unimplemented | OtherStatus

  /** How the call ended; `typed` is an error named in its details, with that error's disposition. */
  datatype Status = Status(code: StatusCode, typed: Option<Error>)

  /** Only an unavailable server makes an untyped failure worth a reconnect. */
  function GrpcError(status: Status): (e: Error)
    ensures IsConnectionError(e) <==>
      if status.typed.Some? then status.typed.value.disposition == RetrySame else status.code == Unavailable
    ensures status.typed.Some? ==> e == status.typed.value
  {
    if status.typed.Some? then status.typed.value
    else match status.code
      case Unavailable => Error(EnvironmentChanged, RetrySame)
      case StatusDeadlineExceeded => Error(DeadlineExceeded, Fatal)
      case StatusCancelled => Error(Cancelled, Fatal)
      case StatusInvalidArgument => Error(InvalidArgument, Fatal)
      case Unauthenticated => Error(PermissionDenied, Fatal)
      case StatusPermissionDenied => Error(PermissionDenied, Fatal)
      case NotFound => Error(SessionNotFound, Fatal)
      case AlreadyExists => Error(SessionExists, Fatal)
      case ResourceExhausted => Error(Overflowed, Fatal)
      case Unimplemented => Error(CapabilityUnavailable, Fatal)
      case StatusOk => Error(InternalFault, Fatal)
      case OtherStatus => Error(ProtocolError, Fatal)
  }

  predicate IsConnectionError(e: Error) {
    e.disposition == RetrySame
  }

  /** What the two threads share, under the lock. */
  datatype Shared = Shared(events: seq<Event>, terminal: Option<Error>, dropped: nat)

  const EMPTY := Shared([], None, 0)

  /** The reader's turn for one message, and for the end of the call. */
  function Received(s: Shared, w: Wire): Shared {
    if w.decoded.None? then s.(dropped := s.dropped + 1)
    else s.(events := s.events + [w.decoded.value])
  }

  function Finished(s: Shared, status: Status): Shared {
    if status.code == StatusOk || s.terminal.Some? then s
    else s.(terminal := Some(GrpcError(status)))
  }

  /** What the end of a call leaves of the error remembered: the first failure stays; a failure says whether it is
      worth a reconnect exactly as its status does. */
  ghost predicate Remembers(before: Option<Error>, status: Status, after: Option<Error>) {
    if before.Some? || status.code == StatusOk then after == before
    else after.Some? && FailedWith(status, after.value)
  }

  ghost predicate FailedWith(status: Status, e: Error) {
    if status.typed.Some? then e == status.typed.value else e.disposition == RetrySame <==> status.code == Unavailable
  }

  lemma FinishedRemembers(s: Shared, status: Status)
    ensures Finished(s, status) == s.(terminal := Finished(s, status).terminal)
    ensures Remembers(s.terminal, status, Finished(s, status).terminal)
  {
  }

  /** The client's turn. */
  function Polled(s: Shared): (Shared, Result<Option<Event>>) {
    if s.events != [] then (s.(events := s.events[1..]), Ok(Some(s.events[0])))
    else if s.terminal.Some? then (s, Err(s.terminal.value))
    else (s, Ok(None))
  }

  /** The events among some messages, in order. */
  function Decodable(wires: seq<Wire>): seq<Event> {
    if wires == [] then []
    else
      var w := wires[|wires| - 1];
      Decodable(wires[..|wires| - 1]) + if w.decoded.Some? then [w.decoded.value] else []
  }

  function ReceivedAll(s: Shared, wires: seq<Wire>): Shared {
    if wires == [] then s else Received(ReceivedAll(s, wires[..|wires| - 1]), wires[|wires| - 1])
  }

  class GrpcSubscriptionStream {
    var events: seq<Event>
    var terminalError: Option<Error>
    var dropped: nat

    function Abstract(): Shared
      reads this
    {
      Shared(events, terminalError, dropped)
    }

    constructor ()
      ensures Abstract() == EMPTY
    {
      events, terminalError, dropped := [], None, 0;
    }

    method TryNext() returns (r: Result<Option<Event>>)
      modifies this
      ensures (Abstract(), r) == Polled(old(Abstract()))
    {
      if events != [] {
        var event := events[0];
        events := events[1..];
        return Ok(Some(event));
      }
      if terminalError.Some? {
        return Err(terminalError.value);
      }
      return Ok(None);
    }

    /** The reader thread, on a call that delivers `wires` and then ends with `status`, run without
        interruption. */
    method ReadStream(wires: seq<Wire>, status: Status)
      modifies this
      ensures Abstract() == Finished(ReceivedAll(old(Abstract()), wires), status)
      ensures events == old(events) + Decodable(wires)
      ensures dropped == old(dropped) + |wires| - |Decodable(wires)|
      ensures Remembers(old(terminalError), status, terminalError)
    {
      var next := 0;
      while next < |wires|
        invariant 0 <= next <= |wires|
        invariant Abstract() == ReceivedAll(old(Abstract()), wires[..next])
        invariant events == old(events) + Decodable(wires[..next])
        invariant dropped == old(dropped) + next - |Decodable(wires[..next])|
        invariant terminalError == old(terminalError)
      {
        var w := wires[next];
        next := next + 1;
        assert wires[..next][..next - 1] == wires[..next - 1];
        if w.decoded.None? {
          dropped := dropped + 1;
          continue;
        }
        events := events + [w.decoded.value];
      }
      assert wires[..next] == wires;
      if status.code != StatusOk {
        if terminalError.None? {
          terminalError := Some(GrpcError(status));
        }
      }
    }
  }

  // ---- The two threads interleaved ----

  /** Where the reader thread is between two touches of the shared state. */
  datatype Reader = Reading | InHand(wire: Wire) | Ending | Ended(status: Status) | Done

  /** The shared state, with everything received and every answer given so far. */
  datatype Machine = Machine(
    shared: Shared,
    reader: Reader,
    received: seq<Wire>,
    answers: seq<Result<Option<Event>>>)

  datatype Action =
    | Read(wire: Wire)
    | Handle
    | ReadFails
    | Finish(status: Status)
    | RecordStatus
    | TryNext

  const START := Machine(EMPTY, Reading, [], [])

  predicate Enabled(m: Machine, a: Action) {
    match a
    case Read(_) => m.reader == Reading
    case Handle => m.reader.InHand?
    case ReadFails => m.reader == Reading
    case Finish(_) => m.reader == Ending
    case RecordStatus => m.reader.Ended?
    case TryNext => true
  }

  function Apply(m: Machine, a: Action): Machine
    requires Enabled(m, a)
  {
    match a
    case Read(w) => m.(reader := InHand(w), received := m.received + [w])
    case Handle => m.(shared := Received(m.shared, m.reader.wire), reader := Reading)
    case ReadFails => m.(reader := Ending)
    case Finish(status) => m.(reader := Ended(status))
    case RecordStatus => m.(shared := Finished(m.shared, m.reader.status), reader := Done)
    case TryNext =>
      var (shared, answer) := Polled(m.shared);
      m.(shared := shared, answers := m.answers + [answer])
  }

  ghost predicate IsRun(trace: seq<Machine>, actions: seq<Action>) {
    && |trace| == |actions| + 1 && trace[0] == START
    && forall i :: 0 <= i < |actions| ==> Enabled(trace[i], actions[i]) && trace[i + 1] == Apply(trace[i], actions[i])
  }

  /** The events the client was given. */
  function Delivered(answers: seq<Result<Option<Event>>>): seq<Event> {
    if answers == [] then []
    else
      var last := answers[|answers| - 1];
      Delivered(answers[..|answers| - 1]) + if last.Ok? && last.value.Some? then [last.value.value] else []
  }

  function InFlight(m: Machine): seq<Wire> {
    if m.reader.InHand? then [m.reader.wire] else []
  }

  /** Nothing follows an error but the same error, and it came after everything that was received. */
  ghost predicate ErrorIsFinal(m: Machine) {
    forall i :: 0 <= i < |m.answers| && m.answers[i].Err? ==>
      && m.shared.terminal == Some(m.answers[i].error) && m.shared.events == []
      && Delivered(m.answers[..i]) == Decodable(m.received)
      && forall j :: i <= j < |m.answers| ==> m.answers[j] == m.answers[i]
  }

  ghost predicate Conserved(m: Machine) {
    && Decodable(m.received) == Delivered(m.answers) + m.shared.events + Decodable(InFlight(m))
    && |m.received| == |Delivered(m.answers)| + |m.shared.events| + m.shared.dropped + |InFlight(m)|
    && (m.shared.terminal.Some? ==> m.reader == Done)
  }

  lemma DecodablePush(wires: seq<Wire>, w: Wire)
    ensures Decodable(wires + [w]) == Decodable(wires) + Decodable([w])
    ensures Decodable([w]) == if w.decoded.Some? then [w.decoded.value] else []
  {
    assert (wires + [w])[..|wires|] == wires && [w][..0] == [];
  }

  lemma DeliveredPush(answers: seq<Result<Option<Event>>>, answer: Result<Option<Event>>)
    ensures Delivered(answers + [answer]) ==
      Delivered(answers) + if answer.Ok? && answer.value.Some? then [answer.value.value] else []
  {
    assert (answers + [answer])[..|answers|] == answers;
  }

  lemma HeadMoves(a: seq<Event>, b: seq<Event>, c: seq<Event>)
    requires b != []
    ensures a + b + c == (a + [b[0]]) + b[1..] + c
  {
  }

  lemma TailMoves(a: seq<Event>, b: seq<Event>, c: seq<Event>)
    ensures a + b + c == a + (b + c) + [] && a + b + [] + c == a + b + c
  {
  }

  lemma NothingAdds(a: seq<Event>)
    ensures a + [] == a
  {
  }

  lemma ReadConserves(m: Machine, w: Wire)
    requires Conserved(m) && m.reader == Reading
    ensures Conserved(Apply(m, Read(w)))
  {
    assert Decodable([]) == [];
    hide Decodable, Delivered;
    DecodablePush(m.received, w);
    TailMoves(Delivered(m.answers), m.shared.events, Decodable([w]));
  }

  lemma HandleConserves(m: Machine)
    requires Conserved(m) && m.reader.InHand?
    ensures Conserved(Apply(m, Handle))
  {
    assert Decodable([]) == [];
    DecodableOne(m.reader.wire);
    hide Decodable, Delivered;
    TailMoves(Delivered(m.answers), m.shared.events, Decodable([m.reader.wire]));
    NothingAdds(m.shared.events);
  }

  lemma DecodableOne(w: Wire)
    ensures Decodable([w]) == if w.decoded.Some? then [w.decoded.value] else []
  {
    DecodablePush([], w);
  }

  lemma PollConserves(m: Machine)
    requires Conserved(m)
    ensures Conserved(Apply(m, TryNext))
  {
    hide Decodable, Delivered;
    DeliveredPush(m.answers, Polled(m.shared).1);
    NothingAdds(Delivered(m.answers));
    if m.shared.events != [] { HeadMoves(Delivered(m.answers), m.shared.events, Decodable(InFlight(m))); }
  }

  lemma StepConserves(m: Machine, a: Action)
    requires Conserved(m) && Enabled(m, a)
    ensures Conserved(Apply(m, a))
  {
    match a
    case Read(w) => ReadConserves(m, w);
    case Handle => HandleConserves(m);
    case TryNext => PollConserves(m);
    case _ =>
  }

  lemma StepErrorIsFinal(m: Machine, a: Action)
    requires Conserved(m) && ErrorIsFinal(m) && Enabled(m, a)
    ensures ErrorIsFinal(Apply(m, a))
  {
    var m' := Apply(m, a);
    forall i | 0 <= i < |m'.answers| && m'.answers[i].Err?
      ensures m'.shared.terminal == Some(m'.answers[i].error) && m'.shared.events == []
      ensures Delivered(m'.answers[..i]) == Decodable(m'.received)
      ensures forall j :: i <= j < |m'.answers| ==> m'.answers[j] == m'.answers[i]
    {
      if i < |m.answers| {
        assert m.answers[i] == m'.answers[i] && m.answers[..i] == m'.answers[..i];
      } else {
        assert m'.answers[..i] == m.answers;
      }
    }
  }

  /** In every interleaving of the reader and the client, at every moment: what was received is what
      was delivered, is queued, was dropped, or is in the reader's hand; delivery is first in, first
      out; and an error comes after everything else and stays. */
  lemma {:induction false} ConservationUnderConcurrency(trace: seq<Machine>, actions: seq<Action>, i: nat)
    requires IsRun(trace, actions) && i <= |actions|
    ensures Conserved(trace[i]) && ErrorIsFinal(trace[i])
    ensures Delivered(trace[i].answers) <= Decodable(trace[i].received)
  {
    if i > 0 {
      ConservationUnderConcurrency(trace, actions, i - 1);
      StepConserves(trace[i - 1], actions[i - 1]);
      StepErrorIsFinal(trace[i - 1], actions[i - 1]);
    }
  }

  // ---- A failure is never lost ----

  /** Once the reader is done, nothing changes the error; before, there is none. */
  lemma StepKeepsTerminal(m: Machine, a: Action)
    requires Enabled(m, a) && (m.reader == Done || a != RecordStatus)
    ensures Apply(m, a).shared.terminal == m.shared.terminal
    ensures m.reader == Done ==> Apply(m, a).reader == Done
  {
  }

  lemma {:induction false} TerminalStays(trace: seq<Machine>, actions: seq<Action>, i: nat, j: nat)
    requires IsRun(trace, actions) && i < j <= |actions| && actions[i] == RecordStatus
    ensures trace[j].reader == Done && trace[j].shared.terminal == trace[i + 1].shared.terminal
  {
    if i + 1 < j {
      TerminalStays(trace, actions, i, j - 1);
      StepKeepsTerminal(trace[j - 1], actions[j - 1]);
    }
  }

  /** In every run, from the moment a call that failed is recorded on, the failure is there, as its status says. */
  lemma FailureIsNeverLost(trace: seq<Machine>, actions: seq<Action>, i: nat, j: nat)
    requires IsRun(trace, actions) && i < j <= |actions|
    requires actions[i] == RecordStatus && trace[i].reader.status.code != StatusOk
    ensures trace[j].shared.terminal.Some? && FailedWith(trace[i].reader.status, trace[j].shared.terminal.value)
  {
    ConservationUnderConcurrency(trace, actions, i);
    FinishedRemembers(trace[i].shared, trace[i].reader.status);
    TerminalStays(trace, actions, i, j);
  }

  /** Every poll after that which finds nothing queued reports it. */
  lemma DrainedPollReports(trace: seq<Machine>, actions: seq<Action>, i: nat, j: nat)
    requires IsRun(trace, actions) && i < j < |actions|
    requires actions[i] == RecordStatus && trace[i].reader.status.code != StatusOk
    requires actions[j] == TryNext && trace[j].shared.events == []
    ensures |trace[j + 1].answers| == |trace[j].answers| + 1
    ensures var answer := trace[j + 1].answers[|trace[j].answers|];
      answer.Err? && FailedWith(trace[i].reader.status, answer.error)
  {
    FailureIsNeverLost(trace, actions, i, j);
  }

  ghost predicate NoError(m: Machine) {
    m.shared.terminal.None? && forall k :: 0 <= k < |m.answers| ==> m.answers[k].Ok?
  }

  /** No poll errs before a failure is recorded, nor ever if the call ended well. */
  lemma {:induction false} NoFailureNoError(trace: seq<Machine>, actions: seq<Action>, j: nat)
    requires IsRun(trace, actions) && j <= |actions|
    requires forall i :: 0 <= i < j && actions[i] == RecordStatus ==> trace[i].reader.status.code == StatusOk
    ensures NoError(trace[j])
  {
    if j > 0 {
      NoFailureNoError(trace, actions, j - 1);
      if actions[j - 1] == RecordStatus { FinishedRemembers(trace[j - 1].shared, trace[j - 1].reader.status); }
    }
  }

  function Poll(s: Shared, times: nat): (Shared, seq<Result<Option<Event>>>) {
    if times == 0 then (s, [])
    else
      var (before, answers) := Poll(s, times - 1);
      (Polled(before).0, answers + [Polled(before).1])
  }

  /** Once the reader has recorded a failure, the queue is handed out in order and then the failure
      is reported, by every poll after as many as there were events left. */
  lemma {:induction false} FailureIsReported(s: Shared, times: nat)
    requires s.terminal.Some?
    ensures |Poll(s, times).1| == times
    ensures forall k :: 0 <= k < times ==>
      Poll(s, times).1[k] == if k < |s.events| then Ok(Some(s.events[k])) else Err(s.terminal.value)
    ensures Poll(s, times).0 == s.(events := if times <= |s.events| then s.events[times..] else [])
  {
    if times > 0 {
      FailureIsReported(s, times - 1);
    }
  }
}
