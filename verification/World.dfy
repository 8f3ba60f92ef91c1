/** Everything the client cannot control: the transport, the daemon process, the socket file and the
    clock. Each operation answers arbitrarily; the log remembers what was done, in order. */
module World {
  import opened Wrappers
  import opened Events
  import G = GrpcStream

  datatype Filter = Filter(kinds: seq<nat>, categories: seq<nat>)

  /** An open stream: what its two threads share, everything decoded from it, everything handed out. */
  datatype Stream = Stream(
    id: nat,
    filter: Filter,
    shared: G.Shared,
    decoded: seq<Event>,
    delivered: seq<Event>,
    ended: bool)

  ghost predicate StreamSound(s: Stream) {
    s.decoded == s.delivered + s.shared.events && (s.shared.terminal.Some? ==> s.ended)
  }

  function Opened(id: nat, filter: Filter): Stream {
    Stream(id, filter, G.EMPTY, [], [], false)
  }

  /** The reader thread received some messages and, perhaps, the end of the call. */
  function ReaderRan(s: Stream, wires: seq<G.Wire>, end: Option<G.Status>): Stream {
    if s.ended then s
    else
      var received := s.(shared := G.ReceivedAll(s.shared, wires), decoded := s.decoded + G.Decodable(wires));
      if end.None? then received
      else received.(shared := G.Finished(received.shared, end.value), ended := true)
  }

  lemma {:induction false} ReceivedEvents(shared: G.Shared, wires: seq<G.Wire>)
    ensures var after := G.ReceivedAll(shared, wires);
      after.events == shared.events + G.Decodable(wires) && after.terminal == shared.terminal
  {
    if wires != [] {
      ReceivedEvents(shared, wires[..|wires| - 1]);
    }
  }

  lemma ReaderRanSound(s: Stream, wires: seq<G.Wire>, end: Option<G.Status>)
    requires StreamSound(s)
    ensures StreamSound(ReaderRan(s, wires, end))
  {
    ReceivedEvents(s.shared, wires);
    assert s.delivered + (s.shared.events + G.Decodable(wires)) == s.delivered + s.shared.events + G.Decodable(wires);
  }

  /** A call that ended badly is remembered, as its status says; one that has not ended, or ended well, adds no error. */
  lemma ReaderRanRemembers(s: Stream, wires: seq<G.Wire>, end: Option<G.Status>)
    requires !s.ended
    ensures var after := ReaderRan(s, wires, end);
      && after.decoded == s.decoded + G.Decodable(wires) && (after.ended <==> end.Some?)
      && (if end.Some? then G.Remembers(s.shared.terminal, end.value, after.shared.terminal)
          else after.shared.terminal == s.shared.terminal)
  {
    ReceivedEvents(s.shared, wires);
    if end.Some? { G.FinishedRemembers(G.ReceivedAll(s.shared, wires), end.value); }
  }

  /** The client polled the stream. */
  function AfterPoll(s: Stream): (Stream, Result<Option<Event>>) {
    var (shared, answer) := G.Polled(s.shared);
    (s.(shared := shared,
        delivered := s.delivered + if answer.Ok? && answer.value.Some? then [answer.value.value] else []),
     answer)
  }

  /** A stream that has reported its end and has nothing left. */
  ghost predicate Exhausted(s: Stream) {
    s.ended && s.shared.terminal.Some? && s.shared.events == []
  }

  /** The same stream, later: it only ever grows, and not at all once it has ended. */
  ghost predicate Continues(before: Stream, after: Stream) {
    && after.id == before.id && after.filter == before.filter
    && before.decoded <= after.decoded && before.delivered <= after.delivered
    && (before.ended ==> after.ended && after.decoded == before.decoded && after.shared.terminal == before.shared.terminal)
  }

  /** What the stream answered last: the event it handed out, its error once it is drained, or nothing while it
      has neither. */
  ghost predicate Says(s: Stream, answer: Result<Option<Event>>) {
    match answer
    case Ok(Some(event)) => s.delivered != [] && s.delivered[|s.delivered| - 1] == event
    case Ok(None) => s.delivered == s.decoded && s.shared.events == [] && s.shared.terminal.None?
    case Err(error) => s.delivered == s.decoded && Exhausted(s) && s.shared.terminal == Some(error)
  }

  datatype Call =
    | LivenessAsked(pid: nat, alive: bool)
    | Terminated(pid: nat)
    | SocketRemoved
    | RemovalFailed
    | SocketInspected(exists_: bool)
    | InspectionFailed
    | Spawned(pid: nat)
    | SpawnFailed(error: Error)
    | Probed(failure: Option<Error>)
    | Slept(ms: nat)
    | SubscribeAsked(filter: Filter, answer: Result<Option<nat>>)
    | RequestSent(reply: Result<nat>)

  /** The error of an answer, if it is one. */
  function Failure<T>(r: Result<T>): Option<Error> {
    if r.Ok? then None else Some(r.error)
  }

  function IdOf(stream: Option<Stream>): Option<nat> {
    if stream.Some? then Some(stream.value.id) else None
  }

  /** What a transport answered: the stream it gave, if it gave one. */
  function Given(r: Result<Option<Stream>>): Result<Option<nat>> {
    if r.Ok? then Ok(IdOf(r.value)) else Err(r.error)
  }

  class Environment {
    var clock: nat              // nanoseconds
    var exited: set<nat>        // daemons known to have exited
    var nextPid: nat
    var nextStream: nat
    var log: seq<Call>
    var requests: nat

    constructor ()
      ensures log == [] && nextStream == requests == 0
    {
      clock, exited, nextPid, nextStream, log, requests := 0, {}, 0, 0, [], 0;
    }

    method TimePasses()
      modifies this`clock
      ensures old(clock) <= clock
    {
      var took: int := *;
      if 0 < took {
        clock := clock + took;
      }
    }

    /** A health probe; it takes some time. */
    method ListEventTypes() returns (r: Result<()>)
      modifies this`log, this`clock
      ensures log == old(log) + [Probed(Failure(r))] && old(clock) < clock
    {
      TimePasses();
      r := *;
      clock, log := clock + 1, log + [Probed(Failure(r))];
    }

    method Request() returns (r: Result<nat>)
      modifies this`log, this`clock, this`requests
      ensures log == old(log) + [RequestSent(r)] && requests == old(requests) + 1
    {
      TimePasses();
      r := *;
      log, requests := log + [RequestSent(r)], requests + 1;
    }

    /** A transport that succeeds may still hand out no stream at all. */
    method Subscribe(filter: Filter) returns (r: Result<Option<Stream>>)
      modifies this`log, this`clock, this`nextStream
      ensures log == old(log) + [SubscribeAsked(filter, Given(r))]
      ensures old(nextStream) <= nextStream
      ensures r.Ok? && r.value.Some? ==> r.value.value == Opened(old(nextStream), filter) && old(nextStream) < nextStream
    {
      TimePasses();
      var error: Error, kind: int := *, *;
      r := if kind == 0 then Err(error) else if kind == 1 then Ok(None) else Ok(Some(Opened(nextStream, filter)));
      log, nextStream := log + [SubscribeAsked(filter, Given(r))], nextStream + 1;
    }

    method ReaderRuns(s: Stream) returns (s': Stream, ghost status: Option<G.Status>)
      requires StreamSound(s)
      ensures StreamSound(s') && Continues(s, s') && s'.delivered == s.delivered && (s.ended ==> s' == s)
      ensures !s.ended ==> (s'.ended <==> status.Some?)
      ensures !s.ended ==>
        if status.Some? then G.Remembers(s.shared.terminal, status.value, s'.shared.terminal) else s'.shared.terminal.None?
    {
      var wires: seq<G.Wire>, end: Option<G.Status> := *, *;
      ReaderRanSound(s, wires, end);
      if !s.ended { ReaderRanRemembers(s, wires, end); }
      status := end;
      s' := ReaderRan(s, wires, end);
    }

    method Alive(pid: nat) returns (alive: bool)
      modifies this`log, this`exited
      ensures log == old(log) + [LivenessAsked(pid, alive)]
      ensures exited == if alive then old(exited) else old(exited) + {pid}
      ensures alive ==> pid !in old(exited)
    {
      alive := *;
      if pid in exited {
        alive := false;
      }
      log := log + [LivenessAsked(pid, alive)];
      if !alive {
        exited := exited + {pid};
      }
    }

    /** SIGTERM, a grace period, SIGKILL; the client ignores the answer. */
    method Terminate(pid: nat)
      modifies this`log, this`clock
      ensures log == old(log) + [Terminated(pid)]
    {
      TimePasses();
      log := log + [Terminated(pid)];
    }

    method RemoveSocket() returns (ok: bool)
      modifies this`log
      ensures log == old(log) + [if ok then SocketRemoved else RemovalFailed]
    {
      ok := *;
      log := log + [if ok then SocketRemoved else RemovalFailed];
    }

    method SocketExists() returns (r: Option<bool>)
      modifies this`log
      ensures log == old(log) + [if r.Some? then SocketInspected(r.value) else InspectionFailed]
    {
      r := *;
      log := log + [if r.Some? then SocketInspected(r.value) else InspectionFailed];
    }

    method Spawn() returns (r: Result<nat>)
      modifies this`log, this`nextPid, this`exited
      ensures log == old(log) + [if r.Ok? then Spawned(r.value) else SpawnFailed(r.error)]
      ensures r.Ok? ==> r.value !in exited
    {
      var error: Error, ok: bool := *, *;
      r := if ok then Ok(nextPid) else Err(error);
      exited := exited - {nextPid};
      log, nextPid := log + [if ok then Spawned(nextPid) else SpawnFailed(error)], nextPid + 1;
    }

    /** Waits on the process: the whole time, or until it exits. */
    method Sleep(pid: nat, ms: nat)
      modifies this`log, this`clock, this`exited
      ensures log == old(log) + [Slept(ms)] && old(clock) <= clock && old(exited) <= exited
      ensures pid in exited || old(clock) + ms * 1_000_000 <= clock
    {
      var early: bool := *;
      log := log + [Slept(ms)];
      TimePasses();
      if early {
        exited := exited + {pid};
      } else {
        clock := clock + ms * 1_000_000;
      }
    }
  }
}
