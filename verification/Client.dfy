/** The client side of the daemon: it spawns and restarts the daemon, retries a request once after a
    restart, and replays its subscriptions on fresh streams. */
module Client {
  import opened Wrappers
  import opened Events
  import opened World
  import G = GrpcStream
  import R = Readiness

  // ---- Where the socket is ----

  const UNIX_PREFIX := "unix:"
  const UNIX_TRIPLE_SLASH := "unix://"

  function SocketPathFromEndpoint(endpoint: string): string {
    if UNIX_TRIPLE_SLASH <= endpoint then endpoint[|UNIX_TRIPLE_SLASH|..]
    else if UNIX_PREFIX <= endpoint then endpoint[|UNIX_PREFIX|..]
    else ""
  }

  function EndpointOf(socketPath: string): string {
    UNIX_PREFIX + socketPath
  }

  /** The endpoint derived from a socket path leads back to it, unless the path starts with two
      slashes, which the longer prefix swallows. */
  lemma EndpointRoundTrip(socketPath: string)
    ensures SocketPathFromEndpoint(EndpointOf(socketPath)) == socketPath <==> !("//" <= socketPath)
  {
    var endpoint := EndpointOf(socketPath);
    assert endpoint[5..] == socketPath;
    if "//" <= socketPath {
      assert endpoint[..7] == UNIX_TRIPLE_SLASH;
      assert |SocketPathFromEndpoint(endpoint)| == |socketPath| - 2;
    }
  }

  datatype DaemonOptions = DaemonOptions(
    endpoint: string,
    socketPath: string,
    executable: string,
    initialBackoff: int,
    maximumBackoff: int,
    startupTimeout: int)

  /** Fills in the endpoint from the socket path or the socket path from the endpoint. */
  function Configured(o: DaemonOptions): DaemonOptions {
    var o1 := if o.endpoint == "" && o.socketPath != "" then o.(endpoint := EndpointOf(o.socketPath)) else o;
    if o1.socketPath == "" then o1.(socketPath := SocketPathFromEndpoint(o1.endpoint)) else o1
  }

  predicate Usable(o: DaemonOptions) {
    o.endpoint != "" && o.socketPath != "" && o.executable != ""
  }

  /** What is given stays. A missing endpoint is the socket path behind the scheme, a missing socket path is what
      follows the scheme, with or without two slashes, and with no scheme there is none. */
  lemma ConfiguredFillsIn(o: DaemonOptions)
    ensures var c := Configured(o);
      && c == o.(endpoint := c.endpoint, socketPath := c.socketPath)
      && c.endpoint == (if o.endpoint == "" && o.socketPath != "" then "unix:" + o.socketPath else o.endpoint)
      && (o.socketPath != "" ==> c.socketPath == o.socketPath)
      && (o.socketPath == "" && "unix://" <= o.endpoint ==> o.endpoint == "unix://" + c.socketPath)
      && (o.socketPath == "" && "unix:" <= o.endpoint && !("unix://" <= o.endpoint) ==> o.endpoint == "unix:" + c.socketPath)
      && (o.socketPath == "" && !("unix:" <= o.endpoint) ==> c.socketPath == "")
  {
    if "unix://" <= o.endpoint { assert o.endpoint[..5] == "unix:"; }
  }

  /** Which configurations can be used: those with an executable and either a socket path or an endpoint whose
      scheme is followed by something, two slashes not counted. */
  lemma UsableExactly(o: DaemonOptions)
    ensures Usable(Configured(o)) <==>
      && o.executable != ""
      && (o.socketPath != ""
          || ("unix:" <= o.endpoint && 5 < |o.endpoint| && o.endpoint != "unix://"))
  {
    ConfiguredFillsIn(o);
    if "unix://" <= o.endpoint { assert o.endpoint[..5] == "unix:"; }
  }

  /** There is a transport, and a configuration with an endpoint, a socket path and an executable. */
  predicate Configurable(hasTransport: bool, options: Option<DaemonOptions>) {
    hasTransport && options.Some? && Usable(Configured(options.value))
  }

  const INVALID_ARGUMENT := Error(InvalidArgument, Fatal)
  const PROVIDER_FAILED := Error(ProviderFailed, Fatal)
  const SUBSCRIPTION_GONE := Error(SubscriptionGone, Fatal)
  const CONNECTION_FAILURE := Error(EnvironmentChanged, RetrySame)

  // ---- One registration, shared by the client and the handle ----

  /** A stream this registration no longer uses: what it was opened with, what was decoded from it and
      handed out, and whether this handle's own connection error retired it. */
  datatype Epoch = Epoch(id: nat, filter: Filter, decoded: seq<Event>, delivered: seq<Event>, own: bool)

  function HandedOut(past: seq<Epoch>): seq<Event> {
    if past == [] then [] else HandedOut(past[..|past| - 1]) + past[|past| - 1].delivered
  }

  function HandedOutBy(stream: Option<Stream>): seq<Event> {
    if stream.Some? then stream.value.delivered else []
  }

  ghost predicate EpochSound(e: Epoch, filter: Filter) {
    e.filter == filter && e.delivered <= e.decoded && (e.own ==> e.delivered == e.decoded)
  }

  /** Retired streams, oldest first: sound, opened with this filter, with ids growing up to `bound`. */
  ghost predicate PastSound(filter: Filter, past: seq<Epoch>, bound: nat) {
    past == [] ||
      var last := past[|past| - 1];
      EpochSound(last, filter) && last.id < bound && PastSound(filter, past[..|past| - 1], last.id)
  }

  /** The handle's events are those of its retired streams, in the order they were used, and then
      those of its current one; stream ids below `next` were given out before, so no stream is ever
      used again. */
  ghost predicate Chain(filter: Filter, past: seq<Epoch>, stream: Option<Stream>, delivered: seq<Event>, next: nat) {
    && delivered == HandedOut(past) + HandedOutBy(stream)
    && PastSound(filter, past, if stream.Some? then stream.value.id else next)
    && (stream.Some? ==> StreamSound(stream.value) && stream.value.filter == filter && stream.value.id < next)
  }

  class Registration {
    ghost const id: nat
    const filter: Filter
    var stream: Option<Stream>
    ghost var past: seq<Epoch>
    ghost var delivered: seq<Event>  // everything its streams handed out
    ghost var told: seq<Result<Option<Event>>>  // everything its handle answered

    ghost predicate Valid(next: nat)
      reads this
    {
      Chain(filter, past, stream, delivered, next)
    }

    constructor (ghost id: nat, filter: Filter, stream: Option<Stream>, ghost next: nat)
      requires stream.Some? ==> exists n :: 0 <= n < next && stream.value == Opened(n, filter)
      ensures Valid(next) && this.id == id && this.filter == filter && this.stream == stream
      ensures past == [] && delivered == [] && told == []
    {
      this.id, this.filter, this.stream := id, filter, stream;
      past, delivered, told := [], [], [];
    }

    /** The stream's own try_next, after its reader thread did whatever it did. */
    method Poll(env: Environment, ghost next: nat) returns (r: Result<Option<Event>>)
      requires Valid(next) && stream.Some?
      modifies this`stream, this`delivered
      ensures Valid(next) && stream.Some? && stream.value.filter == filter && Continues(old(stream.value), stream.value) && Says(stream.value, r)
      ensures delivered == old(delivered) + if r.Ok? && r.value.Some? then [r.value.value] else []
    {
      ghost var status: Option<G.Status>;
      var ran;
      ran, status := env.ReaderRuns(stream.value);
      var (after, answer) := AfterPoll(ran);
      stream, r := Some(after), answer;
      delivered := delivered + if r.Ok? && r.value.Some? then [r.value.value] else [];
    }

    /** The replay moved this registration to a new stream. */
    method Replace(fresh_: Option<Stream>, ghost own: bool, ghost before: nat, ghost next: nat)
      requires Valid(before) && before <= next && (own ==> stream.Some? && Exhausted(stream.value))
      requires fresh_.Some? ==> before < next && fresh_.value == Opened(before, filter)
      modifies this`stream, this`past
      ensures Valid(next) && stream == fresh_
      ensures past == old(past) + Retired(old(stream), own)
    {
      ChainReplace(filter, past, stream, delivered, fresh_, own, before, next);
      past := past + Retired(stream, own);
      stream := fresh_;
    }
  }

  function Retired(stream: Option<Stream>, own: bool): seq<Epoch> {
    if stream.None? then []
    else [Epoch(stream.value.id, stream.value.filter, stream.value.decoded, stream.value.delivered, own)]
  }

  lemma PastPush(past: seq<Epoch>, stream: Option<Stream>, own: bool)
    ensures HandedOut(past + Retired(stream, own)) == HandedOut(past) + HandedOutBy(stream)
  {
    if stream.None? {
      assert past + [] == past;
    } else {
      assert (past + Retired(stream, own))[..|past|] == past;
    }
  }

  lemma ChainBelow(filter: Filter, past: seq<Epoch>, stream: Option<Stream>, delivered: seq<Event>, next: nat)
    requires Chain(filter, past, stream, delivered, next)
    ensures IdBelow(stream, next)
  {
  }

  lemma ChainLater(filter: Filter, past: seq<Epoch>, stream: Option<Stream>, delivered: seq<Event>, next: nat, later: nat)
    requires Chain(filter, past, stream, delivered, next) && next <= later
    ensures Chain(filter, past, stream, delivered, later)
  {
  }

  lemma PastRetires(filter: Filter, past: seq<Epoch>, stream: Stream, own: bool, bound: nat)
    requires PastSound(filter, past, stream.id) && StreamSound(stream) && stream.filter == filter && stream.id < bound
    requires own ==> Exhausted(stream)
    ensures PastSound(filter, past + Retired(Some(stream), own), bound)
  {
    assert (past + Retired(Some(stream), own))[..|past|] == past;
  }

  lemma PastLater(filter: Filter, past: seq<Epoch>, bound: nat, later: nat)
    requires PastSound(filter, past, bound) && bound <= later
    ensures PastSound(filter, past, later)
  {
  }

  lemma ChainReplace(filter: Filter, past: seq<Epoch>, stream: Option<Stream>, delivered: seq<Event>,
                     replacement: Option<Stream>, own: bool, before: nat, next: nat)
    requires Chain(filter, past, stream, delivered, before) && before <= next
    requires own ==> stream.Some? && Exhausted(stream.value)
    requires replacement.Some? ==> before < next && replacement.value == Opened(before, filter)
    ensures Chain(filter, past + Retired(stream, own), replacement, delivered, next)
  {
    PastPush(past, stream, own);
    assert delivered + [] == delivered;
    var bound := if replacement.Some? then before else next;
    if stream.Some? {
      PastRetires(filter, past, stream.value, own, bound);
    } else {
      PastLater(filter, past, before, bound);
      assert past + [] == past;
    }
    hide HandedOut, PastSound, Retired;
  }

  /** Read off: earlier streams have smaller ids, and the stream in use the largest. */
  lemma {:induction false} StreamsAreNeverReused(filter: Filter, past: seq<Epoch>, bound: nat)
    requires PastSound(filter, past, bound)
    ensures forall k :: 0 <= k < |past| ==> EpochSound(past[k], filter) && past[k].id < bound
    ensures forall j, k :: 0 <= j < k < |past| ==> past[j].id < past[k].id
  {
    if past != [] {
      StreamsAreNeverReused(filter, past[..|past| - 1], past[|past| - 1].id);
    }
  }

  function Decoded(past: seq<Epoch>): seq<Event> {
    if past == [] then [] else Decoded(past[..|past| - 1]) + past[|past| - 1].decoded
  }

  /** A handle whose streams were only ever retired by its own connection errors lost nothing that was
      decoded for it. */
  lemma {:induction false} OwnFailuresLoseNothing(past: seq<Epoch>, filter: Filter)
    requires forall k :: 0 <= k < |past| ==> EpochSound(past[k], filter) && past[k].own
    ensures HandedOut(past) == Decoded(past)
  {
    if past != [] {
      OwnFailuresLoseNothing(past[..|past| - 1], filter);
    }
  }

  // ---- Starting and restarting the daemon ----

  /** What stopping the held daemon does: nothing if none is held, and no signal if it is gone. */
  function StopCalls(daemon: Option<nat>, alive: bool): seq<Call> {
    if daemon.None? then []
    else [LivenessAsked(daemon.value, alive)] + if alive then [Terminated(daemon.value)] else []
  }

  /** What a start without a socket does before the new daemon exists. */
  function RestartCalls(daemon: Option<nat>, alive: bool): seq<Call> {
    StopCalls(daemon, alive) + [SocketRemoved, SocketInspected(false)]
  }

  /** The last probe could not connect, and the daemon was alive after it. */
  ghost predicate WorthWaiting(calls: seq<Call>) {
    && 2 <= |calls| && calls[|calls| - 1].LivenessAsked? && calls[|calls| - 1].alive
    && calls[|calls| - 2].Probed? && calls[|calls| - 2].failure.Some?
    && G.IsConnectionError(calls[|calls| - 2].failure.value)
  }

  /** Nothing but probes, questions whether the daemon lives, and waits, each wait only where it is worth it. */
  ghost predicate OnlyWaits(calls: seq<Call>) {
    forall k :: 0 <= k < |calls| ==>
      calls[k].Probed? || calls[k].LivenessAsked? || (calls[k].Slept? && WorthWaiting(calls[..k]))
  }

  /** How long each wait among the calls asked for. */
  function Waits(calls: seq<Call>): seq<nat> {
    if calls == [] then []
    else
      var last := calls[|calls| - 1];
      Waits(calls[..|calls| - 1]) + if last.Slept? then [last.ms] else []
  }

  lemma {:induction false} WaitsConcat(a: seq<Call>, b: seq<Call>)
    ensures Waits(a + b) == Waits(a) + Waits(b)
  {
    if b == [] {
      assert a + b == a;
    } else {
      assert (a + b)[..|a + b| - 1] == a + b[..|b| - 1];
      WaitsConcat(a, b[..|b| - 1]);
    }
  }

  lemma {:induction false} NoWaits(calls: seq<Call>)
    requires forall k :: 0 <= k < |calls| ==> !calls[k].Slept?
    ensures Waits(calls) == []
  {
    if calls != [] { NoWaits(calls[..|calls| - 1]); }
  }

  /** The last call explains the error. A daemon that is alive but late is blamed with its last answer. */
  ghost predicate CausedBy(calls: seq<Call>, error: Error) {
    && calls != []
    && match calls[|calls| - 1]
       case Probed(failure) => failure == Some(error)
       case LivenessAsked(_, alive) =>
         if alive then 2 <= |calls| && calls[|calls| - 2] == Probed(Some(error)) else error == CONNECTION_FAILURE
       case SpawnFailed(e) => e == error
       case SubscribeAsked(_, answer) => answer == Err(error)
       case RequestSent(answer) => answer == Err(error)
       case RemovalFailed => error == PROVIDER_FAILED
       case InspectionFailed => error == PROVIDER_FAILED
       case _ => false
  }

  ghost predicate EndsReady(calls: seq<Call>) {
    calls != [] && calls[|calls| - 1] == Probed(None)
  }

  /** The last call decides the answer: a probe that succeeded, or what failed. */
  ghost predicate Decides(calls: seq<Call>, r: Result<()>) {
    if r.Ok? then EndsReady(calls) else CausedBy(calls, r.error)
  }

  lemma DecidedByACall(calls: seq<Call>, r: Result<()>)
    requires Decides(calls, r)
    ensures calls != []
  {
  }

  lemma DecidesLater(before: seq<Call>, calls: seq<Call>, r: Result<()>)
    requires Decides(calls, r)
    ensures Decides(before + calls, r)
  {
  }

  lemma CausedLater(before: seq<Call>, calls: seq<Call>, error: Error)
    requires CausedBy(calls, error)
    ensures CausedBy(before + calls, error)
  {
  }

  /** Why waiting for a daemon was given up: its own answer, its exit, or the time. */
  ghost predicate GaveUp(calls: seq<Call>, pid: nat, error: Error, timeIsUp: bool) {
    && CausedBy(calls, error)
    && match calls[|calls| - 1]
       case Probed(_) => !G.IsConnectionError(error)
       case LivenessAsked(asked, alive) => asked == pid && G.IsConnectionError(error) && (alive ==> timeIsUp)
       case _ => false
  }

  lemma NothingAsked(schedule: R.Schedule)
    requires schedule.waits == [] && schedule.clock == [0]
    ensures OnlyWaits([]) && Waits([]) == [] && R.Following(schedule, 0, true)
  {
  }

  /** One more probe at the end of the calls. */
  lemma OnlyWaitsAppended(calls: seq<Call>, more: seq<Call>)
    requires OnlyWaits(calls) && OnlyWaits(more)
    ensures OnlyWaits(calls + more) && (WorthWaiting(more) ==> WorthWaiting(calls + more))
  {
    var all := calls + more;
    forall k | 0 <= k < |all| && all[k].Slept?
      ensures WorthWaiting(all[..k])
    {
      if k < |calls| {
        assert all[..k] == calls[..k];
      } else {
        assert all[..k] == calls + more[..k - |calls|] && WorthWaiting(more[..k - |calls|]);
      }
    }
  }

  lemma Appended(log: seq<Call>, calls: seq<Call>, probing: seq<Call>, pid: nat, error: Error, timeIsUp: bool)
    requires OnlyWaits(calls) && OnlyWaits(probing) && Waits(probing) == []
    ensures log + calls + probing == log + (calls + probing) && OnlyWaits(calls + probing)
    ensures Waits(calls + probing) == Waits(calls)
    ensures EndsReady(probing) ==> EndsReady(calls + probing)
    ensures WorthWaiting(probing) ==> WorthWaiting(calls + probing)
    ensures GaveUp(probing, pid, error, false) || (timeIsUp && GaveUp(probing, pid, error, true)) ==>
      GaveUp(calls + probing, pid, error, timeIsUp)
  {
    OnlyWaitsAppended(calls, probing);
    WaitsConcat(calls, probing);
    hide OnlyWaits;
    assert Waits(calls) + [] == Waits(calls);
  }

  lemma AppendedWait(log: seq<Call>, calls: seq<Call>, wait: nat)
    requires OnlyWaits(calls) && WorthWaiting(calls)
    ensures log + calls + [Slept(wait)] == log + (calls + [Slept(wait)]) && OnlyWaits(calls + [Slept(wait)])
    ensures Waits(calls + [Slept(wait)]) == Waits(calls) + [wait]
  {
    var all := calls + [Slept(wait)];
    assert forall k :: 0 <= k <= |calls| ==> all[..k] == calls[..k];
    assert calls[..|calls|] == calls;
    WaitsConcat(calls, [Slept(wait)]);
    assert [Slept(wait)][..0] == [];
  }

  /** The calls of a restart that may spawn: a daemon is spawned at most once, only after the held one
      was stopped and the socket removed and found gone. */
  ghost predicate SpawnsOnlyAfterStop(calls: seq<Call>, held: Option<nat>) {
    forall k :: 0 <= k < |calls| && calls[k].Spawned? ==>
      exists alive :: |RestartCalls(held, alive)| == k && calls[..k] == RestartCalls(held, alive)
  }

  /** The calls of a successful restart, which ends with a daemon that answers. */
  ghost predicate Restarted(calls: seq<Call>, held: Option<nat>, now: Option<nat>) {
    exists alive :: RestartedWith(calls, held, now, alive)
  }

  ghost predicate RestartedWith(calls: seq<Call>, held: Option<nat>, now: Option<nat>, alive: bool) {
    if now.None? then calls == StopCalls(held, alive) + [SocketRemoved, SocketInspected(true), Probed(None)]
    else
      var begin := RestartCalls(held, alive) + [Spawned(now.value)];
      begin <= calls && OnlyWaits(calls[|begin|..]) && EndsReady(calls[|begin|..])
  }

  /** What looking for the socket and, without one, spawning a daemon does. */
  ghost predicate Launched(calls: seq<Call>, held: Option<nat>, now: Option<nat>, r: Result<()>) {
    || (calls == [InspectionFailed] && now == held && r == Err(PROVIDER_FAILED))
    || (calls == [SocketInspected(true), Probed(Failure(r))] && now == held)
    || (r.Err? && calls == [SocketInspected(false), SpawnFailed(r.error)] && now == held)
    || (now.Some? && [SocketInspected(false), Spawned(now.value)] <= calls
        && OnlyWaits(calls[2..]) && Decides(calls[2..], r))
  }

  /** A launch spawns a daemon right after finding no socket, if at all. */
  lemma SpawnComesSecond(launching: seq<Call>, now: Option<nat>, r: Result<()>)
    requires Launched(launching, None, now, r)
    ensures forall k :: 0 <= k < |launching| && launching[k].Spawned? ==> k == 1 && launching[0] == SocketInspected(false)
  {
    if 2 <= |launching| {
      assert forall k :: 2 <= k < |launching| ==> launching[k] == launching[2..][k - 2];
    }
  }

  lemma LaunchDecides(launching: seq<Call>, held: Option<nat>, now: Option<nat>, r: Result<()>)
    requires Launched(launching, held, now, r)
    ensures Decides(launching, r)
  {
    if now.Some? && [SocketInspected(false), Spawned(now.value)] <= launching && Decides(launching[2..], r) {
      DecidesLater(launching[..2], launching[2..], r);
      assert launching[..2] + launching[2..] == launching;
    }
  }

  /** The calls begin by stopping the held daemon and removing the socket, and go no further if that fails. */
  ghost predicate BeginsWithStop(calls: seq<Call>, held: Option<nat>) {
    exists alive :: calls == StopCalls(held, alive) + [RemovalFailed] || StopCalls(held, alive) + [SocketRemoved] <= calls
  }

  lemma NotCleared(held: Option<nat>, alive: bool)
    ensures var calls := StopCalls(held, alive) + [RemovalFailed];
      BeginsWithStop(calls, held) && Decides(calls, Err(PROVIDER_FAILED)) && SpawnsOnlyAfterStop(calls, held)
  {
    var calls := StopCalls(held, alive) + [RemovalFailed];
    assert forall k :: 0 <= k < |calls| ==> !calls[k].Spawned?;
  }

  lemma BeginsClearing(held: Option<nat>, alive: bool, launching: seq<Call>)
    ensures BeginsWithStop(StopCalls(held, alive) + [SocketRemoved] + launching, held)
  {
    hide StopCalls;
    var calls := StopCalls(held, alive) + [SocketRemoved] + launching;
    assert StopCalls(held, alive) + [SocketRemoved] <= calls;
  }

  /** A restart that was asked for: without a usable configuration nothing is done; otherwise it stops the held
      daemon first and its last call decides the answer. */
  ghost predicate Attempted(restart: seq<Call>, r: Result<()>, configurable: bool, held: Option<nat>) {
    if configurable then BeginsWithStop(restart, held) && Decides(restart, r)
    else r == Err(INVALID_ARGUMENT) && restart == []
  }

  lemma LaunchSpawnsAfterStop(held: Option<nat>, alive: bool, launching: seq<Call>, now: Option<nat>, r: Result<()>)
    requires Launched(launching, None, now, r)
    ensures SpawnsOnlyAfterStop(StopCalls(held, alive) + [SocketRemoved] + launching, held)
  {
    var before := StopCalls(held, alive) + [SocketRemoved];
    var calls := before + launching;
    SpawnComesSecond(launching, now, r);
    hide Launched;
    assert forall k :: 0 <= k < |before| ==> calls[k] == before[k] && !before[k].Spawned?;
    forall k | 0 <= k < |calls| && calls[k].Spawned?
      ensures |RestartCalls(held, alive)| == k && calls[..k] == RestartCalls(held, alive)
    {
      assert calls[k] == launching[k - |before|];
      assert calls[..k] == before + launching[..1] == before + [SocketInspected(false)] == RestartCalls(held, alive);
    }
  }

  lemma LaunchRestarts(held: Option<nat>, alive: bool, launching: seq<Call>, now: Option<nat>, r: Result<()>)
    requires Launched(launching, None, now, r) && r.Ok?
    ensures Restarted(StopCalls(held, alive) + [SocketRemoved] + launching, held, now)
  {
    var before := StopCalls(held, alive) + [SocketRemoved];
    var calls := before + launching;
    if now.Some? {
      assert calls[|before| + 2..] == launching[2..];
      assert RestartCalls(held, alive) + [Spawned(now.value)] == before + launching[..2] <= calls;
    }
    assert RestartedWith(calls, held, now, alive);
  }

  class State {
    const env: Environment
    const hasTransport: bool
    var options: Option<DaemonOptions>
    var daemon: Option<nat>
    var registrations: seq<Registration>  // weak references, in creation order
    var live: set<Registration>           // the registrations whose handle still exists
    var closed: bool
    ghost var nextId: nat
    ghost var recoveries: nat  // how often a connection was recovered, or tried to be

    ghost predicate Valid()
      reads this, env, registrations
    {
      && AllValid(registrations, env.nextStream)
      && (forall k :: 0 <= k < |registrations| ==> registrations[k].id < nextId)
      && CreationOrder(registrations) && StreamsApart(registrations)
      && (forall r :: r in live ==> r in registrations)
    }

    constructor (env: Environment, hasTransport: bool, options: Option<DaemonOptions>)
      ensures Valid() && registrations == [] && live == {} && daemon == None && !closed
      ensures this.env == env && this.hasTransport == hasTransport && this.options == options
    {
      this.env, this.hasTransport, this.options := env, hasTransport, options;
      daemon, registrations, live, closed, nextId, recoveries := None, [], {}, false, 0, 0;
    }

    method TerminateDaemon() returns (ghost alive: bool)
      modifies this`daemon, env`log, env`clock, env`exited
      ensures daemon == None
      ensures env.log == old(env.log) + StopCalls(old(daemon), alive)
      ensures old(daemon).None? ==> env.log == old(env.log)
      ensures old(daemon).Some? ==>
        env.log == old(env.log) + if alive then [LivenessAsked(old(daemon).value, true), Terminated(old(daemon).value)]
                                  else [LivenessAsked(old(daemon).value, false)]
    {
      alive := false;
      if daemon.None? {
        return;
      }
      var stillAlive := env.Alive(daemon.value);
      alive := stillAlive;
      if stillAlive {
        env.Terminate(daemon.value);
      }
      daemon := None;
    }

    /** One probe: an answer for the caller, or nothing if it is worth waiting. */
    method ProbeOnce(pid: nat) returns (r: Option<Result<()>>, failure: Error, ghost calls: seq<Call>)
      modifies env`log, env`clock, env`exited
      ensures env.log == old(env.log) + calls && OnlyWaits(calls)
      ensures old(env.clock) <= env.clock && (pid !in env.exited ==> pid !in old(env.exited))
      ensures r.Some? && r.value.Ok? ==> EndsReady(calls)
      ensures r.None? ==> G.IsConnectionError(failure) && old(env.clock) < env.clock && pid !in env.exited
      ensures Waits(calls) == []
      ensures r.Some? && r.value.Err? ==> GaveUp(calls, pid, r.value.error, false)
      ensures r.None? ==> GaveUp(calls, pid, failure, true) && WorthWaiting(calls)
    {
      var health := env.ListEventTypes();
      failure := CONNECTION_FAILURE;
      calls := [Probed(Failure(health))];
      NoWaits(calls);
      if health.Ok? {
        return Some(Ok(())), failure, calls;
      }
      failure := health.error;
      if !G.IsConnectionError(failure) {
        return Some(Err(failure)), failure, calls;
      }
      var alive := env.Alive(pid);
      r := if alive then None else Some(Err(CONNECTION_FAILURE));
      calls := [Probed(Some(health.error)), LivenessAsked(pid, alive)];
      NoWaits(calls);
    }

    /** Probes until the daemon answers, fails for another reason, exits, or the timeout is over. Every wait is
        asked for as the backoff schedule says and takes as long as asked; only the daemon's exit can cut the last
        one short. */
    method AwaitReady(pid: nat, o: DaemonOptions) returns (r: Result<()>, ghost schedule: R.Schedule, ghost calls: seq<Call>)
      modifies env`log, env`clock, env`exited
      ensures env.log == old(env.log) + calls && OnlyWaits(calls)
      ensures r.Ok? ==> EndsReady(calls)
      ensures R.LegalUntilLast(schedule) && (pid !in env.exited ==> R.Legal(schedule))
      ensures schedule.waits == Waits(calls)
      ensures r.Err? ==> GaveUp(calls, pid, r.error, old(env.clock) + schedule.timeout <= env.clock)
      ensures schedule.timeout == R.Max(o.startupTimeout, 0) * R.NS_PER_MS
      ensures schedule.initial == o.initialBackoff && schedule.maximum == o.maximumBackoff
    {
      hide OnlyWaits, WorthWaiting, Waits, EndsReady, GaveUp, R.Legal, R.LegalUntilLast, R.Turn;
      var timeout: nat := R.Max(o.startupTimeout, 0) * R.NS_PER_MS;
      var start := env.clock;
      var deadline := start + timeout;
      var backoff := R.FirstBackoff(o.initialBackoff);
      var maximumBackoff := R.MaximumBackoff(o.initialBackoff, o.maximumBackoff);
      schedule := R.Schedule(timeout, o.initialBackoff, o.maximumBackoff, [0], []);
      calls := [];
      NothingAsked(schedule);
      while true
        invariant start <= env.clock
        invariant env.log == old(env.log) + calls && OnlyWaits(calls)
        invariant (schedule.timeout, schedule.initial, schedule.maximum) == (timeout, o.initialBackoff, o.maximumBackoff)
        invariant R.Following(schedule, env.clock - start, pid !in env.exited)
        invariant backoff == R.Backoff(o.initialBackoff, o.maximumBackoff, |schedule.waits|)
        invariant schedule.waits == Waits(calls)
        decreases deadline - env.clock
      {
        ghost var probing: seq<Call>;
        var answer, failure;
        answer, failure, probing := ProbeOnce(pid);
        Appended(old(env.log), calls, probing, pid, if answer.Some? && answer.value.Err? then answer.value.error else failure,
                 old(env.clock) + schedule.timeout <= env.clock);
        calls := calls + probing;
        if answer.Some? {
          return answer.value, schedule, calls;
        }
        var now := env.clock;
        if deadline <= now {
          return Err(failure), schedule, calls;
        }
        var wait := R.Wait(backoff, deadline - now);
        env.Sleep(pid, wait);
        AppendedWait(old(env.log), calls, wait);
        calls := calls + [Slept(wait)];
        R.TurnFollows(schedule, now - start, env.clock - start, pid !in env.exited);
        schedule := R.Turn(schedule, now - start, env.clock - start);
        backoff := R.Min(maximumBackoff, backoff * 2);
      }
    }

    /** Uses the socket that is there, or spawns a daemon and waits for it. */
    method Launch(o: DaemonOptions) returns (r: Result<()>, ghost calls: seq<Call>)
      modifies this`daemon, env`log, env`clock, env`exited, env`nextPid
      ensures env.log == old(env.log) + calls
      ensures Launched(calls, old(daemon), daemon, r)
    {
      hide OnlyWaits, Waits;
      var socketExists := env.SocketExists();
      if socketExists.None? {
        return Err(PROVIDER_FAILED), [InspectionFailed];
      }
      if socketExists.value {
        r := env.ListEventTypes();
        calls := [SocketInspected(true), Probed(Failure(r))];
        return;
      }
      var spawned := env.Spawn();
      if spawned.Err? {
        return Err(spawned.error), [SocketInspected(false), SpawnFailed(spawned.error)];
      }
      daemon := Some(spawned.value);
      ghost var schedule: R.Schedule, waiting: seq<Call>;
      r, schedule, waiting := AwaitReady(spawned.value, o);
      calls := [SocketInspected(false), Spawned(spawned.value)] + waiting;
      assert calls[2..] == waiting;
    }

    /** The beginning of a restart: the held daemon is stopped, whatever that says, and its socket removed. */
    method StopAndClear() returns (ok: bool, ghost alive: bool, ghost calls: seq<Call>)
      modifies this`daemon, env`log, env`clock, env`exited
      ensures env.log == old(env.log) + calls && daemon == None
      ensures calls == StopCalls(old(daemon), alive) + [if ok then SocketRemoved else RemovalFailed]
    {
      alive := TerminateDaemon();
      ok := env.RemoveSocket();
      calls := StopCalls(old(daemon), alive) + [if ok then SocketRemoved else RemovalFailed];
    }

    method Restart(o: DaemonOptions) returns (r: Result<()>, ghost calls: seq<Call>)
      modifies this`daemon, env`log, env`clock, env`exited, env`nextPid
      ensures env.log == old(env.log) + calls && BeginsWithStop(calls, old(daemon)) && Decides(calls, r)
      ensures SpawnsOnlyAfterStop(calls, old(daemon))
      ensures r.Ok? ==> Restarted(calls, old(daemon), daemon)
    {
      hide SpawnsOnlyAfterStop, Restarted, Launched, StopCalls, Decides, BeginsWithStop;
      ghost var alive: bool, launching: seq<Call>;
      var cleared;
      cleared, alive, calls := StopAndClear();
      if !cleared {
        NotCleared(old(daemon), alive);
        return Err(PROVIDER_FAILED), calls;
      }
      r, launching := Launch(o);
      LaunchSpawnsAfterStop(old(daemon), alive, launching, daemon, r);
      LaunchDecides(launching, None, daemon, r);
      DecidesLater(calls, launching, r);
      BeginsClearing(old(daemon), alive, launching);
      if r.Ok? { LaunchRestarts(old(daemon), alive, launching, daemon, r); }
      calls := calls + launching;
    }

    /** An unusable configuration touches nothing; with a usable one the last call decides the answer. */
    method EnsureDaemonImpl(restarting: bool) returns (r: Result<()>, ghost calls: seq<Call>)
      modifies this`options, this`daemon, env`log, env`clock, env`exited, env`nextPid
      ensures env.log == old(env.log) + calls
      ensures old(Configurable(hasTransport, options)) ==> options == Some(Configured(old(options).value)) && Decides(calls, r)
      ensures !old(Configurable(hasTransport, options)) ==> r == Err(INVALID_ARGUMENT) && calls == [] && daemon == old(daemon)
      ensures restarting ==> SpawnsOnlyAfterStop(calls, old(daemon))
      ensures restarting && old(Configurable(hasTransport, options)) ==> BeginsWithStop(calls, old(daemon))
      ensures restarting && r.Ok? ==> Restarted(calls, old(daemon), daemon)
      ensures !restarting && old(Configurable(hasTransport, options)) ==> Launched(calls, old(daemon), daemon, r)
    {
      hide Restarted, Launched, Decides, BeginsWithStop;
      calls := [];
      if !hasTransport || options.None? {
        return Err(INVALID_ARGUMENT), calls;
      }
      options := Some(Configured(options.value));
      if !Usable(options.value) {
        return Err(INVALID_ARGUMENT), calls;
      }
      if restarting {
        r, calls := Restart(options.value);
      } else {
        r, calls := Launch(options.value);
        LaunchDecides(calls, old(daemon), daemon, r);
      }
    }

    /** The caller may give a new configuration. */
    method EnsureDaemon(given: Option<DaemonOptions>) returns (r: Result<()>, ghost calls: seq<Call>)
      requires Valid()
      modifies this`options, this`daemon, env`log, env`clock, env`exited, env`nextPid
      ensures Valid() && env.log == old(env.log) + calls
      ensures var configured := if given.Some? then given else old(options);
        if Configurable(hasTransport, configured) then calls != [] && Decides(calls, r) && Launched(calls, old(daemon), daemon, r)
        else r == Err(INVALID_ARGUMENT) && calls == [] && daemon == old(daemon)
    {
      hide Decides, Launched, AllValid, StreamsApart, CreationOrder;
      if given.Some? { options := given; }
      ghost var configurable := Configurable(hasTransport, options);
      r, calls := EnsureDaemonImpl(false);
      if configurable { DecidedByACall(calls, r); }
    }

    /** One registration moves to a fresh stream, opened with its own filter; or the transport refuses
        and nothing moves. */
    method ReplayOne(registration: Registration, ghost own: bool) returns (r: Result<()>)
      requires registration.Valid(env.nextStream)
      requires own ==> registration.stream.Some? && Exhausted(registration.stream.value)
      modifies env`log, env`clock, env`nextStream, registration`stream, registration`past
      ensures registration.Valid(env.nextStream)
      ensures old(env.nextStream) <= env.nextStream
      ensures env.log == old(env.log) + [SubscribeAsked(registration.filter, if r.Ok? then Ok(IdOf(registration.stream)) else Err(r.error))]
      ensures r.Ok? ==>
        Moved(registration, old(registration.stream), old(registration.past), old(env.nextStream), own)
      ensures r.Err? ==> unchanged(registration)
    {
      ghost var before := env.nextStream;
      var opened_ := env.Subscribe(registration.filter);
      if opened_.Err? {
        return Err(opened_.error);
      }
      registration.Replace(opened_.value, own, before, env.nextStream);
      return Ok(());
    }

    /** One registration of the list, apart from all the others. */
    method ReplayNext(next: nat, registration: Registration, ghost own: bool) returns (r: Result<()>)
      requires next < |registrations| && registrations[next] == registration && CreationOrder(registrations)
      requires AllValid(registrations, env.nextStream) && StreamsApart(registrations)
      requires own ==> registration.stream.Some? && Exhausted(registration.stream.value)
      modifies env`log, env`clock, env`nextStream, registration`stream, registration`past
      ensures AllValid(registrations, env.nextStream) && StreamsApart(registrations)
      ensures old(env.nextStream) <= env.nextStream
      ensures env.log == old(env.log) + [SubscribeAsked(registration.filter, if r.Ok? then Ok(IdOf(registration.stream)) else Err(r.error))]
      ensures r.Ok? ==> Moved(registration, old(registration.stream), old(registration.past), old(env.nextStream), own)
      ensures r.Err? ==> unchanged(registration)
    {
      hide Chain;
      ghost var before := env.nextStream;
      AllBelow(registrations, before);
      r := ReplayOne(registration, own);
      forall k | 0 <= k < |registrations| && k != next
        ensures registrations[k].Valid(env.nextStream)
      {
        var other := registrations[k];
        assert registration.id != other.id;
        ChainLater(other.filter, other.past, other.stream, other.delivered, before, env.nextStream);
      }
    }

    /** Replays in creation order until one replay fails. */
    method ReplayAll(ghost cause: Option<Registration>) returns (r: Result<()>, ghost got: seq<Option<nat>>)
      requires Valid()
      requires cause.Some? && cause.value in registrations ==> cause.value.stream.Some? && Exhausted(cause.value.stream.value)
      modifies env`log, env`clock, env`nextStream, registrations
      ensures Valid() && old(env.nextStream) <= env.nextStream
      ensures if r.Err? then |got| < |registrations| else |got| == |registrations|
      ensures forall k :: 0 <= k < |got| ==> IdOf(registrations[k].stream) == got[k]
      ensures env.log == old(env.log) + ReplayCalls(registrations, got, r)
      ensures forall k :: 0 <= k < |registrations| ==>
        Replayed(registrations[k], k < |got|, old(env.nextStream), cause == Some(registrations[k]))
    {
      hide AllValid, StreamsApart, ReplayCalls;
      var next := 0;
      got := [];
      NothingReplayed(registrations, old(env.log));
      while next < |registrations|
        invariant 0 <= next == |got| <= |registrations|
        invariant AllValid(registrations, env.nextStream) && StreamsApart(registrations)
        invariant old(env.nextStream) <= env.nextStream
        invariant env.log == old(env.log) + ReplayCalls(registrations, got, Ok(()))
        invariant forall k :: 0 <= k < next ==> IdOf(registrations[k].stream) == got[k]
        invariant forall k :: 0 <= k < |registrations| ==>
          Replayed(registrations[k], k < next, old(env.nextStream), cause == Some(registrations[k]))
      {
        assert Replayed(registrations[next], false, old(env.nextStream), cause == Some(registrations[next]));
        assert forall k :: 0 <= k < |registrations| && k != next ==> registrations[k] != registrations[next];
        r := ReplayNext(next, registrations[next], cause == Some(registrations[next]));
        OneReplayed(registrations, old(env.log), got, IdOf(registrations[next].stream), r);
        if r.Err? {
          return r, got;
        }
        got := got + [IdOf(registrations[next].stream)];
        next := next + 1;
      }
      return Ok(()), got;
    }

    /** A restart, and on success only live registrations are left in the list. */
    method RestartAndPrune() returns (r: Result<()>, ghost restart: seq<Call>)
      requires Valid()
      modifies this`options, this`recoveries, this`daemon, this`registrations, env`log, env`clock, env`exited, env`nextPid
      ensures Valid() && env.log == old(env.log) + restart && recoveries == old(recoveries) + 1
      ensures Attempted(restart, r, old(Configurable(hasTransport, options)), old(daemon))
      ensures SpawnsOnlyAfterStop(restart, old(daemon)) && (r.Ok? ==> Restarted(restart, old(daemon), daemon))
      ensures registrations == if r.Ok? then LiveOnly(old(registrations), live) else old(registrations)
      ensures forall k :: 0 <= k < |registrations| ==> registrations[k] in old(registrations)
    {
      hide AllValid, StreamsApart, LiveOnly, Chain, SpawnsOnlyAfterStop, Restarted, Decides, BeginsWithStop;
      recoveries := recoveries + 1;
      r, restart := EnsureDaemonImpl(true);
      if r.Ok? {
        LiveOnlyKeeps(registrations, live);
        LiveOnlyApart(registrations, live);
        AllValidAmong(registrations, LiveOnly(registrations, live), env.nextStream);
        registrations := LiveOnly(registrations, live);
      }
    }

    method RestartAndReplay(ghost cause: Option<Registration>)
      returns (r: Result<()>, ghost got: seq<Option<nat>>, ghost restart: seq<Call>, ghost started: Result<()>)
      requires Valid()
      requires cause.Some? ==> cause.value in registrations && cause.value.stream.Some? && Exhausted(cause.value.stream.value)
      modifies this`options, this`recoveries, this`daemon, this`registrations, env`log, env`clock, env`exited, env`nextPid, env`nextStream, registrations
      ensures Valid() && old(env.nextStream) <= env.nextStream && recoveries == old(recoveries) + 1
      ensures Attempted(restart, started, old(Configurable(hasTransport, options)), old(daemon))
      ensures SpawnsOnlyAfterStop(restart, old(daemon)) && (started.Ok? ==> Restarted(restart, old(daemon), daemon))
      ensures old(env.log) <= env.log
        && RecoveryCalls(env.log[|old(env.log)|..], restart, started, registrations, got, r)
      ensures registrations == if started.Ok? then LiveOnly(old(registrations), live) else old(registrations)
      ensures |got| <= |registrations| && forall k :: 0 <= k < |got| ==> IdOf(registrations[k].stream) == got[k]
      ensures forall reg :: reg in old(registrations) ==>
        Replayed(reg, reg in registrations[..|got|], old(env.nextStream), cause == Some(reg))
    {
      hide Chain, AllValid, StreamsApart, SpawnsOnlyAfterStop, Restarted, CreationOrder, LiveOnly, Moved, Attempted, ReplayCalls;
      got := [];
      r, restart := RestartAndPrune();
      started := r;
      assert (old(env.log) + restart)[|old(env.log)|..] == restart;
      if r.Ok? {
        r, got := ReplayAll(cause);
        Tail(old(env.log), restart, ReplayCalls(registrations, got, r));
        forall reg | reg in old(registrations)
          ensures Replayed(reg, reg in registrations[..|got|], old(env.nextStream), cause == Some(reg))
        {
          if reg in registrations {
            var k :| 0 <= k < |registrations| && registrations[k] == reg;
            CreationOrderOnce(registrations, k, |got|);
            assert Replayed(registrations[k], k < |got|, old(env.nextStream), cause == Some(registrations[k]));
          }
        }
      }
    }

    /** Restarts the daemon, forgets dead registrations, and opens a fresh stream for each live one, in
        creation order, with the filter it was made with. `got` says what each got, one after the other: all of
        them on success; on failure the others keep what they had, and the last call says why. `cause` is the
        registration whose own connection error asked for this. No two registrations share a stream afterwards. */
    method RecoverConnection(ghost cause: Option<Registration>)
      returns (r: Result<()>, ghost got: seq<Option<nat>>, ghost restart: seq<Call>, ghost started: Result<()>)
      requires Valid()
      requires cause.Some? ==> cause.value in registrations && cause.value.stream.Some? && Exhausted(cause.value.stream.value)
      modifies this`options, this`recoveries, this`daemon, this`registrations, env`log, env`clock, env`exited, env`nextPid, env`nextStream, registrations
      ensures Valid() && StreamsApart(registrations) && old(env.nextStream) <= env.nextStream && recoveries == old(recoveries) + 1
      ensures Attempted(restart, started, old(Configurable(hasTransport, options)), old(daemon))
      ensures SpawnsOnlyAfterStop(restart, old(daemon)) && (started.Ok? ==> Restarted(restart, old(daemon), daemon))
      ensures old(env.log) <= env.log
        && RecoveryCalls(env.log[|old(env.log)|..], restart, started, registrations, got, r)
      ensures r.Err? ==> Blamed(old(env.log), env.log, old(Configurable(hasTransport, options)), r.error)
      ensures registrations == if started.Ok? then LiveOnly(old(registrations), live) else old(registrations)
      ensures |got| <= |registrations| && forall k :: 0 <= k < |got| ==> IdOf(registrations[k].stream) == got[k]
      ensures forall reg :: reg in old(registrations) ==>
        Replayed(reg, reg in registrations[..|got|], old(env.nextStream), cause == Some(reg))
      ensures Bystanders(old(registrations), registrations, cause, old(env.nextStream))
      ensures r.Ok? ==> AllMoved(live, cause, old(env.nextStream))
      ensures forall reg :: reg in registrations ==> reg in old(registrations)
    {
      hide Chain, AllValid, StreamsApart, SpawnsOnlyAfterStop, Restarted, CreationOrder, LiveOnly, Blamed, Attempted, RecoveryCalls;
      r, got, restart, started := RestartAndReplay(cause);
      LiveOnlyContains(old(registrations), live);
      AnswersAgree(env.log[|old(env.log)|..], restart, started, registrations, got, r);
      assert r.Ok? ==> registrations[..|got|] == registrations;
      if r.Err? {
        RecoveryBlames(old(env.log), env.log, restart, started, registrations, got, r,
                       old(Configurable(hasTransport, options)), old(daemon));
      }
    }

    /** Opens a stream, after one recovery if the first attempt was a connection error. */
    method OpenStream(filter: Filter) returns (r: Result<Option<Stream>>, ghost first: Result<Option<Stream>>, ghost recovered: bool)
      requires Valid()
      modifies this`options, this`recoveries, this`daemon, this`registrations, env`log, env`clock, env`exited, env`nextPid, env`nextStream, registrations
      ensures Valid()
      ensures Bystanders(old(registrations), registrations, None, old(env.nextStream)) && old(env.nextStream) <= env.nextStream
      ensures forall reg :: reg in registrations ==> reg in old(registrations)
      ensures recovered ==> AllMoved(live, None, old(env.nextStream))
      ensures recoveries == old(recoveries) ==> registrations == old(registrations) && Untouched(old(registrations), None)
      ensures Retried(old(env.log), env.log, SubscribeAsked(filter, Given(first)), SubscribeAsked(filter, Given(r)),
                      old(Configurable(hasTransport, options)), Failure(first), Failure(r), recovered, recoveries - old(recoveries))
      ensures r.Ok? && r.value.Some? ==> Beyond(registrations, r.value.value.id)
      ensures r.Ok? && r.value.Some? ==> r.value.value.id < env.nextStream && r.value.value == Opened(r.value.value.id, filter)
    {
      hide Chain, AllValid, StreamsApart, CreationOrder, LiveOnly, Blamed, Configurable, Retried;
      ghost var configurable := Configurable(hasTransport, options);
      recovered := false;
      r := SubscribeOnce(filter);
      first := r;
      if r.Ok? || !G.IsConnectionError(r.error) {
        AskedOnce(old(env.log), SubscribeAsked(filter, Given(r)), configurable, Failure(r));
        return;
      }
      ghost var log := env.log;
      r, recovered := RecoverAndOpen(filter);
      AskedTwice(old(env.log), log, env.log, SubscribeAsked(filter, Given(first)), SubscribeAsked(filter, Given(r)),
                 configurable, first.error, Failure(r), recovered);
    }

    method RecoverAndOpen(filter: Filter) returns (r: Result<Option<Stream>>, ghost recovered: bool)
      requires Valid()
      modifies this`options, this`recoveries, this`daemon, this`registrations, env`log, env`clock, env`exited, env`nextPid, env`nextStream, registrations
      ensures Valid() && recoveries == old(recoveries) + 1 && old(env.nextStream) <= env.nextStream
      ensures Bystanders(old(registrations), registrations, None, old(env.nextStream))
      ensures forall reg :: reg in registrations ==> reg in old(registrations)
      ensures recovered ==> AllMoved(live, None, old(env.nextStream))
      ensures Afterwards(old(env.log), env.log, SubscribeAsked(filter, Given(r)), old(Configurable(hasTransport, options)),
                         Failure(r), recovered)
      ensures r.Ok? && r.value.Some? ==> Beyond(registrations, r.value.value.id)
      ensures r.Ok? && r.value.Some? ==> r.value.value.id < env.nextStream && r.value.value == Opened(r.value.value.id, filter)
    {
      hide Chain, AllValid, StreamsApart, CreationOrder, LiveOnly, SpawnsOnlyAfterStop, Restarted, Attempted, RecoveryCalls, Blamed;
      hide Moved, Configurable;
      ghost var got: seq<Option<nat>>, restart: seq<Call>, started: Result<()>;
      var recovery;
      recovery, got, restart, started := RecoverConnection(None);
      recovered := recovery.Ok?;
      if recovery.Err? {
        return Err(recovery.error), false;
      }
      r := SubscribeOnce(filter);
    }

    method SubscribeOnce(filter: Filter) returns (r: Result<Option<Stream>>)
      requires Valid()
      modifies env`log, env`clock, env`nextStream
      ensures Valid() && old(env.nextStream) <= env.nextStream
      ensures env.log == old(env.log) + [SubscribeAsked(filter, Given(r))]
      ensures r.Ok? && r.value.Some? ==> r.value.value.id < env.nextStream && r.value.value == Opened(r.value.value.id, filter)
      ensures r.Ok? && r.value.Some? ==> Beyond(registrations, r.value.value.id)
    {
      hide Chain;
      ghost var before := env.nextStream;
      AllBelow(registrations, before);
      r := env.Subscribe(filter);
      AllLater(registrations, before, env.nextStream);
    }

    method Register(filter: Filter, stream: Option<Stream>) returns (registration: Registration)
      requires Valid()
      requires stream.Some? ==> stream.value.id < env.nextStream && stream.value == Opened(stream.value.id, filter)
      requires stream.Some? ==> Beyond(registrations, stream.value.id)
      modifies this`registrations, this`live, this`nextId
      ensures Valid() && fresh(registration)
      ensures registration.filter == filter && registration.delivered == [] && registration.past == [] && registration.told == []
      ensures registration.stream == stream
      ensures registrations == old(registrations) + [registration] && live == old(live) + {registration}
    {
      hide Chain, AllValid, StreamsApart, Beyond;
      registration := new Registration(nextId, filter, stream, env.nextStream);
      AllValidPush(registrations, registration, env.nextStream);
      StreamsApartPush(registrations, registration);
      registrations, live, nextId := registrations + [registration], live + {registration}, nextId + 1;
    }

    /** A new handle on a stream opened with exactly this filter; it is replayed after all the others. The others
        notice nothing, or, if the first attempt was a connection error, the one recovery that follows it. */
    method Subscribe(filter: Filter) returns (r: Result<Registration>, ghost first: Result<Option<Stream>>, ghost recovered: bool)
      requires Valid()
      modifies this`options, this`recoveries, this`daemon, this`registrations, this`live, this`nextId, env`log, env`clock, env`exited, env`nextPid, env`nextStream, registrations
      ensures Valid() && old(env.nextStream) <= env.nextStream
      ensures Bystanders(old(registrations), registrations, None, old(env.nextStream))
      ensures recovered ==> AllMoved(old(live), None, old(env.nextStream))
      ensures recoveries == old(recoveries) ==>
        && Untouched(old(registrations), None)
        && registrations == old(registrations) + if r.Ok? then [r.value] else []
      ensures !hasTransport ==> r == Err(INVALID_ARGUMENT) && recoveries == old(recoveries) && env.log == old(env.log)
      ensures hasTransport ==>
        Retried(old(env.log), env.log, SubscribeAsked(filter, Given(first)),
                SubscribeAsked(filter, if r.Ok? then Ok(IdOf(r.value.stream)) else Err(r.error)),
                old(Configurable(hasTransport, options)), Failure(first), Failure(r), recovered, recoveries - old(recoveries))
      ensures r.Ok? ==>
        && fresh(r.value) && r.value.filter == filter && r.value.delivered == [] && r.value.past == [] && r.value.told == []
        && (r.value.stream.Some? ==> r.value.stream.value == Opened(r.value.stream.value.id, filter))
        && live == old(live) + {r.value} && registrations != [] && registrations[|registrations| - 1] == r.value
        && (forall reg :: reg in registrations ==> reg in old(registrations) || reg == r.value)
      ensures r.Err? ==> live == old(live) && forall reg :: reg in registrations ==> reg in old(registrations)
    {
      hide Chain, AllValid, StreamsApart, CreationOrder, LiveOnly, Retried;
      first, recovered := Err(INVALID_ARGUMENT), false;
      if !hasTransport {
        return Err(INVALID_ARGUMENT), first, false;
      }
      var stream;
      stream, first, recovered := OpenStream(filter);
      if stream.Err? {
        return Err(stream.error), first, recovered;
      }
      var registration := Register(filter, stream.value);
      r := Ok(registration);
      assert Failure(r) == Failure(stream);
    }

    /** Recovery on behalf of one handle that drained its stream: its registration either stays on it or
        retires it for good, and the others notice nothing but the recovery. */
    method RecoverFor(registration: Registration) returns (r: Result<()>)
      requires Valid() && registration in live && registration.stream.Some? && Exhausted(registration.stream.value)
      modifies this`options, this`recoveries, this`daemon, this`registrations, env`log, env`clock, env`exited, env`nextPid, env`nextStream, registrations
      ensures Valid() && registration in registrations && recoveries == old(recoveries) + 1
      ensures old(env.nextStream) <= env.nextStream && forall reg :: reg in registrations ==> reg in old(registrations)
      ensures Bystanders(old(registrations), registrations, Some(registration), old(env.nextStream))
      ensures Replayed(registration, false, old(env.nextStream), true) || Replayed(registration, true, old(env.nextStream), true)
      ensures old(env.log) <= env.log
      ensures r.Ok? ==> AllMoved(live, Some(registration), old(env.nextStream))
      ensures r.Err? ==> Blamed(old(env.log), env.log, old(Configurable(hasTransport, options)), r.error)
    {
      hide Chain, AllValid, StreamsApart, CreationOrder, LiveOnly, SpawnsOnlyAfterStop, Restarted, Attempted, RecoveryCalls, Blamed;
      ghost var got: seq<Option<nat>>, restart: seq<Call>, started: Result<()>;
      r, got, restart, started := RecoverConnection(Some(registration));
    }

    /** The handle is destroyed: the list only holds a dead reference to its registration now. */
    method DropHandle(registration: Registration)
      requires Valid()
      modifies this`live
      ensures Valid() && live == old(live) - {registration}
    {
      live := live - {registration};
    }

    /** One request; `first` is the answer to its first sending. It is sent again exactly when that was a
        connection error and the recovery succeeded, and then every live registration was replayed; nothing
        else is recovered from, and without a recovery the handles notice nothing. */
    method Request() returns (r: Result<nat>, ghost first: Result<nat>, ghost recovered: bool)
      requires Valid()
      modifies this`options, this`recoveries, this`daemon, this`registrations, env`log, env`clock, env`exited, env`nextPid, env`nextStream, env`requests, registrations
      ensures Valid() && old(env.nextStream) <= env.nextStream
      ensures Bystanders(old(registrations), registrations, None, old(env.nextStream))
      ensures forall reg :: reg in registrations ==> reg in old(registrations)
      ensures recovered ==> AllMoved(live, None, old(env.nextStream))
      ensures recoveries == old(recoveries) ==> registrations == old(registrations) && Untouched(old(registrations), None)
      ensures !hasTransport ==>
        r == Err(INVALID_ARGUMENT) && recoveries == old(recoveries) && env.log == old(env.log) && env.requests == old(env.requests)
      ensures hasTransport ==>
        && Retried(old(env.log), env.log, RequestSent(first), RequestSent(r),
                   old(Configurable(hasTransport, options)), Failure(first), Failure(r), recovered, recoveries - old(recoveries))
        && env.requests == old(env.requests) + (if recovered then 2 else 1) && (recoveries == old(recoveries) ==> r == first)
    {
      hide Chain, AllValid, StreamsApart, CreationOrder, LiveOnly, Blamed, Moved, Configurable, Retried;
      ghost var configurable := Configurable(hasTransport, options);
      first, recovered := Err(INVALID_ARGUMENT), false;
      if !hasTransport {
        return Err(INVALID_ARGUMENT), first, false;
      }
      r := env.Request();
      first := r;
      if r.Ok? || !G.IsConnectionError(r.error) {
        AskedOnce(old(env.log), RequestSent(r), configurable, Failure(r));
        return;
      }
      ghost var log := env.log;
      r, recovered := RecoverAndResend();
      AskedTwice(old(env.log), log, env.log, RequestSent(first), RequestSent(r), configurable, first.error, Failure(r), recovered);
    }

    method RecoverAndResend() returns (r: Result<nat>, ghost recovered: bool)
      requires Valid()
      modifies this`options, this`recoveries, this`daemon, this`registrations, env`log, env`clock, env`exited, env`nextPid, env`nextStream, env`requests, registrations
      ensures Valid() && recoveries == old(recoveries) + 1 && old(env.nextStream) <= env.nextStream
      ensures Bystanders(old(registrations), registrations, None, old(env.nextStream))
      ensures forall reg :: reg in registrations ==> reg in old(registrations)
      ensures recovered ==> AllMoved(live, None, old(env.nextStream))
      ensures Afterwards(old(env.log), env.log, RequestSent(r), old(Configurable(hasTransport, options)), Failure(r), recovered)
      ensures env.requests == old(env.requests) + if recovered then 1 else 0
    {
      hide Chain, AllValid, StreamsApart, CreationOrder, LiveOnly, SpawnsOnlyAfterStop, Restarted, Attempted, RecoveryCalls, Blamed;
      hide Moved, Configurable;
      ghost var got: seq<Option<nat>>, restart: seq<Call>, started: Result<()>;
      var recovery;
      recovery, got, restart, started := RecoverConnection(None);
      recovered := recovery.Ok?;
      if recovery.Err? {
        return Err(recovery.error), false;
      }
      r := env.Request();
    }

    /** One of the listed streams is polled; the others are not touched. */
    method PollOne(registration: Registration) returns (r: Result<Option<Event>>)
      requires Valid() && registration in registrations && registration.stream.Some?
      modifies registration`stream, registration`delivered
      ensures Valid() && registration.stream.Some? && registration.stream.value.filter == registration.filter
      ensures Continues(old(registration.stream.value), registration.stream.value) && Says(registration.stream.value, r)
      ensures registration.delivered == old(registration.delivered) + if r.Ok? && r.value.Some? then [r.value.value] else []
    {
      hide Chain;
      r := registration.Poll(env, env.nextStream);
      assert forall k :: 0 <= k < |registrations| && registrations[k] == registration ==> registrations[k].Valid(env.nextStream);
      forall j, k | 0 <= j < k < |registrations|
        ensures Apart(registrations[j].stream, registrations[k].stream)
      {
        assert registrations[j].id < registrations[k].id;
        assert Apart(old(registrations[j].stream), old(registrations[k].stream));
      }
    }

    /** The handle has answered. */
    method Tell(registration: Registration, answer: Result<Option<Event>>)
      requires Valid() && registration in registrations
      modifies registration`told
      ensures Valid() && registration.told == old(registration.told) + [answer]
    {
      hide Chain, CreationOrder;
      registration.told := registration.told + [answer];
      assert forall k :: 0 <= k < |registrations| ==> registrations[k].Valid(env.nextStream);
    }

    method Destroy() returns (ghost alive: bool)
      requires Valid()
      modifies this`daemon, this`closed, env`log, env`clock, env`exited
      ensures Valid() && closed && daemon == None && env.log == old(env.log) + StopCalls(old(daemon), alive)
    {
      alive := TerminateDaemon();
      closed := true;
    }
  }

  /** What a subscriber holds: its registration, and a weak reference to the client. */
  class ReplayableStream {
    const owner: State
    const registration: Registration

    constructor (owner: State, registration: Registration)
      ensures this.owner == owner && this.registration == registration
    {
      this.owner, this.registration := owner, registration;
    }

    /** Hands out the next event; `first` is the answer of the stream as it was. A connection error, and
        nothing else, makes the handle recover, once, and poll again; it leaves a stream only after draining it.
        Without a recovery the other handles notice nothing. */
    method TryNext() returns (r: Result<Option<Event>>, ghost first: Option<Result<Option<Event>>>, ghost recovery: Option<Result<()>>)
      requires owner.Valid() && registration in owner.live
      modifies owner`options, owner`recoveries, owner`daemon, owner`registrations, owner.env, owner.registrations
      ensures owner.Valid() && registration in owner.registrations && owner.live == old(owner.live)
      ensures old(owner.env.nextStream) <= owner.env.nextStream && owner.env.requests == old(owner.env.requests)
      ensures Bystanders(old(owner.registrations), owner.registrations, Some(registration), old(owner.env.nextStream))
      ensures forall reg :: reg in owner.registrations ==> reg in old(owner.registrations)
      ensures registration.told == old(registration.told) + [r]
      ensures registration.delivered == old(registration.delivered) + if r.Ok? && r.value.Some? then [r.value.value] else []
      ensures Asked(registration, first, r)
      ensures first.Some? && Recovers(first.value) && owner.closed ==> r == Err(SUBSCRIPTION_GONE)
      ensures recovery.Some? <==> first.Some? && Recovers(first.value) && !owner.closed
      ensures owner.recoveries == old(owner.recoveries) + if recovery.Some? then 1 else 0
      ensures recovery.None? ==>
        && owner.registrations == old(owner.registrations) && Untouched(old(owner.registrations), Some(registration))
        && owner.daemon == old(owner.daemon) && owner.env.log == old(owner.env.log)
      ensures old(owner.env.log) <= owner.env.log
      ensures recovery.Some? && recovery.value.Err? ==>
        && r == Err(recovery.value.error)
        && Blamed(old(owner.env.log), owner.env.log, old(Configurable(owner.hasTransport, owner.options)), recovery.value.error)
      ensures recovery.Some? && recovery.value.Ok? ==>
        && Resumed(registration, old(owner.env.nextStream), r)
        && AllMoved(owner.live - {registration}, None, old(owner.env.nextStream))
        && |registration.past| == |old(registration.past)| + 1
    {
      hide Chain, AllValid, StreamsApart, CreationOrder, Blamed, Moved;
      first, recovery := None, None;
      r := Err(SUBSCRIPTION_GONE);
      if registration.stream.Some? {
        r := owner.PollOne(registration);
        first := Some(r);
        if Recovers(r) {
          assert Exhausted(registration.stream.value);
          if owner.closed {
            r := Err(SUBSCRIPTION_GONE);
          } else {
            var recovered;
            r, recovered := RecoverAndPoll();
            recovery := Some(recovered);
          }
        }
      }
      owner.Tell(registration, r);
    }

    /** After a connection error: recovers once, and polls the fresh stream if there is one. */
    method RecoverAndPoll() returns (r: Result<Option<Event>>, recovered: Result<()>)
      requires owner.Valid() && registration in owner.live && registration.stream.Some? && Exhausted(registration.stream.value)
      modifies owner`options, owner`recoveries, owner`daemon, owner`registrations, owner.env, owner.registrations
      ensures owner.Valid() && registration in owner.registrations && owner.recoveries == old(owner.recoveries) + 1
      ensures old(owner.env.nextStream) <= owner.env.nextStream && owner.env.requests == old(owner.env.requests)
      ensures Bystanders(old(owner.registrations), owner.registrations, Some(registration), old(owner.env.nextStream))
      ensures forall reg :: reg in owner.registrations ==> reg in old(owner.registrations)
      ensures registration.told == old(registration.told)
      ensures registration.delivered == old(registration.delivered) + if r.Ok? && r.value.Some? then [r.value.value] else []
      ensures (registration.past == old(registration.past) && registration.stream == old(registration.stream) && r.Err?)
        || registration.past == old(registration.past) + Retired(old(registration.stream), true)
      ensures old(owner.env.log) <= owner.env.log
      ensures recovered.Err? ==>
        && r == Err(recovered.error)
        && Blamed(old(owner.env.log), owner.env.log, old(Configurable(owner.hasTransport, owner.options)), recovered.error)
      ensures recovered.Ok? ==> Resumed(registration, old(owner.env.nextStream), r)
      ensures recovered.Ok? ==> AllMoved(owner.live - {registration}, None, old(owner.env.nextStream))
      ensures recovered.Ok? ==> registration.past == old(registration.past) + Retired(old(registration.stream), true)
    {
      hide Chain, AllValid, StreamsApart, CreationOrder, Blamed, Exhausted;
      recovered := owner.RecoverFor(registration);
      if recovered.Err? {
        return Err(recovered.error), recovered;
      }
      if registration.stream.None? {
        return Err(SUBSCRIPTION_GONE), recovered;
      }
      r := owner.PollOne(registration);
    }
  }

  /** The stream was left for good, everything decoded from it handed out. */
  ghost predicate Drained(e: Epoch, s: Stream) {
    e.own && e.id == s.id && e.delivered == e.decoded && s.decoded <= e.decoded
  }

  /** Against the state before: what a handle answered, and what its stream said first. Without a stream there is
      no answer; a stream is left only after a connection error, drained, and then only the fresh one can have
      answered with more than an error. */
  twostate predicate Asked(reg: Registration, new first: Option<Result<Option<Event>>>, new r: Result<Option<Event>>)
    reads reg
  {
    if old(reg.stream).None? then
      first.None? && r == Err(SUBSCRIPTION_GONE) && reg.stream.None? && reg.past == old(reg.past)
    else
      && first.Some? && (if Recovers(first.value) then r.Ok? ==> reg.past != old(reg.past) else r == first.value)
      && if reg.past == old(reg.past)
         then reg.stream.Some? && Continues(old(reg.stream).value, reg.stream.value) && Says(reg.stream.value, first.value)
         else
           && Recovers(first.value) && |reg.past| == |old(reg.past)| + 1 && old(reg.past) <= reg.past
           && Drained(reg.past[|old(reg.past)|], old(reg.stream).value)
           && (r.Ok? ==> reg.stream.Some? && Says(reg.stream.value, r))
  }

  /** After a recovery that worked: the handle answers from the fresh stream of its own filter, or has none. */
  ghost predicate Resumed(r: Registration, next: nat, answer: Result<Option<Event>>)
    reads r
  {
    if r.stream.None? then answer == Err(SUBSCRIPTION_GONE)
    else next <= r.stream.value.id && r.stream.value.filter == r.filter && Says(r.stream.value, answer)
  }

  /** An answer that makes a handle recover its connection. */
  predicate Recovers(answer: Result<Option<Event>>) {
    answer.Err? && G.IsConnectionError(answer.error)
  }

  /** Against the state before: the registration either moved to a fresh stream or kept its own, and its
      handle returned nothing meanwhile. */
  twostate predicate Replayed(r: Registration, moved: bool, next: nat, own: bool)
    reads r
  {
    && r.delivered == old(r.delivered) && r.told == old(r.told)
    && if moved then Moved(r, old(r.stream), old(r.past), next, own)
       else r.stream == old(r.stream) && r.past == old(r.past)
  }

  /** A handle that did not ask for what happened: it kept its stream, or was moved to a fresh one while it is
      still listed; it returned nothing and its stream was not its own to retire. */
  twostate predicate Undisturbed(r: Registration, listed: bool, next: nat)
    reads r
  {
    Replayed(r, false, next, false) || (listed && Replayed(r, true, next, false))
  }

  /** Every registration there was, but one, is undisturbed. */
  twostate predicate Bystanders(before: seq<Registration>, new now: seq<Registration>, but: Option<Registration>, next: nat)
    reads before
  {
    forall k :: 0 <= k < |before| && but != Some(before[k]) ==> Undisturbed(before[k], before[k] in now, next)
  }

  /** Nothing at all happened to any registration there was, but one. */
  twostate predicate Untouched(before: seq<Registration>, but: Option<Registration>)
    reads before
  {
    forall k :: 0 <= k < |before| && but != Some(before[k]) ==> Replayed(before[k], false, 0, false)
  }

  /** The calls of a replay: one per registration, with its filter, each answered by what it got, up to the one
      that failed. */
  function ReplayCalls(registrations: seq<Registration>, got: seq<Option<nat>>, r: Result<()>): seq<Call>
    requires |got| <= |registrations| && (r.Err? ==> |got| < |registrations|)
  {
    seq(|got|, k requires 0 <= k < |got| => SubscribeAsked(registrations[k].filter, Ok(got[k])))
      + if r.Err? then [SubscribeAsked(registrations[|got|].filter, Err(r.error))] else []
  }

  lemma NothingReplayed(registrations: seq<Registration>, log: seq<Call>)
    ensures log == log + ReplayCalls(registrations, [], Ok(()))
  {
  }

  lemma OneReplayed(registrations: seq<Registration>, log: seq<Call>, got: seq<Option<nat>>, id: Option<nat>, r: Result<()>)
    requires |got| < |registrations|
    ensures log + ReplayCalls(registrations, got, Ok(()))
              + [SubscribeAsked(registrations[|got|].filter, if r.Ok? then Ok(id) else Err(r.error))]
      == log + if r.Ok? then ReplayCalls(registrations, got + [id], Ok(())) else ReplayCalls(registrations, got, r)
  {
    var done := ReplayCalls(registrations, got, Ok(()));
    if r.Ok? {
      assert ReplayCalls(registrations, got + [id], Ok(())) == done + [SubscribeAsked(registrations[|got|].filter, Ok(id))];
    } else {
      assert ReplayCalls(registrations, got, r) == done + [SubscribeAsked(registrations[|got|].filter, Err(r.error))];
    }
  }

  /** The calls of a recovery: a restart, and if that worked, a replay of the registrations that are left. */
  ghost predicate RecoveryCalls(calls: seq<Call>, restart: seq<Call>, started: Result<()>, registrations: seq<Registration>,
                                got: seq<Option<nat>>, r: Result<()>) {
    if started.Err? then calls == restart && got == [] && r == started
    else
      && |got| <= |registrations| && (if r.Err? then |got| < |registrations| else |got| == |registrations|)
      && calls == restart + ReplayCalls(registrations, got, r)
  }

  /** A recovery that failed after it had begun says why at the end of its calls. */
  lemma RecoveryErrorIsCaused(calls: seq<Call>, restart: seq<Call>, started: Result<()>, registrations: seq<Registration>,
                              got: seq<Option<nat>>, r: Result<()>)
    requires RecoveryCalls(calls, restart, started, registrations, got, r) && Decides(restart, started) && r.Err?
    ensures CausedBy(calls, r.error)
  {
  }

  lemma AnswersAgree(calls: seq<Call>, restart: seq<Call>, started: Result<()>, registrations: seq<Registration>,
                     got: seq<Option<nat>>, r: Result<()>)
    requires RecoveryCalls(calls, restart, started, registrations, got, r)
    ensures r.Ok? ==> started.Ok? && |got| == |registrations|
  {
  }

  lemma Tail(log: seq<Call>, restart: seq<Call>, replays: seq<Call>)
    ensures (log + restart + replays)[|log|..] == restart + replays && log <= log + restart + replays
  {
  }

  /** After an asking that failed: a recovery, and if that worked the same asking again. */
  ghost predicate Afterwards(before: seq<Call>, now: seq<Call>, asked: Call, configurable: bool, last: Option<Error>, recovered: bool) {
    && before <= now
    && if recovered then |before| < |now| && now[|now| - 1] == asked
       else last.Some? && Blamed(before, now, configurable, last.value)
  }

  /** What is asked for again exactly after a connection error and a successful recovery: `first` and `last` are
      the failures, if any, of the first asking and of the whole. */
  ghost predicate Retried(before: seq<Call>, now: seq<Call>, firstAsked: Call, lastAsked: Call, configurable: bool,
                          first: Option<Error>, last: Option<Error>, recovered: bool, recoveries: int) {
    if first.None? || !G.IsConnectionError(first.value)
    then now == before + [firstAsked] && lastAsked == firstAsked && last == first && !recovered && recoveries == 0
    else recoveries == 1 && Afterwards(before + [firstAsked], now, lastAsked, configurable, last, recovered)
  }

  lemma AskedOnce(before: seq<Call>, asked: Call, configurable: bool, first: Option<Error>)
    requires first.None? || !G.IsConnectionError(first.value)
    ensures Retried(before, before + [asked], asked, asked, configurable, first, first, false, 0)
  {
  }

  lemma AskedTwice(before: seq<Call>, log: seq<Call>, now: seq<Call>, firstAsked: Call, lastAsked: Call, configurable: bool,
                   first: Error, last: Option<Error>, recovered: bool)
    requires G.IsConnectionError(first) && log == before + [firstAsked]
    requires Afterwards(log, now, lastAsked, configurable, last, recovered)
    ensures Retried(before, now, firstAsked, lastAsked, configurable, Some(first), last, recovered, 1)
  {
  }

  /** An error between two moments of the log: an unusable configuration, for which nothing was done, or
      something was and the last call explains it. */
  ghost predicate Blamed(before: seq<Call>, now: seq<Call>, configurable: bool, error: Error) {
    if configurable then |before| < |now| && CausedBy(now, error) else error == INVALID_ARGUMENT && now == before
  }

  lemma RecoveryBlames(before: seq<Call>, now: seq<Call>, restart: seq<Call>, started: Result<()>, registrations: seq<Registration>,
                       got: seq<Option<nat>>, r: Result<()>, configurable: bool, held: Option<nat>)
    requires before <= now && r.Err? && RecoveryCalls(now[|before|..], restart, started, registrations, got, r)
    requires Attempted(restart, started, configurable, held)
    ensures Blamed(before, now, configurable, r.error)
  {
    assert now == before + now[|before|..];
    if configurable {
      RecoveryErrorIsCaused(now[|before|..], restart, started, registrations, got, r);
      CausedLater(before, now[|before|..], r.error);
    }
  }

  /** Every live registration moved to a fresh stream of its own filter, the one that asked having drained its
      old one. */
  twostate predicate AllMoved(live: set<Registration>, cause: Option<Registration>, next: nat)
    reads live
  {
    forall reg :: reg in live ==> Replayed(reg, true, next, cause == Some(reg))
  }

  ghost predicate AllValid(registrations: seq<Registration>, next: nat)
    reads registrations
  {
    forall k :: 0 <= k < |registrations| ==> registrations[k].Valid(next)
  }

  lemma AllLater(registrations: seq<Registration>, next: nat, later: nat)
    requires AllValid(registrations, next) && next <= later
    ensures AllValid(registrations, later)
  {
    hide Chain;
    forall k | 0 <= k < |registrations|
      ensures registrations[k].Valid(later)
    {
      var r := registrations[k];
      ChainLater(r.filter, r.past, r.stream, r.delivered, next, later);
    }
  }

  lemma AllValidPush(registrations: seq<Registration>, r: Registration, next: nat)
    requires AllValid(registrations, next) && r.Valid(next)
    ensures AllValid(registrations + [r], next)
  {
    hide Chain;
  }

  lemma StreamsApartPush(registrations: seq<Registration>, r: Registration)
    requires StreamsApart(registrations) && (r.stream.Some? ==> Beyond(registrations, r.stream.value.id))
    ensures StreamsApart(registrations + [r])
  {
    var all := registrations + [r];
    forall j, k | 0 <= j < k < |all|
      ensures Apart(all[j].stream, all[k].stream)
    {
      if k < |registrations| {
        assert all[j] == registrations[j] && all[k] == registrations[k];
      } else if r.stream.Some? {
        assert all[j] == registrations[j] && IdBelow(registrations[j].stream, r.stream.value.id);
      }
    }
  }

  lemma AllValidAmong(registrations: seq<Registration>, some: seq<Registration>, next: nat)
    requires AllValid(registrations, next) && forall k :: 0 <= k < |some| ==> some[k] in registrations
    ensures AllValid(some, next)
  {
    hide Chain;
    forall k | 0 <= k < |some|
      ensures some[k].Valid(next)
    {
      var i :| 0 <= i < |registrations| && registrations[i] == some[k];
    }
  }

  lemma AllBelow(registrations: seq<Registration>, next: nat)
    requires AllValid(registrations, next)
    ensures Beyond(registrations, next)
  {
    hide Chain;
    forall k | 0 <= k < |registrations|
      ensures IdBelow(registrations[k].stream, next)
    {
      var r := registrations[k];
      ChainBelow(r.filter, r.past, r.stream, r.delivered, next);
    }
  }

  /** No two of the registrations share a stream. */
  ghost predicate StreamsApart(registrations: seq<Registration>)
    reads registrations
  {
    forall j, k :: 0 <= j < k < |registrations| ==> Apart(registrations[j].stream, registrations[k].stream)
  }

  /** The id is beyond that of every stream in use. */
  ghost predicate Beyond(registrations: seq<Registration>, id: nat)
    reads registrations
  {
    forall k :: 0 <= k < |registrations| ==> IdBelow(registrations[k].stream, id)
  }

  predicate IdBelow(stream: Option<Stream>, id: nat) {
    stream.Some? ==> stream.value.id < id
  }

  predicate Apart(a: Option<Stream>, b: Option<Stream>) {
    a.Some? && b.Some? ==> a.value.id != b.value.id
  }

  /** The registrations whose handle still exists, in their order. */
  function LiveOnly(registrations: seq<Registration>, live: set<Registration>): seq<Registration> {
    if registrations == [] then []
    else
      var last := registrations[|registrations| - 1];
      LiveOnly(registrations[..|registrations| - 1], live) + if last in live then [last] else []
  }

  /** The registration is on a stream opened just now with its own filter, or on none if the transport
      gave none, and remembers the one it had. */
  ghost predicate Moved(r: Registration, stream: Option<Stream>, past: seq<Epoch>, next: nat, own: bool)
    reads r
  {
    && (r.stream.Some? ==> r.stream.value.id >= next && r.stream.value == Opened(r.stream.value.id, r.filter))
    && r.past == past + Retired(stream, own)
  }

  ghost predicate CreationOrder(registrations: seq<Registration>) {
    forall j, k :: 0 <= j < k < |registrations| ==> registrations[j].id < registrations[k].id
  }

  /** A registration is listed once, so it is among the first ones exactly if its index is. */
  lemma CreationOrderOnce(registrations: seq<Registration>, k: nat, n: nat)
    requires CreationOrder(registrations) && k < |registrations| && n <= |registrations|
    ensures registrations[k] in registrations[..n] <==> k < n
  {
    if k < n {
      assert registrations[..n][k] == registrations[k];
    } else {
      assert forall j :: 0 <= j < n ==> registrations[..n][j].id < registrations[k].id;
    }
  }

  lemma {:induction false} LiveOnlyContains(registrations: seq<Registration>, live: set<Registration>)
    ensures forall k :: 0 <= k < |LiveOnly(registrations, live)| ==>
      LiveOnly(registrations, live)[k] in registrations && LiveOnly(registrations, live)[k] in live
    ensures forall k :: 0 <= k < |registrations| && registrations[k] in live ==> registrations[k] in LiveOnly(registrations, live)
  {
    if registrations != [] {
      LiveOnlyContains(registrations[..|registrations| - 1], live);
      assert registrations == registrations[..|registrations| - 1] + [registrations[|registrations| - 1]];
    }
  }

  lemma {:induction false} LiveOnlyApart(registrations: seq<Registration>, live: set<Registration>)
    requires StreamsApart(registrations)
    ensures StreamsApart(LiveOnly(registrations, live))
  {
    LiveOnlyContains(registrations, live);
    if registrations != [] {
      var front, last := registrations[..|registrations| - 1], registrations[|registrations| - 1];
      LiveOnlyApart(front, live);
      LiveOnlyContains(front, live);
      var kept := LiveOnly(front, live);
      forall j | 0 <= j < |kept|
        ensures Apart(kept[j].stream, last.stream)
      {
        var i :| 0 <= i < |front| && front[i] == kept[j];
      }
    }
  }

  /** Forgetting dead registrations keeps exactly the live ones, in creation order. */
  lemma {:induction false} LiveOnlyKeeps(registrations: seq<Registration>, live: set<Registration>)
    requires CreationOrder(registrations)
    ensures forall k :: 0 <= k < |LiveOnly(registrations, live)| ==>
      LiveOnly(registrations, live)[k] in registrations && LiveOnly(registrations, live)[k] in live
    ensures forall k :: 0 <= k < |registrations| && registrations[k] in live ==> registrations[k] in LiveOnly(registrations, live)
    ensures CreationOrder(LiveOnly(registrations, live))
  {
    LiveOnlyContains(registrations, live);
    if registrations != [] {
      var front, last := registrations[..|registrations| - 1], registrations[|registrations| - 1];
      LiveOnlyKeeps(front, live);
      var kept := LiveOnly(front, live);
      forall j | 0 <= j < |kept|
        ensures kept[j].id < last.id
      {
        var i :| 0 <= i < |front| && front[i] == kept[j];
      }
    }
  }
}
