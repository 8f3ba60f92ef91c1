/** Notify, post, drain: how queued events reach the reactor thread. Publishing threads, the reactor and the
    stopping thread interleave at every atomic step. */
module LogPump {
  import opened Wrappers
  import opened Events
  import Q = EventQueue
  import Feed

  datatype Job = DrainJob | FinalJob | TickJob(now: real)

  /** Where the reactor thread is; `final` tells the final job's drain from an ordinary one. Between two
      batches of jobs it may publish events itself: then it is `Notifying` until its compare-exchange, and
      `Posting` if it won that. */
  datatype Reactor =
    | Idle
    | Notifying
    | Posting
    | Arming(final: bool)
    | Looping(final: bool)
    | Holding(final: bool, item: Item)
    | Flushing
    | Fencing

  /** Where the thread that calls stop is. */
  datatype Stop = Running | NotifyCleared | ObservationStopped | FinalPosted | Returned

  /** What kind of pump it is: whether its final job drains or only fulfils the fence, how its queue
      overflows, whether events it watches are also published on the reactor thread, and what its feed shows. */
  datatype Setup = Setup(tail: bool, policy: Q.Policy, reactorSource: bool, flags: Feed.Flags)

  /** What is remembered of a stop for its theorems: how much had been published at one moment of it, whether
      a drain was on its way when the final job was posted, whether that job is in the current batch or past
      it, and whether it has re-armed the flag. */
  datatype Marks = Marks(
    publishedAtClear: nat,
    publishedAtPost: nat,
    publishedAtDrain: nat,
    comingAtPost: bool,
    sealed: bool,
    rearmedByFinal: bool)

  /** `notifying` publishing threads hold the callback and have not reached its compare-exchange; `winners`
      won it and have not posted. The first `batch` jobs are those the reactor is running through. */
  datatype State = State(
    setup: Setup,
    history: Q.History,
    commands: seq<Feed.Command>,
    scheduled: bool,
    notifying: nat,
    winners: nat,
    jobs: seq<Job>,
    batch: nat,
    reactor: Reactor,
    stop: Stop,
    fence: bool,
    marks: Marks)

  datatype Action =
    | Publish(event: Event)
    | CompareExchange
    | Post
    | PublishOnReactor(event: Event)
    | CompareExchangeOnReactor
    | PostOnReactor
    | PostTick(now: real)
    | TakeBatch
    | TakeJob
    | Rearm
    | PopItem
    | ConsumeHeld
    | LeaveLoop
    | FlushFeed
    | Fulfil
    | ClearNotify
    | StopObservation
    | PostFinal
    | ReturnFromStop

  function Start(capacity: nat, setup: Setup): State {
    State(setup, Q.Initial(capacity, setup.policy), [], false, 0, 0, [], 0, Idle, Running, false,
          Marks(0, 0, 0, false, false, false))
  }

  function Queued(s: State): seq<Item> {
    s.history.q.items
  }

  function Published(s: State): seq<Event> {
    s.history.published
  }

  /** The bus numbers events as it publishes them. */
  predicate NumberedNext(h: Q.History, e: Event) {
    Q.Bounded(h) && 0 < e.sequence && forall k :: 0 <= k < |h.published| ==> h.published[k].sequence < e.sequence
  }

  /** Stopping the observation joins every thread that publishes, so it ends only when none is on its way, and
      none publishes afterwards. The reactor publishes only between batches of jobs. */
  predicate Enabled(s: State, a: Action) {
    match a
    case Publish(e) => NumberedNext(s.history, e) && (s.stop == Running || s.stop == NotifyCleared)
    case CompareExchange => 0 < s.notifying
    case Post => 0 < s.winners
    case PublishOnReactor(e) => NumberedNext(s.history, e) && s.setup.reactorSource && s.reactor == Idle && s.batch == 0
    case CompareExchangeOnReactor => s.reactor == Notifying
    case PostOnReactor => s.reactor == Posting
    case PostTick(_) => s.stop == Running
    case TakeBatch => s.reactor == Idle && s.batch == 0 && s.jobs != []
    case TakeJob => s.reactor == Idle && 0 < s.batch && s.jobs != []
    case Rearm => s.reactor.Arming?
    case PopItem => s.reactor.Looping? && Queued(s) != [] && Q.Bounded(s.history)
    case ConsumeHeld => s.reactor.Holding?
    case LeaveLoop => s.reactor.Looping? && Queued(s) == []
    case FlushFeed => s.reactor == Flushing
    case Fulfil => s.reactor == Fencing
    case ClearNotify => s.stop == Running
    case StopObservation => s.stop == NotifyCleared && s.notifying == 0 && s.winners == 0
    case PostFinal => s.stop == ObservationStopped
    case ReturnFromStop => s.stop == FinalPosted && s.fence
  }

  predicate Posted(stop: Stop) {
    stop == FinalPosted || stop == Returned
  }

  /** Somebody holds the callback for this publication. */
  predicate Notified(s: State, e: Event)
    requires Q.Bounded(s.history)
  {
    Q.Enqueued(s.history.q, e).1 && s.stop == Running
  }

  /** What the reactor does with the job it takes; a final job that does not drain only fulfils. */
  function Begin(s: State, job: Job): State {
    match job
    case DrainJob => s.(reactor := Arming(false))
    case FinalJob => s.(reactor := if s.setup.tail then Arming(true) else Fencing)
    case TickJob(now) => s.(commands := s.commands + [Feed.TickNow(now)])
  }

  function Apply(s: State, a: Action): State
    requires Enabled(s, a)
  {
    match a
    case Publish(e) =>
      s.(history := Q.Step(s.history, Q.Publish(e)), notifying := s.notifying + Bit(Notified(s, e)))
    case CompareExchange =>
      if s.scheduled then s.(notifying := s.notifying - 1)
      else s.(notifying := s.notifying - 1, scheduled := true, winners := s.winners + 1)
    case Post => s.(winners := s.winners - 1, jobs := s.jobs + [DrainJob])
    case PublishOnReactor(e) =>
      s.(history := Q.Step(s.history, Q.Publish(e)), reactor := if Notified(s, e) then Notifying else Idle)
    case CompareExchangeOnReactor =>
      if s.scheduled then s.(reactor := Idle) else s.(scheduled := true, reactor := Posting)
    case PostOnReactor => s.(reactor := Idle, jobs := s.jobs + [DrainJob])
    case PostTick(now) => s.(jobs := s.jobs + [TickJob(now)])
    case TakeBatch => s.(batch := |s.jobs|, marks := s.marks.(sealed := Posted(s.stop)))
    case TakeJob => Begin(s.(jobs := s.jobs[1..], batch := s.batch - 1), s.jobs[0])
    case Rearm =>
      s.(scheduled := false, reactor := Looping(s.reactor.final),
         marks := s.marks.(rearmedByFinal := s.marks.rearmedByFinal || s.reactor.final))
    case PopItem =>
      s.(history := Q.Step(s.history, Q.Pop), reactor := Holding(s.reactor.final, Queued(s)[0]))
    case ConsumeHeld =>
      s.(commands := s.commands + [Feed.Take(s.reactor.item)], reactor := Looping(s.reactor.final))
    case LeaveLoop =>
      if s.reactor.final then s.(reactor := Flushing, marks := s.marks.(publishedAtDrain := |Published(s)|))
      else s.(reactor := Idle)
    case FlushFeed => s.(commands := s.commands + [Feed.FlushNow], reactor := Fencing)
    case Fulfil => s.(fence := true, reactor := Idle)
    case ClearNotify => s.(stop := NotifyCleared, marks := s.marks.(publishedAtClear := |Published(s)|))
    case StopObservation => s.(stop := ObservationStopped)
    case PostFinal =>
      s.(stop := FinalPosted, jobs := s.jobs + [FinalJob],
         marks := s.marks.(publishedAtPost := |Published(s)|, comingAtPost := DrainComing(s)))
    case ReturnFromStop => s.(stop := Returned)
  }

  function Bit(b: bool): nat {
    if b then 1 else 0
  }

  function Count(jobs: seq<Job>, job: Job): nat {
    if jobs == [] then 0 else Bit(jobs[0] == job) + Count(jobs[1..], job)
  }

  /** Drains that are about to be posted, queued, or taken and not yet re-armed. */
  function PendingDrains(s: State): nat {
    s.winners + Bit(s.reactor == Posting) + Count(s.jobs, DrainJob) + Bit(s.reactor == Arming(false))
  }

  predicate InDrainLoop(s: State) {
    s.reactor.Looping? || s.reactor.Holding?
  }

  /** Nothing is queued, or a drain is queued, arming or in its loop. */
  predicate DrainComing(s: State) {
    Queued(s) == [] || 0 < PendingDrains(s) || InDrainLoop(s)
  }

  /** `trace` is an execution: each state follows from the one before by one enabled action. */
  ghost predicate IsRun(trace: seq<State>, actions: seq<Action>) {
    && |trace| == |actions| + 1
    && forall i :: 0 <= i < |actions| ==> Enabled(trace[i], actions[i]) && trace[i + 1] == Apply(trace[i], actions[i])
  }

  /** A state some interleaving reaches from an installed pump with room in its queue. */
  ghost predicate Reachable(s: State) {
    exists trace, actions :: IsRun(trace, actions) && trace[|actions|] == s && Fresh(trace[0])
  }

  ghost predicate Fresh(s: State) {
    0 < s.history.q.capacity && s == Start(s.history.q.capacity, s.setup)
  }

  // ---- The invariant ----

  /** Something was published after the callback was taken away, so nobody was told of it. */
  predicate SilentlyPublished(s: State) {
    s.stop != Running && s.marks.publishedAtClear < |Published(s)|
  }

  ghost predicate QueueSound(s: State) {
    && 0 < s.history.q.capacity && s.history.q.policy == s.setup.policy
    && Q.Accounted(s.history) && Q.Numbered(Published(s))
    && (s.stop != Running ==> s.marks.publishedAtClear <= |Published(s)|)
  }

  predicate FlagSound(s: State) {
    && Bit(s.scheduled) <= PendingDrains(s) <= 1
    && (PendingDrains(s) == 1 && !s.scheduled ==> s.marks.rearmedByFinal)
  }

  predicate WakeupSound(s: State) {
    Queued(s) != [] ==>
      0 < s.notifying || s.reactor == Notifying || 0 < PendingDrains(s) || InDrainLoop(s) || SilentlyPublished(s)
  }

  /** The threads are joined before the final job is posted; the reactor publishes only between batches. */
  predicate ProducersSound(s: State) {
    && (s.stop == ObservationStopped || Posted(s.stop) ==> s.notifying == 0 && s.winners == 0)
    && (s.reactor == Notifying || s.reactor == Posting ==> s.setup.reactorSource && s.batch == 0)
    && (Posted(s.stop) ==> s.marks.publishedAtPost <= |Published(s)|)
    && (Posted(s.stop) && !s.setup.reactorSource ==> s.marks.publishedAtPost == |Published(s)|)
  }

  predicate InFinalJob(s: State) {
    || ((s.reactor.Arming? || s.reactor.Looping? || s.reactor.Holding?) && s.reactor.final)
    || s.reactor == Flushing
    || s.reactor == Fencing
  }

  /** The final job's own drain loop has come to its end. */
  predicate TailDrained(s: State) {
    s.setup.tail && (s.reactor == Flushing || s.reactor == Fencing || s.fence)
  }

  predicate FinalSound(s: State) {
    && Count(s.jobs, FinalJob) + Bit(InFinalJob(s)) + Bit(s.fence) == Bit(Posted(s.stop))
    && (s.stop == Returned ==> s.fence)
    && (s.marks.rearmedByFinal ==> Posted(s.stop) && Count(s.jobs, FinalJob) == 0 && s.reactor != Arming(true))
    && (InFinalJob(s) && s.reactor != Fencing ==> s.setup.tail)
  }

  /** Once the final job is in a batch, no job is ever posted again. */
  predicate BatchSound(s: State) {
    && s.batch <= |s.jobs|
    && (s.marks.sealed ==> Posted(s.stop) && s.batch == |s.jobs| && s.reactor != Notifying && s.reactor != Posting)
    && (!s.marks.sealed ==> FinalJob !in s.jobs[..s.batch] && !InFinalJob(s) && !s.fence)
  }

  /** Without a source on the reactor thread, the final job is the last one ever posted. */
  predicate OrderSound(s: State) {
    Posted(s.stop) && !s.setup.reactorSource ==>
      && (if Count(s.jobs, FinalJob) == 0 then s.jobs == [] else s.jobs != [] && s.jobs[|s.jobs| - 1] == FinalJob)
      && (s.fence ==> s.reactor == Idle)
  }

  /** A drain that was on its way when the final job was posted is there until it has emptied the queue. */
  predicate ComingSound(s: State) {
    Posted(s.stop) && !s.setup.reactorSource && s.marks.comingAtPost ==> DrainComing(s)
  }

  /** The items the logger was given, in order. */
  function Consumed(commands: seq<Feed.Command>): seq<Item> {
    if commands == [] then []
    else
      var c := commands[|commands| - 1];
      Consumed(commands[..|commands| - 1]) + if c.Take? then [c.item] else []
  }

  function Held(s: State): seq<Item> {
    if s.reactor.Holding? then [s.reactor.item] else []
  }

  ghost predicate LoggerSound(s: State) {
    Consumed(s.commands) + Held(s) == s.history.delivered
  }

  predicate QuietAfter(flags: Feed.Flags, commands: seq<Feed.Command>) {
    var feed := Feed.Run(flags, commands);
    feed.move.None? && feed.scroll.None?
  }

  predicate NothingPending(s: State) {
    QuietAfter(s.setup.flags, s.commands)
  }

  /** What the final drain left behind: everything published by its end was handed out, and nothing more is
      handed out afterwards. */
  ghost predicate TailCut(s: State) {
    TailDrained(s) ==>
      && s.marks.publishedAtPost <= s.marks.publishedAtDrain <= |Published(s)|
      && (!s.setup.reactorSource ==> s.marks.publishedAtDrain == |Published(s)|)
      && Q.Accounts(s.setup.policy, s.history.delivered, Published(s)[..s.marks.publishedAtDrain])
  }

  /** After the final drain nothing is in the reactor's hand, nothing is pending once it has flushed, and while
      there is a job left nothing is queued. */
  predicate TailQuiet(s: State) {
    TailDrained(s) ==>
      && !s.reactor.Holding?
      && (s.reactor != Flushing ==> NothingPending(s))
      && (s.reactor != Idle || s.batch != 0 || !s.setup.reactorSource ==> Queued(s) == [])
  }

  ghost predicate Sound(s: State) {
    && QueueSound(s) && FlagSound(s) && WakeupSound(s) && ProducersSound(s) && FinalSound(s) && BatchSound(s)
    && OrderSound(s) && ComingSound(s) && LoggerSound(s) && TailCut(s) && TailQuiet(s)
  }

  // ---- Every step keeps it ----

  function PublishedBy(a: Action): seq<Event> {
    match a
    case Publish(e) => [e]
    case PublishOnReactor(e) => [e]
    case _ => []
  }

  lemma StepHistory(s: State, a: Action)
    requires Enabled(s, a)
    ensures Apply(s, a).history ==
      if PublishedBy(a) != [] then Q.Step(s.history, Q.Publish(PublishedBy(a)[0]))
      else if a.PopItem? then Q.Step(s.history, Q.Pop) else s.history
    ensures Published(Apply(s, a)) == Published(s) + PublishedBy(a)
    ensures Apply(s, a).setup == s.setup
  {
    hide Q.Enqueued;
  }

  lemma StepStop(s: State, a: Action)
    requires Enabled(s, a)
    ensures Apply(s, a).marks.publishedAtClear == if a.ClearNotify? then |Published(s)| else s.marks.publishedAtClear
    ensures Apply(s, a).marks.publishedAtPost == if a.PostFinal? then |Published(s)| else s.marks.publishedAtPost
    ensures Apply(s, a).marks.comingAtPost == if a.PostFinal? then DrainComing(s) else s.marks.comingAtPost
    ensures Apply(s, a).stop == match a
      case ClearNotify => NotifyCleared
      case StopObservation => ObservationStopped
      case PostFinal => FinalPosted
      case ReturnFromStop => Returned
      case _ => s.stop
  {
    hide Q.Enqueued, Q.Step, PendingDrains;
  }

  lemma StepQueue(s: State, a: Action)
    requires QueueSound(s) && Enabled(s, a)
    ensures QueueSound(Apply(s, a))
  {
    StepHistory(s, a);
    StepStop(s, a);
    hide Apply, Q.Accounted;
    if PublishedBy(a) != [] {
      var e := PublishedBy(a)[0];
      assert Q.Numbered(Published(s) + [e]);
      Q.AccountsPublish(s.history, e);
    } else if a.PopItem? {
      Q.AccountsPop(s.history);
    }
  }

  lemma {:induction false} CountPush(jobs: seq<Job>, pushed: Job, job: Job)
    ensures Count(jobs + [pushed], job) == Count(jobs, job) + Bit(pushed == job)
  {
    if jobs != [] {
      assert (jobs + [pushed])[1..] == jobs[1..] + [pushed];
      CountPush(jobs[1..], pushed, job);
    }
  }

  /** The job an action posts. */
  function Posts(a: Action): Option<Job> {
    match a
    case Post => Some(DrainJob)
    case PostOnReactor => Some(DrainJob)
    case PostTick(now) => Some(TickJob(now))
    case PostFinal => Some(FinalJob)
    case _ => None
  }

  lemma StepJobs(s: State, a: Action)
    requires Enabled(s, a)
    ensures Apply(s, a).jobs ==
      if a.TakeJob? then s.jobs[1..] else if Posts(a).Some? then s.jobs + [Posts(a).value] else s.jobs
    ensures Apply(s, a).batch == if a.TakeBatch? then |s.jobs| else if a.TakeJob? then s.batch - 1 else s.batch
  {
    hide Q.Enqueued, Q.Step, PendingDrains;
  }

  lemma StepCount(s: State, a: Action, job: Job)
    requires Enabled(s, a)
    ensures Count(Apply(s, a).jobs, job) ==
      Count(s.jobs, job) + Bit(Posts(a) == Some(job)) - Bit(a.TakeJob? && s.jobs[0] == job)
  {
    StepJobs(s, a);
    if Posts(a).Some? {
      CountPush(s.jobs, Posts(a).value, job);
    }
  }

  /** How one step moves the number of pending drains. */
  lemma StepPending(s: State, a: Action)
    requires Enabled(s, a)
    ensures PendingDrains(Apply(s, a)) ==
      PendingDrains(s) + Bit((a.CompareExchange? || a.CompareExchangeOnReactor?) && !s.scheduled)
        - Bit(a == Rearm && !s.reactor.final)
  {
    hide Q.Enqueued, Q.Step;
    StepCount(s, a, DrainJob);
    hide Count, DrainComing;
  }

  lemma StepProducers(s: State, a: Action)
    requires ProducersSound(s) && BatchSound(s) && Enabled(s, a)
    ensures ProducersSound(Apply(s, a))
  {
    StepHistory(s, a);
    hide Q.Enqueued, Q.Step, PendingDrains;
  }

  lemma StepBatch(s: State, a: Action)
    requires ProducersSound(s) && BatchSound(s) && FinalSound(s) && Enabled(s, a)
    ensures BatchSound(Apply(s, a))
  {
    StepJobs(s, a);
    var s' := Apply(s, a);
    hide Q.Enqueued, Q.Step, PendingDrains, Count;
    if a.TakeJob? {
      assert s.jobs[..s.batch] == [s.jobs[0]] + s'.jobs[..s'.batch];
    } else if !a.TakeBatch? {
      assert s'.jobs[..s'.batch] == s.jobs[..s.batch];
    } else if !s'.marks.sealed {
      NoFinalYet(s.jobs);
      assert s'.jobs[..s'.batch] == s.jobs;
    }
  }

  lemma {:induction false} NoFinalYet(jobs: seq<Job>)
    ensures Count(jobs, FinalJob) == 0 <==> FinalJob !in jobs
  {
    if jobs != [] {
      NoFinalYet(jobs[1..]);
      assert jobs == [jobs[0]] + jobs[1..];
    }
  }

  lemma StepFlag(s: State, a: Action)
    requires FlagSound(s) && FinalSound(s) && ProducersSound(s) && BatchSound(s) && Enabled(s, a)
    ensures FlagSound(Apply(s, a))
  {
    StepPending(s, a);
    if s.marks.rearmedByFinal { NoCompareExchangeAfterFinal(s, a); }
    hide Q.Enqueued, Q.Step, PendingDrains, Count;
  }

  /** By the time the final job re-arms the flag, nobody is left to win it. */
  lemma NoCompareExchangeAfterFinal(s: State, a: Action)
    requires FinalSound(s) && ProducersSound(s) && BatchSound(s) && Enabled(s, a)
    requires s.marks.rearmedByFinal
    ensures !a.CompareExchange? && !a.CompareExchangeOnReactor?
  {
  }

  lemma StepFinal(s: State, a: Action)
    requires FinalSound(s) && Enabled(s, a)
    ensures FinalSound(Apply(s, a))
  {
    StepCount(s, a, FinalJob);
    hide Q.Enqueued, Q.Step, PendingDrains, Count;
  }

  lemma StepWakeup(s: State, a: Action)
    requires QueueSound(s) && WakeupSound(s) && FlagSound(s) && Enabled(s, a)
    ensures WakeupSound(Apply(s, a))
  {
    StepPending(s, a);
    hide PendingDrains, Q.Accounted;
  }

  lemma {:induction false} CountOfLast(jobs: seq<Job>, job: Job)
    requires jobs != [] && jobs[|jobs| - 1] == job
    ensures 1 <= Count(jobs, job) && (Count(jobs, job) == 1 && jobs[0] == job ==> jobs == [job])
  {
    if 1 < |jobs| { CountOfLast(jobs[1..], job); }
  }

  lemma StepFence(s: State, a: Action)
    requires Enabled(s, a)
    ensures Apply(s, a).fence ==> s.fence || (s.reactor == Fencing && Apply(s, a).reactor == Idle)
    ensures s.fence && s.jobs == [] && s.reactor == Idle && !s.setup.reactorSource ==> Apply(s, a).reactor == Idle
  {
    hide Q.Enqueued, Q.Step, PendingDrains;
  }

  lemma StepOrder(s: State, a: Action)
    requires OrderSound(s) && FinalSound(s) && ProducersSound(s) && Enabled(s, a)
    ensures OrderSound(Apply(s, a))
  {
    StepJobs(s, a);
    StepCount(s, a, FinalJob);
    StepStop(s, a);
    StepHistory(s, a);
    if s.jobs != [] && s.jobs[|s.jobs| - 1] == FinalJob { CountOfLast(s.jobs, FinalJob); }
    if a.PostFinal? { CountOfLast(Apply(s, a).jobs, FinalJob); }
    StepFence(s, a);
    hide Apply, Count;
  }

  lemma StepComing(s: State, a: Action)
    requires ComingSound(s) && ProducersSound(s) && Enabled(s, a)
    ensures ComingSound(Apply(s, a))
  {
    StepPending(s, a);
    hide PendingDrains;
  }

  lemma ConsumedPush(commands: seq<Feed.Command>, c: Feed.Command)
    ensures Consumed(commands + [c]) == Consumed(commands) + if c.Take? then [c.item] else []
  {
    assert (commands + [c])[..|commands|] == commands;
  }

  /** What the reactor asks of the logger in one step. */
  function Told(s: State, a: Action): seq<Feed.Command>
    requires Enabled(s, a)
  {
    match a
    case ConsumeHeld => [Feed.Take(s.reactor.item)]
    case FlushFeed => [Feed.FlushNow]
    case TakeJob => if s.jobs[0].TickJob? then [Feed.TickNow(s.jobs[0].now)] else []
    case _ => []
  }

  lemma StepCommands(s: State, a: Action)
    requires Enabled(s, a)
    ensures Apply(s, a).commands == s.commands + Told(s, a)
  {
    hide Q.Enqueued, Q.Step, PendingDrains;
  }

  lemma StepHeld(s: State, a: Action)
    requires Enabled(s, a)
    ensures Held(Apply(s, a)) == if a.PopItem? then [Queued(s)[0]] else if a.ConsumeHeld? then [] else Held(s)
    ensures Apply(s, a).history.delivered == s.history.delivered + if a.PopItem? then [Queued(s)[0]] else []
  {
    hide PendingDrains;
  }

  lemma LoggerMoves(consumed: seq<Item>, held: seq<Item>, told: seq<Item>, popped: seq<Item>, delivered: seq<Item>)
    requires consumed + held == delivered
    requires told == [] || (told == held && popped == [])
    requires popped == [] || held == []
    ensures consumed + told + (if popped != [] then popped else if told != [] then [] else held) == delivered + popped
  {
    assert delivered + [] == delivered && consumed + [] == consumed;
  }

  function Items(commands: seq<Feed.Command>): seq<Item> {
    if commands != [] && commands[0].Take? then [commands[0].item] else []
  }

  lemma ConsumedTold(s: State, a: Action)
    requires Enabled(s, a)
    ensures Consumed(s.commands + Told(s, a)) == Consumed(s.commands) + Items(Told(s, a))
  {
    var told := Told(s, a);
    if told == [] {
      assert s.commands + told == s.commands;
      assert Consumed(s.commands) + [] == Consumed(s.commands);
    } else {
      ConsumedPush(s.commands, told[0]);
    }
  }

  lemma StepLogger(s: State, a: Action)
    requires LoggerSound(s) && Enabled(s, a)
    ensures LoggerSound(Apply(s, a))
  {
    StepCommands(s, a);
    StepHeld(s, a);
    ConsumedTold(s, a);
    var popped := if a.PopItem? then [Queued(s)[0]] else [];
    assert a.ConsumeHeld? ==> Held(s) == [s.reactor.item];
    LoggerMoves(Consumed(s.commands), Held(s), Items(Told(s, a)), popped, s.history.delivered);
    hide Apply, Consumed, Held;
  }

  /** The end of the final drain: the queue is empty, so what was handed out tells the whole story so far. */
  lemma LeavingCuts(s: State)
    requires QueueSound(s) && ProducersSound(s) && FinalSound(s) && Queued(s) == [] && InFinalJob(s)
    ensures Q.Accounts(s.setup.policy, s.history.delivered, Published(s)[..|Published(s)|])
    ensures s.marks.publishedAtPost <= |Published(s)|
  {
    assert s.history.delivered + [] == s.history.delivered;
    assert Published(s)[..|Published(s)|] == Published(s);
  }

  lemma StepTailCut(s: State, a: Action)
    requires Sound(s) && Enabled(s, a)
    ensures TailCut(Apply(s, a))
  {
    StepHistory(s, a);
    StepStop(s, a);
    StepHeld(s, a);
    if a.LeaveLoop? && s.reactor.final { LeavingCuts(s); }
    assert s.marks.publishedAtDrain <= |Published(s)| ==>
      (Published(s) + PublishedBy(a))[..s.marks.publishedAtDrain] == Published(s)[..s.marks.publishedAtDrain];
    hide Q.Accounts, Q.Enqueued, Q.Step, PendingDrains, QueueSound, LoggerSound, WakeupSound, FlagSound;
  }

  /** A flush leaves nothing pending, and a tick adds nothing. */
  lemma StaysQuiet(flags: Feed.Flags, commands: seq<Feed.Command>, c: Feed.Command)
    requires c.FlushNow? || (c.TickNow? && QuietAfter(flags, commands))
    ensures QuietAfter(flags, commands + [c])
  {
    Feed.RunPush(flags, commands, c);
    hide Feed.Run;
  }

  lemma StepTailQuiet(s: State, a: Action)
    requires TailQuiet(s) && FinalSound(s) && BatchSound(s) && ProducersSound(s) && Enabled(s, a)
    ensures TailQuiet(Apply(s, a))
  {
    hide QuietAfter, PendingDrains, Q.Enqueued;
    match a
    case FlushFeed => StaysQuiet(s.setup.flags, s.commands, Feed.FlushNow);
    case TakeJob =>
      if s.jobs[0].TickJob? && QuietAfter(s.setup.flags, s.commands) {
        StaysQuiet(s.setup.flags, s.commands, Feed.TickNow(s.jobs[0].now));
      }
    case _ =>
  }

  lemma StepSound(s: State, a: Action)
    requires Sound(s) && Enabled(s, a)
    ensures Sound(Apply(s, a))
  {
    StepQueue(s, a);
    StepFlag(s, a);
    StepWakeup(s, a);
    StepProducers(s, a);
    StepFinal(s, a);
    StepBatch(s, a);
    StepOrder(s, a);
    StepComing(s, a);
    StepLogger(s, a);
    StepTailCut(s, a);
    StepTailQuiet(s, a);
    hide Enabled, Apply, QueueSound, FlagSound, WakeupSound, ProducersSound, FinalSound, BatchSound, OrderSound,
      ComingSound, LoggerSound, TailCut, TailQuiet;
  }

  lemma FreshHistory(s: State)
    requires Fresh(s)
    ensures QueueSound(s) && LoggerSound(s) && Queued(s) == [] && !TailDrained(s)
  {
    assert Published(s) == [] && Queued(s) == [] && s.history.delivered == [];
    assert Q.Accounts(s.setup.policy, [], []);
  }

  lemma FreshIsSound(s: State)
    requires Fresh(s)
    ensures Sound(s)
  {
    hide QueueSound, LoggerSound, NothingPending, TailDrained, Q.Accounts, Consumed, Q.Initial;
    FreshHistory(s);
  }

  lemma {:induction false} RunSound(trace: seq<State>, actions: seq<Action>, i: nat)
    requires IsRun(trace, actions) && Fresh(trace[0]) && i <= |actions|
    ensures Sound(trace[i])
  {
    hide Fresh, Sound, Enabled, Apply;
    if i == 0 {
      FreshIsSound(trace[0]);
    } else {
      RunSound(trace, actions, i - 1);
      StepSound(trace[i - 1], actions[i - 1]);
    }
  }

  lemma ReachableIsSound(s: State)
    requires Reachable(s)
    ensures Sound(s)
  {
    var trace, actions :| IsRun(trace, actions) && trace[|actions|] == s && Fresh(trace[0]);
    RunSound(trace, actions, |actions|);
  }

  // ---- What the protocol guarantees ----

  /** While the callback is installed, an item in the queue always has somebody on the way to it. */
  lemma NoLostWakeup(s: State)
    requires Reachable(s) && s.stop == Running && Queued(s) != []
    ensures 0 < s.notifying || s.reactor == Notifying || 0 < PendingDrains(s) || InDrainLoop(s)
  {
    ReachableIsSound(s);
  }

  /** At most one drain is ever on its way, and the flag is up exactly while one is, until the final job's own
      re-arm. */
  lemma AtMostOneDrainQueued(s: State)
    requires Reachable(s)
    ensures PendingDrains(s) <= 1 && (s.scheduled ==> PendingDrains(s) == 1)
    ensures !s.marks.rearmedByFinal ==> (s.scheduled <==> PendingDrains(s) == 1)
    ensures s.marks.rearmedByFinal ==> Posted(s.stop)
  {
    ReachableIsSound(s);
  }

  /** When a draining stop has returned, every event published before the final job was posted has been handed
      to the logger, once and in order, or is covered by what the queue's policy allows; so has everything
      published up to the end of the final drain, which is all there is unless the reactor itself publishes. */
  lemma StopDrainsTheTail(s: State)
    requires Reachable(s) && s.setup.tail && s.stop == Returned
    ensures s.marks.publishedAtPost <= s.marks.publishedAtDrain <= |Published(s)|
    ensures !s.setup.reactorSource ==> s.marks.publishedAtDrain == |Published(s)|
    ensures Q.Accounts(s.setup.policy, Consumed(s.commands), Published(s)[..s.marks.publishedAtDrain])
  {
    ReachableIsSound(s);
    assert Consumed(s.commands) + [] == Consumed(s.commands);
  }

  predicate AllEvents(items: seq<Item>) {
    forall k :: 0 <= k < |items| ==> items[k].Ev?
  }

  /** From the return of a draining stop on, both coalescers are empty and nothing is in the reactor's hand;
      what is queued can only have been published on the reactor since the final drain, and there is no job
      left to hand it out. Without gap markers a never-dropping queue's logger was given exactly the events. */
  lemma StopLeavesNothing(s: State)
    requires Reachable(s) && s.setup.tail && s.stop == Returned
    ensures NothingPending(s) && Consumed(s.commands) == s.history.delivered
    ensures Queued(s) == [] || (s.setup.reactorSource && s.reactor == Idle && s.jobs == [])
    ensures s.setup.policy == Q.NeverDrop && AllEvents(Consumed(s.commands)) ==>
      && |Consumed(s.commands)| == s.marks.publishedAtDrain <= |Published(s)|
      && forall k :: 0 <= k < s.marks.publishedAtDrain ==> Consumed(s.commands)[k] == Ev(Published(s)[k])
  {
    ReachableIsSound(s);
    StopDrainsTheTail(s);
    assert Consumed(s.commands) + [] == Consumed(s.commands);
    if s.setup.policy == Q.NeverDrop && AllEvents(Consumed(s.commands)) {
      Q.NoGapNoLoss(Consumed(s.commands), Published(s)[..s.marks.publishedAtDrain]);
    }
  }

  /** A drain that runs behind the fence of a draining stop finds an empty queue. */
  lemma StragglerFindsNothing(s: State)
    requires Reachable(s) && s.setup.tail && s.fence && (s.reactor == Arming(false) || s.reactor.Looping?)
    ensures Queued(s) == []
  {
    ReachableIsSound(s);
  }

  /** Only a source on the reactor thread can leave a drain behind the fence. */
  lemma NoStragglerWithoutReactorSource(s: State)
    requires Reachable(s) && !s.setup.reactorSource && s.fence
    ensures s.jobs == [] && s.notifying == 0 && PendingDrains(s) == 0 && s.reactor == Idle
  {
    ReachableIsSound(s);
    hide QueueSound, WakeupSound, FlagSound, LoggerSound, TailCut, TailQuiet, ComingSound, Reachable;
  }

  // ---- Everything is delivered once the threads have run ----

  predicate IsProgress(a: Action) {
    !(a.Publish? || a.PublishOnReactor? || a.PostTick? || a.ClearNotify? || a.StopObservation? || a.PostFinal? || a.ReturnFromStop?)
  }

  function ReactorWork(r: Reactor): nat {
    match r
    case Idle => 0
    case Notifying => 7
    case Posting => 6
    case Arming(final) => if final then 5 else 3
    case Looping(final) => if final then 3 else 1
    case Holding(final, _) => if final then 4 else 2
    case Flushing => 2
    case Fencing => 1
  }

  /** The steps the threads still have to take for what has been published so far. */
  function Work(s: State): int {
    7 * s.notifying + 6 * s.winners + 2 * |s.jobs| - s.batch + 3 * Count(s.jobs, DrainJob) + 5 * Count(s.jobs, FinalJob)
      + ReactorWork(s.reactor) + 2 * |Queued(s)|
  }

  /** What one step of progress does to the reactor's part of the work and to the queue. */
  lemma ReactorWorks(s: State, a: Action)
    requires Enabled(s, a) && IsProgress(a) && !a.TakeJob?
    ensures ReactorWork(Apply(s, a).reactor) + 2 * |Queued(Apply(s, a))|
          + (if a.CompareExchange? || a.Post? || a.TakeBatch? then 0 else if a.PostOnReactor? then 6 else 1)
         <= ReactorWork(s.reactor) + 2 * |Queued(s)|
  {
    StepHistory(s, a);
    hide Q.Enqueued, PendingDrains;
  }

  lemma NotifiersWork(s: State, a: Action)
    requires Enabled(s, a) && IsProgress(a)
    ensures 7 * Apply(s, a).notifying + 6 * Apply(s, a).winners
         <= 7 * s.notifying + 6 * s.winners - Bit(a.CompareExchange?) - 6 * Bit(a.Post?)
  {
    hide Q.Enqueued, Q.Step, PendingDrains;
  }

  lemma JobsWork(s: State, a: Action)
    requires Enabled(s, a) && a.TakeJob?
    ensures Apply(s, a).notifying == s.notifying && Apply(s, a).winners == s.winners && Queued(Apply(s, a)) == Queued(s)
    ensures s.jobs[0] == DrainJob ==> ReactorWork(Apply(s, a).reactor) == 3
    ensures s.jobs[0] == FinalJob ==> ReactorWork(Apply(s, a).reactor) <= 5
    ensures s.jobs[0].TickJob? ==> ReactorWork(Apply(s, a).reactor) == 0
  {
  }

  lemma ProgressWorks(s: State, a: Action)
    requires Enabled(s, a) && IsProgress(a)
    ensures Work(Apply(s, a)) < Work(s)
    ensures Published(Apply(s, a)) == Published(s) && Apply(s, a).stop == s.stop && Apply(s, a).setup == s.setup
  {
    StepJobs(s, a);
    StepCount(s, a, DrainJob);
    StepCount(s, a, FinalJob);
    NotifiersWork(s, a);
    StepHistory(s, a);
    StepStop(s, a);
    if a.TakeJob? { JobsWork(s, a); } else { ReactorWorks(s, a); }
    hide Count, Apply, ReactorWork;
  }

  lemma WorkIsNatural(s: State)
    requires s.batch <= |s.jobs|
    ensures 0 <= Work(s)
  {
  }

  ghost predicate Quiescent(s: State) {
    forall a :: IsProgress(a) ==> !Enabled(s, a)
  }

  lemma QuiescentShape(s: State)
    requires Quiescent(s) && Q.Bounded(s.history)
    ensures s.notifying == 0 && s.winners == 0 && s.jobs == [] && s.reactor == Idle
  {
    assert !Enabled(s, CompareExchange) && !Enabled(s, Post) && !Enabled(s, TakeJob) && !Enabled(s, TakeBatch);
    assert !Enabled(s, CompareExchangeOnReactor) && !Enabled(s, PostOnReactor);
    assert !Enabled(s, Rearm) && !Enabled(s, PopItem) && !Enabled(s, ConsumeHeld);
    assert !Enabled(s, LeaveLoop) && !Enabled(s, FlushFeed) && !Enabled(s, Fulfil);
  }

  /** At rest, with the callback installed, everything published has reached the logger. */
  lemma QuiescentMeansDelivered(s: State)
    requires Reachable(s) && Quiescent(s) && s.stop == Running
    ensures Queued(s) == [] && Q.Accounts(s.setup.policy, Consumed(s.commands), Published(s))
  {
    ReachableIsSound(s);
    QuiescentShape(s);
    assert PendingDrains(s) == 0;
    assert Consumed(s.commands) + [] == Consumed(s.commands);
    assert s.history.delivered + [] == s.history.delivered;
  }

  lemma Extend(trace: seq<State>, actions: seq<Action>, a: Action)
    requires IsRun(trace, actions) && Enabled(trace[|actions|], a)
    ensures IsRun(trace + [Apply(trace[|actions|], a)], actions + [a])
  {
  }

  lemma FreshIsReachable(s: State)
    requires Fresh(s)
    ensures Reachable(s)
  {
    var none: seq<Action> := [];
    assert IsRun([s], none) && Fresh([s][0]) && [s][|none|] == s;
  }

  lemma ReachableStep(s: State, a: Action)
    requires Reachable(s) && Enabled(s, a)
    ensures Reachable(Apply(s, a))
  {
    var trace, actions :| IsRun(trace, actions) && trace[|actions|] == s && Fresh(trace[0]);
    Extend(trace, actions, a);
    var trace', actions' := trace + [Apply(s, a)], actions + [a];
    assert trace'[|actions'|] == Apply(s, a) && Fresh(trace'[0]);
  }

  /** Some interleaving leads from one state to the other. */
  ghost predicate Leads(s: State, t: State) {
    exists trace, actions :: IsRun(trace, actions) && trace[0] == s && trace[|actions|] == t
  }

  lemma LeadsToItself(s: State)
    ensures Leads(s, s)
  {
    var none: seq<Action> := [];
    assert IsRun([s], none) && [s][0] == s && [s][|none|] == s;
  }

  lemma LeadsFurther(s: State, t: State, a: Action)
    requires Leads(s, t) && Enabled(t, a)
    ensures Leads(s, Apply(t, a))
  {
    var trace, actions :| IsRun(trace, actions) && trace[0] == s && trace[|actions|] == t;
    Extend(trace, actions, a);
    var trace', actions' := trace + [Apply(t, a)], actions + [a];
    assert trace'[0] == s && trace'[|actions'|] == Apply(t, a);
  }

  /** From any reachable state, with nothing new published, the threads come to rest after at most
      `Work` steps in whatever order they run, having delivered everything. */
  lemma {:induction false} EverythingIsDelivered(s: State, actions: seq<Action>, trace: seq<State>)
    requires Reachable(s) && s.stop == Running
    requires IsRun(trace, actions) && trace[0] == s && forall i :: 0 <= i < |actions| ==> IsProgress(actions[i])
    ensures var end := trace[|actions|];
      && 0 <= Work(end) <= Work(s) - |actions|
      && (Quiescent(end) ==> Queued(end) == [] && Q.Accounts(s.setup.policy, Consumed(end.commands), Published(s)))
    ensures Reachable(trace[|actions|]) && trace[|actions|].stop == Running
    ensures Published(trace[|actions|]) == Published(s) && trace[|actions|].setup == s.setup
  {
    if actions != [] {
      var n := |actions| - 1;
      EverythingIsDelivered(s, actions[..n], trace[..n + 1]);
      ProgressWorks(trace[n], actions[n]);
      ReachableStep(trace[n], actions[n]);
    }
    ReachableIsSound(trace[|actions|]);
    WorkIsNatural(trace[|actions|]);
    if Quiescent(trace[|actions|]) {
      QuiescentMeansDelivered(trace[|actions|]);
    }
  }

  // ---- From the bus to the printed feed ----

  lemma {:induction false} ShownIsConsumed(flags: Feed.Flags, commands: seq<Feed.Command>)
    ensures Feed.AllShown(flags, commands) == ShownItems(flags, Consumed(commands))
  {
    if commands != [] {
      var n := |commands| - 1;
      ShownIsConsumed(flags, commands[..n]);
      if !commands[n].Take? {
        assert Feed.AllShown(flags, commands[..n]) + [] == Feed.AllShown(flags, commands[..n]);
        assert Consumed(commands[..n]) + [] == Consumed(commands[..n]);
      } else {
        assert (Consumed(commands[..n]) + [commands[n].item])[..|Consumed(commands[..n])|] == Consumed(commands[..n]);
      }
    }
  }

  function ShownItems(flags: Feed.Flags, items: seq<Item>): seq<Item> {
    if items == [] then []
    else ShownItems(flags, items[..|items| - 1]) + Feed.Shown(flags, Feed.Take(items[|items| - 1]))
  }

  /** Once a draining stop has returned, the printed lines are a grouping of exactly the visible part of what
      was published up to the end of its final drain: at least everything published before that job was
      posted, and everything at all unless the reactor itself publishes. */
  lemma TheFeedIsComplete(s: State) returns (groups: seq<seq<Item>>)
    requires Reachable(s) && s.setup.tail && s.stop == Returned
    ensures var feed := Feed.Run(s.setup.flags, s.commands);
      && Feed.Grouped(feed, groups, [])
      && Feed.Flatten(groups) == ShownItems(s.setup.flags, Consumed(s.commands))
    ensures s.marks.publishedAtPost <= s.marks.publishedAtDrain <= |Published(s)|
      && (!s.setup.reactorSource ==> s.marks.publishedAtDrain == |Published(s)|)
      && Q.Accounts(s.setup.policy, Consumed(s.commands), Published(s)[..s.marks.publishedAtDrain])
  {
    StopDrainsTheTail(s);
    StopLeavesNothing(s);
    ShownIsConsumed(s.setup.flags, s.commands);
    var g := Feed.FeedGroupsItsInput(s.setup.flags, s.commands);
    groups := g.groups;
    assert Feed.Flatten(groups) + [] == Feed.Flatten(groups);
  }

  ghost predicate TimeOrdered(events: seq<Event>) {
    forall i, j :: 0 <= i < j < |events| ==> events[i].timestamp <= events[j].timestamp
  }

  lemma {:induction false} AccountsInOrder(policy: Q.Policy, items: seq<Item>, events: seq<Event>)
    requires Q.Accounts(policy, items, events) && TimeOrdered(events)
    ensures Feed.InOrder(items)
  {
    if items != [] {
      var k := Q.CutOf(policy, items, events);
      var front := Q.Front(items);
      AccountsInOrder(policy, front, events[..k]);
      if Q.Last(items).Ev? {
        forall i | 0 <= i < |front| && front[i].Ev?
          ensures front[i].event.timestamp <= Q.Last(items).event.timestamp
        {
          Q.AccountedEventsWerePublished(policy, front, events[..k], front[i].event);
        }
      }
    }
  }

  lemma {:induction false} ShownInOrder(flags: Feed.Flags, items: seq<Item>)
    requires Feed.InOrder(items)
    ensures Feed.InOrder(ShownItems(flags, items))
    ensures forall e :: Ev(e) in ShownItems(flags, items) ==> Ev(e) in items
  {
    if items != [] {
      var front, last := items[..|items| - 1], items[|items| - 1];
      ShownInOrder(flags, front);
      var was := ShownItems(flags, front);
      forall i | 0 <= i < |was| && was[i].Ev? && last.Ev?
        ensures was[i].event.timestamp <= last.event.timestamp
      {
        assert Ev(was[i].event) in front;
      }
    }
  }

  lemma InOrderPrefix(items: seq<Item>, more: seq<Item>)
    requires Feed.InOrder(items + more)
    ensures Feed.InOrder(items)
  {
    assert forall i :: 0 <= i < |items| ==> (items + more)[i] == items[i];
  }

  /** Under every interleaving, events published in time order are printed in time order. */
  lemma TheFeedIsChronological(s: State)
    requires Reachable(s) && TimeOrdered(Published(s))
    ensures Feed.Chronological(Feed.Run(s.setup.flags, s.commands), Feed.Latest(Feed.AllShown(s.setup.flags, s.commands)))
  {
    ReachableIsSound(s);
    AccountsInOrder(s.setup.policy, s.history.delivered + Queued(s), Published(s));
    InOrderPrefix(s.history.delivered, Queued(s));
    InOrderPrefix(Consumed(s.commands), Held(s));
    ShownIsConsumed(s.setup.flags, s.commands);
    ShownInOrder(s.setup.flags, Consumed(s.commands));
    Feed.FeedIsChronological(s.setup.flags, s.commands);
  }

  // ---- Ticks ----

  function TicksPosted(actions: seq<Action>): seq<real> {
    if actions == [] then []
    else
      var last := actions[|actions| - 1];
      TicksPosted(actions[..|actions| - 1]) + if last.PostTick? then [last.now] else []
  }

  function TicksIn(jobs: seq<Job>): seq<real> {
    if jobs == [] then []
    else
      var last := jobs[|jobs| - 1];
      TicksIn(jobs[..|jobs| - 1]) + if last.TickJob? then [last.now] else []
  }

  function TicksTaken(commands: seq<Feed.Command>): seq<real> {
    if commands == [] then []
    else
      var last := commands[|commands| - 1];
      TicksTaken(commands[..|commands| - 1]) + if last.TickNow? then [last.now] else []
  }

  lemma TicksInPush(jobs: seq<Job>, job: Job)
    ensures TicksIn(jobs + [job]) == TicksIn(jobs) + if job.TickJob? then [job.now] else []
  {
    assert (jobs + [job])[..|jobs|] == jobs;
  }

  lemma {:induction false} TicksInPop(jobs: seq<Job>)
    requires jobs != []
    ensures TicksIn(jobs) == (if jobs[0].TickJob? then [jobs[0].now] else []) + TicksIn(jobs[1..])
  {
    if 1 < |jobs| {
      var front := jobs[..|jobs| - 1];
      TicksInPop(front);
      assert jobs[1..][..|jobs| - 2] == front[1..];
    } else {
      assert jobs[..0] == [] && jobs[1..] == [];
    }
  }

  lemma TicksTakenPush(commands: seq<Feed.Command>, c: Feed.Command)
    ensures TicksTaken(commands + [c]) == TicksTaken(commands) + if c.TickNow? then [c.now] else []
  {
    assert (commands + [c])[..|commands|] == commands;
  }

  lemma StepTicks(s: State, a: Action)
    requires Enabled(s, a)
    ensures TicksTaken(Apply(s, a).commands) + TicksIn(Apply(s, a).jobs)
      == TicksTaken(s.commands) + TicksIn(s.jobs) + if a.PostTick? then [a.now] else []
  {
    hide TicksIn, TicksTaken, Q.Step, Q.Enqueued, PendingDrains;
    match a
    case Post => TicksInPush(s.jobs, DrainJob);
    case PostOnReactor => TicksInPush(s.jobs, DrainJob);
    case PostTick(now) => TicksInPush(s.jobs, TickJob(now));
    case PostFinal => TicksInPush(s.jobs, FinalJob);
    case TakeJob =>
      TicksInPop(s.jobs);
      if s.jobs[0].TickJob? { TicksTakenPush(s.commands, Feed.TickNow(s.jobs[0].now)); }
    case ConsumeHeld => TicksTakenPush(s.commands, Feed.Take(s.reactor.item));
    case FlushFeed => TicksTakenPush(s.commands, Feed.FlushNow);
    case _ =>
  }

  /** In every run and at every moment of it, the ticks the logger was given, and then those among the jobs, are the
      ticks that were posted, in order. */
  lemma {:induction false} TicksArriveInOrder(trace: seq<State>, actions: seq<Action>, i: nat)
    requires IsRun(trace, actions) && Fresh(trace[0]) && i <= |actions|
    ensures TicksTaken(trace[i].commands) + TicksIn(trace[i].jobs) == TicksPosted(actions[..i])
  {
    if i > 0 {
      TicksArriveInOrder(trace, actions, i - 1);
      StepTicks(trace[i - 1], actions[i - 1]);
      assert actions[..i][..i - 1] == actions[..i - 1];
    }
  }

  /** Whether a publication wakes anybody: exactly with the callback installed, and unless the queue drops it. */
  lemma PublishWakesExactly(s: State, e: Event)
    requires NumberedNext(s.history, e)
    ensures Enabled(s, Publish(e)) ==>
      var t := Apply(s, Publish(e));
      t.notifying == s.notifying || t.notifying == s.notifying + 1
    ensures Enabled(s, Publish(e)) ==>
      var t := Apply(s, Publish(e));
      t.notifying == s.notifying + 1 <==>
        s.stop == Running && Q.Outcome(s.history.q, s.history.q.lastDelivered, e, t.history.q, true)
    ensures Enabled(s, PublishOnReactor(e)) ==>
      var t := Apply(s, PublishOnReactor(e));
      t.reactor == Notifying <==>
        s.stop == Running && Q.Outcome(s.history.q, s.history.q.lastDelivered, e, t.history.q, true)
  {
    Q.EnqueuedOutcome(s.history.q, e);
  }

  // ---- A drain that nobody disturbs ----

  /** The steps of a drain. */
  predicate DrainStep(a: Action) {
    a == Rearm || a == PopItem || a == ConsumeHeld || a == LeaveLoop
  }

  /** What a drain still has to hand over. */
  function Owed(s: State): seq<Item> {
    Held(s) + Queued(s)
  }

  function Takes(items: seq<Item>): seq<Feed.Command> {
    seq(|items|, i requires 0 <= i < |items| => Feed.Take(items[i]))
  }

  lemma TakesPush(before: seq<Feed.Command>, items: seq<Item>, item: Item, rest: seq<Item>)
    ensures before + Takes(items + [item]) == before + Takes(items) + [Feed.Take(item)]
    ensures items + [item] + rest == items + ([item] + rest)
  {
  }

  lemma TakesFirst(before: seq<Feed.Command>, item: Item, rest: seq<Item>)
    ensures before + Takes([item] + rest) == before + [Feed.Take(item)] + Takes(rest)
  {
  }

  /** What a run of these steps stands for at any moment: the flag is down, and what it has handed over and still
      owes is what was queued when it began. */
  ghost predicate Draining(start: State, s: State) {
    && s == start.(scheduled := s.scheduled, history := s.history, commands := s.commands, reactor := s.reactor, marks := s.marks)
    && s.commands + Takes(Owed(s)) == start.commands + Takes(Queued(start))
    && match s.reactor
       case Arming(_) => s == start
       case Looping(final) => !s.scheduled && start.reactor == Arming(final)
       case Holding(final, _) => !s.scheduled && start.reactor == Arming(final)
       case _ => !s.scheduled && Queued(s) == [] && s.reactor == if start.reactor == Arming(true) then Flushing else Idle
  }

  lemma DrainStepKeeps(start: State, s: State, a: Action)
    requires start.reactor.Arming? && Draining(start, s) && Enabled(s, a) && DrainStep(a)
    ensures Draining(start, Apply(s, a))
  {
    hide Takes;
    match a
    case Rearm =>
    case PopItem =>
      assert Queued(Apply(s, a)) == Queued(s)[1..];
      assert Owed(Apply(s, a)) == Owed(s);
    case ConsumeHeld =>
      assert Owed(Apply(s, a)) == Queued(s);
      TakesFirst(s.commands, s.reactor.item, Queued(s));
    case LeaveLoop =>
  }

  /** The steps of a drain, one after the other and however many there are, do what the pump's own Drain does: the
      flag is down, and everything that was queued is handed over in order. */
  lemma {:induction false} TheMachineDrains(trace: seq<State>, actions: seq<Action>)
    requires IsRun(trace, actions) && trace[0].reactor.Arming? && forall i :: 0 <= i < |actions| ==> DrainStep(actions[i])
    ensures var s, t := trace[0], trace[|actions|];
      && Draining(s, t)
      && (t.reactor == Idle || t.reactor == Flushing ==>
            !t.scheduled && Queued(t) == [] && t.commands == s.commands + Takes(Queued(s)))
  {
    if actions == [] {
      assert Owed(trace[0]) == Queued(trace[0]);
    } else {
      var n := |actions| - 1;
      TheMachineDrains(trace[..n + 1], actions[..n]);
      DrainStepKeeps(trace[0], trace[n], actions[n]);
    }
    var t := trace[|actions|];
    assert Queued(t) == [] && !t.reactor.Holding? ==> t.commands + Takes(Owed(t)) == t.commands;
  }

  /** The final job goes on to flush, as the pump's own FinalDrain does. */
  lemma TheMachineDrainsAndFlushes(trace: seq<State>, actions: seq<Action>)
    requires IsRun(trace, actions) && trace[0].reactor == Arming(true) && forall i :: 0 <= i < |actions| ==> DrainStep(actions[i])
    requires trace[|actions|].reactor == Flushing
    ensures var t := Apply(trace[|actions|], FlushFeed);
      && Queued(t) == [] && t.commands == trace[0].commands + Takes(Queued(trace[0])) + [Feed.FlushNow]
      && t.reactor == Fencing && NothingPending(t)
  {
    TheMachineDrains(trace, actions);
    StaysQuiet(trace[0].setup.flags, trace[|actions|].commands, Feed.FlushNow);
    hide QuietAfter, Takes;
  }

  function NextOfDrain(s: State): Action {
    match s.reactor
    case Arming(_) => Rearm
    case Holding(_, _) => ConsumeHeld
    case _ => if Queued(s) == [] then LeaveLoop else PopItem
  }

  /** A drain has exactly one next step, until it has left its loop. */
  lemma DrainGoesOn(s: State, a: Action)
    requires Q.Bounded(s.history) && (s.reactor.Arming? || InDrainLoop(s)) && DrainStep(a)
    ensures Enabled(s, a) <==> a == NextOfDrain(s)
  {
    hide NumberedNext;
    match s.reactor
    case Arming(_) =>
    case Holding(_, _) =>
    case Looping(_) =>
  }

  // ---- The code of the pump, run by one thread ----

  class LogPump {
    const subscription: Q.SubscriptionQueue
    const logger: Feed.EventLogger
    var scheduled: bool
    var posted: seq<Job>
    var error: Option<Error>

    ghost predicate Valid()
      reads subscription, logger, logger.coalescer, logger.scrollCoalescer
    {
      subscription.Valid() && logger.Valid()
    }

    ghost function Waiting(): seq<Item>
      requires subscription.Valid()
      reads subscription, subscription.buffer
    {
      subscription.Abstract().items
    }

    constructor (subscription: Q.SubscriptionQueue, logger: Feed.EventLogger)
      requires subscription.Valid() && logger.Valid()
      ensures Valid() && this.subscription == subscription && this.logger == logger
      ensures !scheduled && posted == [] && error == None
    {
      this.subscription, this.logger := subscription, logger;
      scheduled, posted, error := false, [], None;
    }

    /** `refusal` is the session's answer to the post: a closed session refuses, which lowers the flag again
        and is remembered if it is the first error. */
    method Schedule(refusal: Option<Error>)
      modifies this
      ensures old(scheduled) ==> unchanged(this)
      ensures !old(scheduled) && refusal.None? ==> scheduled && posted == old(posted) + [DrainJob] && error == old(error)
      ensures !old(scheduled) && refusal.Some? ==>
        !scheduled && posted == old(posted) && error == if old(error).Some? then old(error) else refusal
    {
      if scheduled {
        return;
      }
      scheduled := true;
      if refusal.Some? {
        scheduled := false;
        if error.None? { error := refusal; }
        return;
      }
      posted := posted + [DrainJob];
    }

    /** One turn of the drain loop; the recording sink may answer anything. */
    method DrainOne() returns (item: Option<Item>)
      requires Valid()
      modifies subscription, subscription.buffer, logger, logger.coalescer, logger.scrollCoalescer
      ensures Valid()
      ensures item.None? ==> old(Waiting()) == Waiting() == [] && logger.commands == old(logger.commands)
      ensures item.Some? ==> old(Waiting()) == [item.value] + Waiting()
      ensures item.Some? ==> logger.commands == old(logger.commands) + [Feed.Take(item.value)]
    {
      item := subscription.TryPopItem();
      if item.Some? {
        var written: bool := *;
        logger.ConsumeItem(item.value, written);
      }
    }

    /** Re-arms first, then hands the logger everything queued, in order. */
    method Drain()
      requires Valid()
      modifies this`scheduled, subscription, subscription.buffer, logger, logger.coalescer, logger.scrollCoalescer
      ensures Valid() && !scheduled && Waiting() == []
      ensures logger.commands == old(logger.commands) + Takes(old(Waiting()))
    {
      assert Takes([]) == [];
      hide Takes, Waiting, Feed.Run, Q.SubscriptionQueue.Valid, Feed.EventLogger.Valid, Feed.EventLogger.Abstract;
      scheduled := false;
      ghost var all := Waiting();
      ghost var done: seq<Item> := [];
      while true
        invariant Valid() && !scheduled
        invariant done + Waiting() == all
        invariant logger.commands == old(logger.commands) + Takes(done)
        decreases |Waiting()|
      {
        var item := DrainOne();
        if item.None? {
          break;
        }
        TakesPush(old(logger.commands), done, item.value, Waiting());
        done := done + [item.value];
      }
      assert done == all;
    }

    /** The job a draining stop posts last: nothing is queued and nothing is pending when it ends. */
    method FinalDrain()
      requires Valid()
      modifies this`scheduled, subscription, subscription.buffer, logger, logger.coalescer, logger.scrollCoalescer
      ensures Valid() && Waiting() == []
      ensures logger.commands == old(logger.commands) + Takes(old(Waiting())) + [Feed.FlushNow]
      ensures logger.coalescer.pending.None? && logger.scrollCoalescer.pending.None?
    {
      Drain();
      logger.FlushAll();
    }
  }
}
