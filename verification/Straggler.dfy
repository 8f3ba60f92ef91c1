/** A drain can run behind the fence of a draining stop: the reactor publishes, the callback is cleared, the
    final job is posted, and only then does the reactor's own notification post a drain. */
module Straggler {
  import opened Events
  import Q = EventQueue
  import opened LogPump

  lemma ReactorPublishes(e: Event, capacity: nat, setup: Setup) returns (s: State)
    requires e.sequence == 1 && 0 < capacity && setup.reactorSource
    ensures Reachable(s) && s == Start(capacity, setup).(history := s.history, reactor := Notifying)
    ensures Queued(s) == [Ev(e)] && s.history.q.capacity == capacity
  {
    var s0 := Start(capacity, setup);
    FreshIsReachable(s0);
    hide Reachable;
    ReachableStep(s0, PublishOnReactor(e));
    s := Apply(s0, PublishOnReactor(e));
  }

  lemma NotificationOutlivesTheJoin(e: Event, capacity: nat, setup: Setup) returns (s: State)
    requires e.sequence == 1 && 0 < capacity && setup.reactorSource
    ensures Reachable(s) && Queued(s) == [Ev(e)] && s.history.q.capacity == capacity
    ensures s.setup == setup && s.stop == ObservationStopped && s.reactor == Notifying && !s.scheduled
    ensures s.jobs == [] && s.batch == 0 && !s.fence
  {
    hide Reachable, Q.Enqueued, Q.Step;
    var s1 := ReactorPublishes(e, capacity, setup);
    ReachableStep(s1, ClearNotify);
    var s2 := Apply(s1, ClearNotify);
    ReachableStep(s2, StopObservation);
    s := Apply(s2, StopObservation);
  }

  lemma StopOvertakesANotification(e: Event, capacity: nat, setup: Setup) returns (s: State)
    requires e.sequence == 1 && 0 < capacity && setup.tail && setup.reactorSource
    ensures Reachable(s) && s.setup == setup && s.stop == FinalPosted && s.reactor == Notifying && !s.scheduled
    ensures s.jobs == [FinalJob] && s.batch == 0 && Queued(s) == [Ev(e)] && !s.fence && s.history.q.capacity == capacity
  {
    hide Reachable, DrainComing;
    var s3 := NotificationOutlivesTheJoin(e, capacity, setup);
    ReachableStep(s3, PostFinal);
    s := Apply(s3, PostFinal);
  }

  lemma NotificationPostsBehind(s: State) returns (t: State)
    requires Reachable(s) && s.stop == FinalPosted && s.reactor == Notifying && !s.scheduled
    requires s.setup.tail && s.jobs == [FinalJob] && s.batch == 0 && |Queued(s)| == 1 && !s.fence
    ensures Reachable(t) && t.setup.tail && t.reactor == Arming(true) && t.jobs == [DrainJob] && t.batch == 1 && !t.fence
    ensures t.history == s.history
  {
    hide Reachable;
    ReachableStep(s, CompareExchangeOnReactor);
    var s1 := Apply(s, CompareExchangeOnReactor);
    ReachableStep(s1, PostOnReactor);
    var s2 := Apply(s1, PostOnReactor);
    ReachableStep(s2, TakeBatch);
    var s3 := Apply(s2, TakeBatch);
    ReachableStep(s3, TakeJob);
    t := Apply(s3, TakeJob);
  }

  lemma FinalDrainPops(s: State) returns (t: State)
    requires Reachable(s) && s.setup.tail && s.reactor == Arming(true) && s.jobs == [DrainJob] && s.batch == 1
    requires |Queued(s)| == 1 && Q.Bounded(s.history)
    ensures Reachable(t) && t.reactor.Holding? && t.reactor.final && t.jobs == [DrainJob] && t.batch == 1 && Queued(t) == []
    ensures t.history.q.capacity == s.history.q.capacity
  {
    hide Reachable;
    ReachableStep(s, Rearm);
    var s1 := Apply(s, Rearm);
    ReachableStep(s1, PopItem);
    t := Apply(s1, PopItem);
  }

  lemma FinalDrainEmpties(s: State) returns (t: State)
    requires Reachable(s) && s.setup.tail && s.reactor == Arming(true) && s.jobs == [DrainJob] && s.batch == 1
    requires |Queued(s)| == 1
    ensures Reachable(t) && t.reactor == Flushing && t.jobs == [DrainJob] && t.batch == 1
    ensures t.history.q.capacity == s.history.q.capacity
  {
    ReachableIsBounded(s);
    hide Reachable;
    var s2 := FinalDrainPops(s);
    ReachableStep(s2, ConsumeHeld);
    var s3 := Apply(s2, ConsumeHeld);
    ReachableStep(s3, LeaveLoop);
    t := Apply(s3, LeaveLoop);
  }

  lemma ReachableIsBounded(s: State)
    requires Reachable(s)
    ensures Q.Bounded(s.history)
  {
    ReachableIsSound(s);
  }

  /** The drain is taken with the fence fulfilled before it. */
  lemma ADrainCanRunBehindTheFence(e: Event, capacity: nat, setup: Setup) returns (s: State)
    requires e.sequence == 1 && 0 < capacity && setup.tail && setup.reactorSource
    ensures Reachable(s) && s.fence && s.reactor == Arming(false) && s.history.q.capacity == capacity
  {
    var s1 := StopOvertakesANotification(e, capacity, setup);
    var s2 := NotificationPostsBehind(s1);
    var s3 := FinalDrainEmpties(s2);
    s := FenceThenDrain(s3);
  }

  lemma FenceThenDrain(s: State) returns (t: State)
    requires Reachable(s) && s.reactor == Flushing && s.jobs == [DrainJob] && s.batch == 1
    ensures Reachable(t) && t.fence && t.reactor == Arming(false) && t.history == s.history
  {
    hide Reachable;
    ReachableStep(s, FlushFeed);
    var s1 := Apply(s, FlushFeed);
    ReachableStep(s1, Fulfil);
    var s2 := Apply(s1, Fulfil);
    ReachableStep(s2, TakeJob);
    t := Apply(s2, TakeJob);
  }
}
