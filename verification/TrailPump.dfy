/** The snake trail's pump: the same protocol with a final job that only fulfils the fence, on a queue that
    coalesces, and with nothing it watches published on the reactor thread. */
module TrailPump {
  import opened Events
  import Q = EventQueue
  import opened LogPump

  predicate FenceOnly(s: State) {
    !s.setup.tail && !s.setup.reactorSource
  }

  /** What a run that starts once the final job is posted keeps. */
  lemma {:induction false} RunKeepsMark(trace: seq<State>, actions: seq<Action>, i: nat)
    requires IsRun(trace, actions) && i <= |actions| && Reachable(trace[0]) && Posted(trace[0].stop)
    ensures Reachable(trace[i]) && Posted(trace[i].stop) && trace[i].setup == trace[0].setup
    ensures trace[i].marks.comingAtPost == trace[0].marks.comingAtPost
  {
    if i > 0 {
      RunKeepsMark(trace, actions, i - 1);
      ReachableStep(trace[i - 1], actions[i - 1]);
      StepStop(trace[i - 1], actions[i - 1]);
      StepHistory(trace[i - 1], actions[i - 1]);
      hide Reachable, Apply, DrainComing;
    }
  }

  /** A drain on its way at the post has emptied the queue by the time the fence is fulfilled. */
  lemma ComingDrainEmpties(s: State)
    requires Reachable(s) && FenceOnly(s) && s.stop == Returned && s.marks.comingAtPost
    ensures Queued(s) == []
  {
    ReachableIsSound(s);
    NoStragglerWithoutReactorSource(s);
    hide Reachable, QueueSound, LoggerSound, TailCut, TailQuiet, WakeupSound;
  }

  /** Before the final job is posted, and without a drain on its way, only ticks are left. */
  predicate OnlyTicks(jobs: seq<Job>) {
    forall k :: 0 <= k < |jobs| ==> jobs[k].TickJob?
  }

  lemma {:induction false} NoDrainMeansTicks(jobs: seq<Job>)
    requires Count(jobs, DrainJob) == 0 && Count(jobs, FinalJob) == 0
    ensures OnlyTicks(jobs)
  {
    if jobs != [] { NoDrainMeansTicks(jobs[1..]); }
  }

  lemma IdleBeforeThePost(s: State)
    requires Reachable(s) && FenceOnly(s) && s.stop == ObservationStopped && !DrainComing(s)
    ensures s.reactor == Idle && OnlyTicks(s.jobs) && s.batch <= |s.jobs|
  {
    ReachableIsSound(s);
    NoDrainMeansTicks(s.jobs);
  }

  /** Where the run to the fence stands: ticks, then the final job. */
  predicate OnTheWay(s: State) {
    && FenceOnly(s) && s.stop == FinalPosted && s.reactor == Idle && !s.fence
    && s.jobs != [] && s.jobs[|s.jobs| - 1] == FinalJob && OnlyTicks(s.jobs[..|s.jobs| - 1])
    && s.batch <= |s.jobs|
  }

  lemma BatchOnTheWay(s: State)
    requires OnTheWay(s) && s.batch == 0
    ensures var t := Apply(s, TakeBatch); OnTheWay(t) && t.jobs == s.jobs && t.batch == |s.jobs| && t.history == s.history
  {
  }

  lemma TickOnTheWay(s: State)
    requires OnTheWay(s) && 0 < s.batch && 1 < |s.jobs|
    ensures var t := Apply(s, TakeJob); OnTheWay(t) && |t.jobs| == |s.jobs| - 1 && t.batch == s.batch - 1 && t.history == s.history
  {
    assert s.jobs[..|s.jobs| - 1][0].TickJob?;
    assert Apply(s, TakeJob).jobs[..|s.jobs| - 2] == s.jobs[..|s.jobs| - 1][1..];
  }

  lemma FinalOnTheWay(start: State, s: State) returns (end: State)
    requires Leads(start, s) && OnTheWay(s) && 0 < s.batch && |s.jobs| == 1
    ensures Leads(start, end) && end.stop == Returned && end.history == s.history
  {
    LeadsFurther(start, s, TakeJob);
    var s1 := Apply(s, TakeJob);
    LeadsFurther(start, s1, Fulfil);
    var s2 := Apply(s1, Fulfil);
    LeadsFurther(start, s2, ReturnFromStop);
    end := Apply(s2, ReturnFromStop);
  }

  /** Running the jobs one after the other reaches the return of stop with the queue untouched. */
  lemma {:induction false} RunsToTheFence(start: State, s: State) returns (end: State)
    requires Leads(start, s) && OnTheWay(s)
    ensures Leads(start, end) && end.stop == Returned && end.history == s.history
    decreases 2 * |s.jobs| - s.batch
  {
    if s.batch == 0 {
      LeadsFurther(start, s, TakeBatch);
      BatchOnTheWay(s);
      end := RunsToTheFence(start, Apply(s, TakeBatch));
    } else if |s.jobs| == 1 {
      end := FinalOnTheWay(start, s);
    } else {
      LeadsFurther(start, s, TakeJob);
      TickOnTheWay(s);
      hide Apply, Leads;
      end := RunsToTheFence(start, Apply(s, TakeJob));
    }
  }

  /** Exactly when the fence suffices: every way the stop can go on from the join of the publishing threads
      returns with an empty queue if and only if, when the fence is posted, nothing is queued or a drain is
      queued, arming or in its loop. */
  lemma FenceSufficesExactly(s: State)
    requires Reachable(s) && FenceOnly(s) && s.stop == ObservationStopped
    ensures (forall end :: Leads(Apply(s, PostFinal), end) && end.stop == Returned ==> Queued(end) == [])
      <==> DrainComing(s)
  {
    var posted := Apply(s, PostFinal);
    ReachableStep(s, PostFinal);
    if DrainComing(s) {
      forall end | Leads(posted, end) && end.stop == Returned
        ensures Queued(end) == []
      {
        var trace, actions :| IsRun(trace, actions) && trace[0] == posted && trace[|actions|] == end;
        RunKeepsMark(trace, actions, |actions|);
        ComingDrainEmpties(end);
      }
    } else {
      IdleBeforeThePost(s);
      ReachableIsSound(s);
      assert posted.jobs[..|posted.jobs| - 1] == s.jobs;
      LeadsToItself(posted);
      var end := RunsToTheFence(posted, posted);
      assert Leads(posted, end) && Queued(end) != [];
    }
  }

  lemma LeadsReachable(s: State, t: State)
    requires Reachable(s) && Posted(s.stop) && Leads(s, t)
    ensures Reachable(t) && t.setup == s.setup
  {
    var trace, actions :| IsRun(trace, actions) && trace[0] == s && trace[|actions|] == t;
    RunKeepsMark(trace, actions, |actions|);
  }

  /** What the fence can leave behind: an event published after the callback was cleared and before the
      publishing threads were joined. Its stop returns with that event queued and nothing on its way to it. */
  lemma FenceCanLeaveAnEvent(e: Event, capacity: nat, setup: Setup) returns (s: State)
    requires e.sequence == 1 && 0 < capacity && !setup.tail && !setup.reactorSource
    ensures Reachable(s) && s.setup == setup && s.history.q.capacity == capacity && s.stop == Returned
    ensures Queued(s) == [Ev(e)] && s.notifying == 0 && PendingDrains(s) == 0 && s.jobs == []
  {
    hide Reachable, Apply, OnTheWay, Start;
    var posted := PostedUnnoticed(e, capacity, setup);
    LeadsToItself(posted);
    s := RunsToTheFence(posted, posted);
    LeadsReachable(posted, s);
    NothingLeftAtTheReturn(s);
  }

  lemma NothingLeftAtTheReturn(s: State)
    requires Reachable(s) && FenceOnly(s) && s.stop == Returned
    ensures s.jobs == [] && s.notifying == 0 && PendingDrains(s) == 0
  {
    ReachableIsSound(s);
    NoStragglerWithoutReactorSource(s);
    hide Reachable, QueueSound, LoggerSound, TailCut, TailQuiet, WakeupSound;
  }

  /** The publishing threads are joined and the fence is posted, and nobody was told of the event. */
  lemma PostedUnnoticed(e: Event, capacity: nat, setup: Setup) returns (posted: State)
    requires e.sequence == 1 && 0 < capacity && !setup.tail && !setup.reactorSource
    ensures Reachable(posted) && OnTheWay(posted) && posted.stop == FinalPosted && posted.setup == setup
    ensures Queued(posted) == [Ev(e)] && posted.history.q.capacity == capacity
  {
    hide Reachable, DrainComing;
    var s2 := PublishedUnnoticed(e, capacity, setup);
    ReachableStep(s2, StopObservation);
    var s3 := Apply(s2, StopObservation);
    ReachableStep(s3, PostFinal);
    posted := Apply(s3, PostFinal);
  }

  lemma PublishedUnnoticed(e: Event, capacity: nat, setup: Setup) returns (s2: State)
    requires e.sequence == 1 && 0 < capacity
    ensures Reachable(s2) && s2 == Start(capacity, setup).(history := s2.history, stop := NotifyCleared)
    ensures Queued(s2) == [Ev(e)] && s2.history.q.capacity == capacity
  {
    var s0 := Start(capacity, setup);
    FreshIsReachable(s0);
    hide Reachable;
    ReachableStep(s0, ClearNotify);
    var s1 := Apply(s0, ClearNotify);
    ReachableStep(s1, Publish(e));
    s2 := Apply(s1, Publish(e));
  }
}
