# Models and proofs for grab

`grab` observes and drives a desktop. This project models the parts of it whose correctness rests on
interleavings, long runs or arithmetic, and proves what those parts are for.

- **Event delivery** (`EventQueue`, `LogPump`, `Straggler`, `TrailPump`, `Feed`): the bounded ring behind
  a subscription, the notify-post-drain pump that empties it on the reactor thread, and the feed that
  groups what comes out. The pump is a state machine whose steps are the atomic actions of publishing
  threads, reactor and stopping thread; its theorems hold in every reachable state and compose with the
  queue's and the feed's. One machine covers both pumps: whether the final job drains, how the queue
  overflows and whether the reactor itself publishes are its setup.
- **Subscriptions across daemon restarts** (`GrpcStream`, `World`, `Client`, `ClientRuns`, `Readiness`):
  the stream with its reader thread, the client that restarts the daemon and replays its registrations,
  whole runs of it with many handles, and the readiness loop. Transport, process, socket file and clock
  answer arbitrarily; a log remembers what was asked of them.
- **Agreement** (`UiIndex`, `Environment`): an index against the list it indexes, an in-place rewrite
  against its closed form.
- **Geometry** (`PageFit`, `RectCompare`, `PixelScan`, `OverlayAlign`, `Fiducial`, `Reflect`, `Snake`,
  `TrailBatch`, `TrailRenderer`): a least-squares fit, an overlap ratio, maps measured from pixels,
  folding, integer interpolation, and trails cut into polylines; beside them the drag's held button
  (`HeldButton`).

Code that changes things step by step is a class or a loop, proved against a function or a run; the
theorems are about those functions and runs. `double` is `real`.

Where the code does not do what its comments or obvious readings say, the code is modelled and the
difference is a lemma:

- The fence of `examples/mouse_snake_trail.cpp:286-293` does not drain. An event published between the
  clearing of the callback and the join of the publishing threads stays queued
  (`TrailPump.FenceCanLeaveAnEvent`); `TrailPump.FenceSufficesExactly` says exactly when none can. The
  straggling drain its comment allows for cannot happen there (`LogPump.NoStragglerWithoutReactorSource`);
  in `examples/event_logger.cpp` it can (`Straggler.ADrainCanRunBehindTheFence`) and finds an empty queue,
  as the comment says (`LogPump.StragglerFindsNothing`).
- The overflow counter misses coalesced motion and the event that each new gap marker overwrites
  (`EventQueue.OverflowUndercounts`), and a subscription of capacity zero never marks a gap
  (`EventQueue.NoRoomNoMarker`).
- A socket path that starts with two slashes does not survive the endpoint made from it
  (`Client.EndpointRoundTrip`).
- The number of readiness probes is bounded by the first backoff exactly while that fits an `int`
  (`Readiness.OrdinaryBackoffKeepsTheBound`, `Readiness.HugeBackoffProbesMore`).
- A key that continues an earlier overridden one past a `=` sets that one again;
  `Environment.OverrideHoldsExactly` says exactly which lists of keys are safe.

How the pump's model reads the session. `stop_observation` joins every thread that publishes what an
observation yields (`src/kernel/lifecycle/observation_pump.cpp:67-75`), unless cursor feedback holds the
observation open, which neither example asks for. The AT-SPI monitor is not among them: it publishes
from a descriptor callback on the reactor thread (`src/drivers/semantic/atspi/atspi_monitor.cpp:1285-1348`),
before, during and after a stop, but only between batches of posted jobs
(`src/kernel/scheduling/reactor.cpp:377-427`). The event logger watches its events, the snake trail, which
watches motion only, does not. Beyond that: a notification follows every queue change that asks for one,
popping is atomic, posts succeed until the session closes, and no job is dropped. The bus numbers events in
publication order.

`dafny verify dfyconfig.toml` checks everything.

## Model

| member | source | states |
|---|---|---|
| `EventQueue.SubscriptionQueue.Enqueue` | src/kernel/events/event_bus.cpp:115-162 | A publication does to the ring exactly what the abstract queue says, and that is one outcome for each combination of policy, room, kind and newest item: appended, put in place of a motion, marked or dropped, with the counter and the notification that go with it. |
| `EventQueue.SubscriptionQueue.EnqueueFull` | src/kernel/events/event_bus.cpp:136-161 | The same for a full ring, where the newest slot decides. |
| `EventQueue.SubscriptionQueue.PushBack` | src/kernel/events/event_bus.cpp:128-134 | The slot after the last one is filled, across the wrap-around; every other queued item keeps its place. |
| `EventQueue.SubscriptionQueue.ReplaceBack` | src/kernel/events/event_bus.cpp:241-246 | Only the newest queued item is overwritten, wherever the ring wraps. |
| `EventQueue.SubscriptionQueue.PopFront` | src/kernel/events/event_bus.cpp:186-189 | The oldest item comes out and the rest of the ring is what was behind it, wherever it wraps. |
| `EventQueue.SubscriptionQueue.TryPopItem` | src/kernel/events/event_bus.cpp:176-195 | The oldest item comes out, the others keep their order, and the last delivered sequence number follows delivered events only. |
| `EventQueue.RingAt` | src/kernel/events/event_bus.cpp:234-253 | Index arithmetic modulo the capacity reads the k-th oldest item. |
| `EventQueue.RingPop` | src/kernel/events/event_bus.cpp:186-189 | Advancing the head and shrinking drops exactly the oldest item, also on a one-slot ring. |
| `EventQueue.AccountsReplace` | src/kernel/events/event_bus.cpp:136-148 | Overwriting queued motion by newer motion still accounts for every published event. |
| `EventQueue.AccountsMark` | src/kernel/events/event_bus.cpp:262-281 | Overwriting the newest event by a gap marker accounts for both lost events, and the number it names precedes them. |
| `EventQueue.NothingLostSilently` | src/kernel/events/event_bus.cpp:115-195 | Over every run of publications and pops: what was handed out followed by what is queued tells, in publication order, the whole story; only droppable events go missing without a gap marker, and a marker names an earlier item of the story, older than everything lost, or zero before any. |
| `EventQueue.NoGapNoLoss` | src/kernel/events/event_bus.cpp:150-157 | On a queue that never drops, if no marker was made then every published event is there, once and in order. |
| `EventQueue.OverflowUndercounts` | src/kernel/events/event_bus.cpp:115-162 | Over every run under either policy, the lost events are those the overflow counter counted, plus one for each gap marker made, plus the motions coalesced; so the counter is the loss exactly if there is neither. |
| `EventQueue.RunOutcome` | src/kernel/events/event_bus.cpp:115-162 | At any moment of any run: with room an event is appended; on a full queue a motion replaces a motion if the policy coalesces; otherwise a marker naming the event handed out last is made, or kept, if the policy or the kind may not drop; the rest is dropped. Only what is dropped or marked counts as overflow, and only what is dropped does not notify. |
| `EventQueue.MotionIsTaken` | src/kernel/events/event_bus.cpp:128-148 | A coalescing queue always takes a motion if it has room or holds a motion last: it is the newest item, nothing counts as overflow, and the subscriber is notified. |
| `EventQueue.RunKeepsSetting` | src/kernel/events/event_bus.cpp:190-194 | Over every run the last delivered number is that of the last event handed out, or zero. |
| `EventQueue.NoRoomNoMarker` | src/kernel/events/event_bus.cpp:122-126 | A queue of capacity zero counts every event as overflow but never marks a gap nor asks for a resync, even under the policy that never drops. |
| `Feed.MoveCoalescer.Feed` | examples/event_logger.cpp:477-506 | One motion joins or closes and reopens the window; the line returned is the closed window's summary. |
| `Feed.MoveCoalescer.FlushIfOlder` | examples/event_logger.cpp:525-534 | A window is closed by a tick exactly once it is as old as the window length. |
| `Feed.ScrollCoalescer.Feed` | examples/event_logger.cpp:613-640 | A detent joins only a window of its own button and age; otherwise that window is closed first. |
| `Feed.ScrollCoalescer.FlushIfOlder` | examples/event_logger.cpp:659-668 | The same age rule for scrolling. |
| `Feed.EventLogger.ConsumeItem` | examples/event_logger.cpp:728-782 | Consuming an item extends the run of the feed by exactly that item and counts it; the recording stays every event consumed before the sink's first failure and none after it, whatever the feed hides. |
| `Feed.EventLogger.Show` | examples/event_logger.cpp:745-781 | What one event does to the two windows and the printed lines, on every branch. |
| `Feed.EventLogger.TickAt` | examples/event_logger.cpp:793-799 | After a tick no window is as old as the window length; one that was is printed as exactly one summary line, the motion's before the scrolling's; a younger one and all lines so far are untouched. |
| `Feed.TickOutcome` | examples/event_logger.cpp:793-799 | The same at any moment of any run of the feed. |
| `Feed.EventOutcome` | examples/event_logger.cpp:728-782 | At any moment of any run: mouse traffic without its flag, and widget churn without its, change nothing but the count; a visible motion is the latest of the motion window, a turn of the wheel is in the window of its button, any other event is the last line, and never are both windows open. |
| `Feed.EventLogger.FlushAll` | examples/event_logger.cpp:784-789 | A flush leaves both windows empty and is one flush of the run. |
| `Feed.EventLogger.Record` | examples/event_logger.cpp:877-892 | A write is recorded exactly if there is a sink that has not failed and takes it; the first failure stops the recording for good. |
| `Feed.ApplyGroups` | examples/event_logger.cpp:728-799 | One command extends the grouping by exactly the items it makes visible. |
| `Feed.FeedGroupsItsInput` | examples/event_logger.cpp:477-799 | For every run of consume, tick and flush: the items behind the printed lines and then the pending window are exactly the visible items in order; each summary has its group's first timestamp, count and last known position or button, and every member lies within the window of the first. |
| `Feed.FeedIsChronological` | examples/event_logger.cpp:759-781 | If visible events arrive in time order then lines are printed in time order and at most one window is pending, wherever ticks, flushes and gaps fall. |
| `Feed.SummariesAreMaximal` | examples/event_logger.cpp:485-499 | Without ticks and flushes, neighbouring summaries of one stream are a full window apart: none was cut short. |
| `Feed.CountersAreExact` | examples/event_logger.cpp:731-741 | Over every run the observed and gap counters are the numbers of events and markers consumed. |
| `LogPump.StepFlag` | examples/event_logger.cpp:970-999 | Every atomic step keeps the scheduled flag in agreement with the one drain that may be on its way. |
| `LogPump.StepWakeup` | examples/event_logger.cpp:970-999 | Every atomic step keeps the promise that a non-empty queue has somebody on the way to it. |
| `LogPump.NoLostWakeup` | examples/event_logger.cpp:970-999 | In every reachable state with the callback installed, under either overflow policy, a non-empty queue implies a publisher before its compare-exchange, a drain about to be posted or queued or not yet re-armed, or a drain in its loop. |
| `LogPump.AtMostOneDrainQueued` | examples/event_logger.cpp:970-999 | At most one drain is ever on its way, and the flag is set exactly while one is, until the final job's own re-arm. |
| `LogPump.StopDrainsTheTail` | examples/event_logger.cpp:944-966 | When stop has returned, the logger was given, once and in order, everything published before the final job was posted and up to the end of its drain, or gap markers for it; that is everything at all unless the reactor itself publishes. |
| `LogPump.StopLeavesNothing` | examples/event_logger.cpp:939-966 | From the return of stop on, nothing is in the reactor's hand and both windows are empty; only events the reactor itself has published since the final drain can be queued, and no job is left to hand them out. |
| `LogPump.StragglerFindsNothing` | examples/event_logger.cpp:939-943 | A drain that runs behind the fence of a draining stop finds an empty queue. |
| `LogPump.NoStragglerWithoutReactorSource` | examples/mouse_snake_trail.cpp:274-285 | Only a source on the reactor thread can leave a drain behind the fence: otherwise, once it is fulfilled, no drain is queued, running or to come. |
| `LogPump.StepProducers` | src/kernel/lifecycle/observation_pump.cpp:67-75 | Every step keeps the publishing threads joined from before the final job is posted. |
| `Straggler.ADrainCanRunBehindTheFence` | examples/event_logger.cpp:939-943 | With a source on the reactor thread a drain can indeed run behind the fence, whatever the capacity of the queue. |
| `LogPump.ProgressWorks` | examples/event_logger.cpp:970-999 | Every step of the threads lowers a measure of the work left. |
| `LogPump.EverythingIsDelivered` | examples/event_logger.cpp:970-999 | From any reachable state the threads come to rest within that measure, in whatever order they run, with everything published delivered or accounted for by the queue's policy. |
| `LogPump.QuiescentMeansDelivered` | examples/event_logger.cpp:970-999 | At rest with the callback installed nothing is queued and the logger was given the whole story. |
| `LogPump.TheFeedIsComplete` | examples/event_logger.cpp:944-999 | After a draining stop the printed lines are a grouping of exactly the visible part of what was published up to the end of its drain, at least all before the final job was posted. |
| `LogPump.TheFeedIsChronological` | examples/event_logger.cpp:728-999 | Under every interleaving, events published in time order are printed in time order. |
| `TrailPump.FenceSufficesExactly` | examples/mouse_snake_trail.cpp:286-293 | Every way the stop can go on from the join of the publishing threads returns with an empty queue if and only if, when the fence is posted, nothing is queued or a drain is queued, arming or in its loop. |
| `TrailPump.FenceCanLeaveAnEvent` | examples/mouse_snake_trail.cpp:286-293 | Whatever the capacity of the queue, an event published between the clearing of the callback and the join can be left queued with nothing on its way to it. |
| `TrailPump.ComingDrainEmpties` | examples/mouse_snake_trail.cpp:318-329 | A drain on its way when the fence is posted has emptied the queue by the time stop returns. |
| `LogPump.LogPump.Schedule` | examples/event_logger.cpp:970-989 | A job is posted exactly if the flag was down and the session takes it; a refusal lowers the flag again and is remembered if it is the first error. |
| `LogPump.LogPump.Drain` | examples/event_logger.cpp:991-999 | Undisturbed, a drain re-arms and hands the logger everything queued, in order, leaving nothing. |
| `LogPump.LogPump.FinalDrain` | examples/event_logger.cpp:952-959 | The final job leaves the queue and both windows empty, having flushed after the last item. |
| `LogPump.TheMachineDrains` | examples/event_logger.cpp:991-999 | In the state machine too, any run of a drain's own steps hands over exactly what was queued, in order, with the flag down when it has left its loop. |
| `LogPump.TheMachineDrainsAndFlushes` | examples/event_logger.cpp:952-959 | The final job's steps hand over everything queued, then flush, and leave both windows empty. |
| `LogPump.DrainGoesOn` | examples/event_logger.cpp:991-999 | A drain has exactly one next step until the queue is empty and it leaves its loop. |
| `LogPump.TicksArriveInOrder` | examples/event_logger.cpp:785-799 | In every interleaving the ticks the logger was given, and then those still among the jobs, are the posted ones in order. |
| `LogPump.PublishWakesExactly` | src/kernel/events/event_bus.cpp:115-162 | A publication wakes somebody exactly if the callback is installed and the queue did not drop it. |
| `GrpcStream.GrpcError` | src/client/unix_socket_transport.cpp:186-264 | An error makes a client reconnect exactly if it is a typed one saying so, or an untyped unavailable server. |
| `GrpcStream.GrpcSubscriptionStream.TryNext` | src/client/unix_socket_transport.cpp:317-335 | A poll takes the oldest event, else reports the terminal error, else nothing. |
| `GrpcStream.GrpcSubscriptionStream.ReadStream` | src/client/unix_socket_transport.cpp:346-372 | The reader appends the decodable messages in order and counts the others as dropped; if the call failed and no error was there, one is remembered that asks for a reconnect exactly as the status says, and otherwise the error stays as it was. |
| `GrpcStream.ConservationUnderConcurrency` | src/client/unix_socket_transport.cpp:317-372 | In every interleaving of reader and client, at every moment: received equals delivered plus queued plus dropped plus in hand, delivery is first in first out, and an error is returned only after every event and ever after. |
| `GrpcStream.FailureIsReported` | src/client/unix_socket_transport.cpp:321-334 | After a failure is recorded, polls hand out the events left in order, and every later poll, however many, reports the failure. |
| `GrpcStream.FailureIsNeverLost` | src/client/unix_socket_transport.cpp:363-371 | In every run, from the moment a failed call is recorded on, its error is there: the typed one, or one that asks for a reconnect exactly if the server was unavailable. |
| `GrpcStream.DrainedPollReports` | src/client/unix_socket_transport.cpp:317-335 | Every poll after that which finds nothing queued answers with such an error. |
| `GrpcStream.NoFailureNoError` | src/client/unix_socket_transport.cpp:363-371 | No poll errs before a failure is recorded, nor ever after a call that ended well. |
| `World.ReaderRanRemembers` | src/client/unix_socket_transport.cpp:344-372 | The same for the stream inside a registration: a failed call leaves its error, one that ended well or has not ended adds none. |
| `Readiness.BackoffClosedForm` | src/client/client.cpp:492-527 | The k-th backoff is the first one doubled k times, capped at the maximum. |
| `Readiness.BackoffIsDoubled` | src/client/client.cpp:492-527 | The same from the options alone: at least a millisecond first, doubled every time up to the maximum, or unchanged if that is less. |
| `Readiness.WaitsFitTheTimeout` | src/client/client.cpp:489-528 | However long probes and waits take, and even if the daemon's exit cuts the last wait short, the waits asked for add up to at most the startup timeout. |
| `Readiness.ProbesAreBounded` | src/client/client.cpp:498-528 | On a clock of whole milliseconds there is at most one probe per least wait and one more; the least wait is the first backoff, or the longest time poll can wait if that is shorter. |
| `Readiness.GivesUpAtTheDeadline` | src/client/client.cpp:517-526 | With exact waits and instantaneous probes, a loop that gives up has asked for exactly the timeout. |
| `Readiness.OrdinaryBackoffKeepsTheBound` | src/client/client.cpp:492-528 | A first backoff of at most the largest int keeps the bound of one probe per first backoff and one more. |
| `Readiness.HugeBackoffProbesMore` | src/client/client.cpp:73-80 | Every longer first backoff breaks that bound, whatever the maximum: a wait is capped at the largest int, so with a timeout one millisecond longer a daemon that stays unready is probed three times. |
| `Readiness.LastMillisecondSpins` | src/client/client.cpp:73-80 | A wait of zero is asked for exactly in the last millisecond before the deadline. |
| `Readiness.Wait` | src/client/client.cpp:68-88 | A wait is the longest that keeps to the backoff, the deadline and the largest int. |
| `Client.EndpointRoundTrip` | src/client/client.cpp:35-52 | An endpoint derived from a socket path leads back to that path if and only if the path does not start with two slashes. |
| `Client.ConfiguredFillsIn` | src/client/client.cpp:425-432 | A missing endpoint is the socket path behind the scheme, a missing socket path what follows the scheme; what is given stays. |
| `Client.UsableExactly` | src/client/client.cpp:425-440 | A configuration can be used exactly if it names an executable and a socket path, or an endpoint whose scheme is followed by something. |
| `Client.StreamsAreNeverReused` | src/client/client.cpp:546-560 | A handle's retired streams were opened with its own filter, one after the other, and none is ever used again. |
| `Client.OwnFailuresLoseNothing` | src/client/client.cpp:121-154 | A handle whose streams were only retired by its own connection errors returned everything that was decoded for it. |
| `Client.ChainReplace` | src/client/client.cpp:551-560 | Moving a registration to a fresh stream keeps the handle's events a concatenation of prefixes of its streams' decoded events. |
| `Client.Registration.Poll` | src/client/client.cpp:131-135 | A poll extends what the handle returned by at most one event, and an error comes only from a drained stream. |
| `Client.Registration.Replace` | src/client/client.cpp:559-559 | The old stream is retired with what it decoded and handed out; a retirement after the handle's own error retires a drained stream. |
| `Client.State.TerminateDaemon` | src/client/client.cpp:391-407 | A held daemon is signalled exactly if it is alive, and none is held afterwards. |
| `Client.State.ProbeOnce` | src/client/client.cpp:500-515 | What one probe decides: ready, a failure of another kind, an exited daemon, or wait. |
| `Client.State.AwaitReady` | src/client/client.cpp:489-528 | Every wait comes after a probe that could not connect and a daemon found alive; it is the backoff schedule's and takes as long, except that the daemon's exit can cut the last one short; success ends with an answered probe, and a failure is the last probe's own error of another kind, an exited daemon, or the deadline. |
| `Client.State.Launch` | src/client/client.cpp:457-529 | Success is an answered probe; spawning a daemon is tried exactly if no socket is there; a failure is that of the inspection, the probe, the spawn or the wait for the daemon. |
| `Client.State.Restart` | src/client/client.cpp:443-529 | A restart begins by stopping the held daemon and removing the socket, spawns nothing before that is done, succeeds only with an answering daemon, and fails only with the error of its last call. |
| `Client.State.EnsureDaemonImpl` | src/client/client.cpp:409-529 | An unusable configuration touches nothing; with a usable one the daemon is launched, or stopped and launched again, and the last call decides the answer. |
| `Client.State.EnsureDaemon` | src/client/client.cpp:213-226 | Ensuring the daemon, with a new configuration or the old one, launches it; the error, if any, is that of the last call, or the configuration was unusable and nothing was done. |
| `Client.State.ReplayOne` | src/client/client.cpp:553-559 | One replay opens a fresh stream with the registration's own filter, or changes nothing. |
| `Client.State.ReplayAll` | src/client/client.cpp:551-561 | One stream is asked for per registration, in creation order with its own filter, up to the first refusal; each registration before that one is on exactly what the transport gave for it, and the rest keep theirs. |
| `Client.State.RecoverConnection` | src/client/client.cpp:531-562 | A successful recovery leaves exactly the live registrations, in creation order, each on a fresh stream opened with its own filter, no two on the same; a failed one moves a prefix of them, and its last call says why; the daemon was restarted first; no handle but the one that asked loses more than its stream. |
| `Client.State.Subscribe` | src/client/client.cpp:319-353 | A new handle is on a stream opened with its filter and is replayed after all others. Those keep their streams unless the first attempt was a connection error; if the recovery then succeeds, all are moved to fresh ones. An error is that of the last call. |
| `Client.State.Request` | src/client/client.cpp:228-249 | A request is sent again exactly when its first answer was a connection error and the recovery succeeded, and then every live registration was moved to a fresh stream; without a recovery no registration changes; a failed recovery's error is that of its last call. |
| `Client.State.DropHandle` | src/client/client.cpp:546-550 | Dropping a handle leaves every other registration untouched. |
| `Client.State.RecoverFor` | src/client/client.cpp:143-147 | Recovery on behalf of a drained handle retires its stream for good or leaves it in place; every other handle keeps its stream or is moved to a fresh one, and on success all are. |
| `Client.ReplayableStream.TryNext` | src/client/client.cpp:121-154 | The answer is what the handle's stream says: its next event, nothing while it has none, or its error once it is drained. A connection error and nothing else makes the handle recover, once, and ask the fresh stream; without a recovery no other handle's registration changes. |
| `ClientRuns.Step` | src/client/client.cpp:121-154 | Any one operation of a client with any number of handles has an answer of its kind, which its calls or the handle's streams explain; it keeps every handle's record of answers borne out, and without a recovery no other registration changes. |
| `ClientRuns.Drive` | src/client/client.cpp:121-353 | Over any sequence of subscribing, dropping, requesting, asking handles, ensuring the daemon and destroying the client, whatever fails, every operation answers as the ones before it and its calls to the outside require; there is a handle for each one made, and all its answers together are what its streams handed out. |
| `ClientRuns.RecordsAreTheAnswers` | src/client/client.cpp:102-154 | In any such run there is one record for each handle made, with its filter and exactly its answers in order. |
| `ClientRuns.DestroyedIsSilent` | src/client/client.cpp:136-142 | After the client is destroyed nothing is asked of the daemon any more, whichever handles are still polled. |
| `ClientRuns.BorneMeansPrefixes` | src/client/client.cpp:102-154 | A handle's record is a concatenation of prefixes of the decoded events of successive streams of its filter, whole for those its own connection error retired, never returning to an older stream. |
| `Client.State.PollOne` | src/client/client.cpp:131-135 | Asking one stream touches no other registration. |
| `Client.LiveOnlyKeeps` | src/client/client.cpp:546-550 | Forgetting expired registrations keeps exactly the live ones in creation order. |
| `UiIndex.GrowAgrees` | include/grab/ui.hpp:426-433 | Growing the bucket of an existing key keeps the buckets in agreement with the list. |
| `UiIndex.AppendAgrees` | include/grab/ui.hpp:434-438 | So does a new bucket for a key that has none: keys stay unique and sizes add up to the length of the list. |
| `UiIndex.RelationIndex.AppendRelated` | include/grab/ui.hpp:420-439 | An appended relation joins the list the index agrees with. |
| `UiIndex.RelationIndex.FindRelated` | include/grab/ui.hpp:441-455 | A lookup returns the nodes of the matching entries in list order, none for an unknown key. |
| `UiIndex.UiSnapshot.FromRecords` | include/grab/ui.hpp:319-348 | A snapshot built from records has both indexes in agreement with its relations. |
| `UiIndex.UiSnapshot.Related` | include/grab/ui.hpp:385-391 | The in-order targets of the relations that match. |
| `UiIndex.UiSnapshot.RelatedReverse` | include/grab/ui.hpp:393-399 | The in-order sources of the relations that match. |
| `UiIndex.TargetsAreTheRelated` | include/grab/ui.hpp:385-391 | Those are the targets of exactly the relations with that source and that name, in order. |
| `UiIndex.SourcesAreTheRelated` | include/grab/ui.hpp:393-399 | And the sources of exactly those with that target and that name, in order. |
| `UiIndex.DirectionsAgree` | include/grab/ui.hpp:336-346 | A target occurs among a source's related nodes exactly as often as that source among the target's reverse ones. |
| `UiIndex.UiNodeRecord.GetProperty` | include/grab/ui.hpp:246-258 | The read of the first property stored under an id, or the default one. |
| `Environment.EraseKey` | src/config/environment.cpp:33-42 | Erasing a key keeps exactly the entries that do not set it, in order. |
| `Environment.OverlayEnvironment` | src/config/environment.cpp:20-49 | The rewrite is its closed form: base entries no override touches, in order, then the overrides' entries no later override touches; with keys without a separator the child reads the last override's value, or the base's. |
| `Environment.OverlaidPush` | src/config/environment.cpp:31-47 | One more override erases what it touches in the closed form and appends its entry. |
| `Environment.OverlayIsIdempotent` | src/config/environment.cpp:31-48 | Applying the same overrides again changes nothing, whatever the keys are. |
| `Environment.OverrideHoldsExactly` | src/config/environment.cpp:31-48 | Whatever the base and the values, a plain key is set exactly once to its last override, or as in the base if there is none, if and only if no key overridden after that continues it past a separator. |
| `Environment.LookupHoldsExactly` | src/config/environment.cpp:31-48 | The same exact condition for what the child reads, value by value. |
| `Environment.LastOverrideWins` | src/config/environment.cpp:31-48 | With keys without a separator, an overridden key is set exactly once, to its last override, and any other key as in the base. |
| `Environment.LookupOfOverlaid` | src/config/environment.cpp:31-48 | What follows the key and the separator in the one entry that sets an overridden key is the value of its last override; a key that is not overridden is set to just what the base sets it to. |
| `Environment.SurvivesIfLast` | src/config/environment.cpp:42-46 | With such keys an override's entry is kept exactly if its key is not overridden again. |
| `Environment.SeparatorInKeyBreaksUniqueness` | src/config/environment.cpp:33-46 | A key that contains the separator can end up set twice: two such keys, as an instance of the exact condition. |
| `PageFit.SumPositions` | examples/support/truth.hpp:241-252 | The four coordinate sums. |
| `PageFit.SumScatter` | examples/support/truth.hpp:258-268 | The scatter about the centroids and its product with the screen's. |
| `PageFit.SumErrors` | examples/support/truth.hpp:281-291 | The summed squared error of a map. |
| `PageFit.ErrorAboutCentroid` | examples/support/truth.hpp:253-268 | The squared error of any map, as a quadratic in its scale about the centroids. |
| `PageFit.ErrorFromBest` | examples/support/truth.hpp:275-278 | The squared error of any map is the fitted one's plus what its distance from it costs. |
| `PageFit.FittedIsTheOnlyMinimum` | examples/support/truth.hpp:217-278 | No map with uniform scale and translation has less squared error than the fitted one, and every other map has more. |
| `PageFit.ExactSightingsAreRecovered` | examples/support/truth.hpp:206-213 | Sightings exactly on a map are fitted by that map with no residual. |
| `PageFit.ScrollMovesOnlyTheTranslation` | examples/support/truth.hpp:171-173 | Shifting every found position shifts the translation by as much and changes neither scale nor residual. |
| `PageFit.ErrorsAreOfTheMap` | examples/support/truth.hpp:281-291 | The summed errors are distances between where the map puts a fiducial and where it was found. |
| `PageFit.SpreadVanishesExactly` | examples/support/truth.hpp:258-274 | There is no spread exactly if all fiducials were authored in one place. |
| `PageFit.SolvePageToScreen` | examples/support/truth.hpp:224-296 | Fails exactly on fewer than two sightings or too little spread; otherwise returns the unique least-squares map and its mean squared error. |
| `RectCompare.IouIsSymmetric` | examples/support/truth.hpp:315-331 | The overlap ratio does not depend on the order of the rectangles. |
| `RectCompare.IouIsARatio` | examples/support/truth.hpp:315-331 | It is between zero and one, and one exactly for identical rectangles of positive extent. |
| `RectCompare.IouIsScaleInvariant` | examples/support/truth.hpp:180-331 | It is unchanged when both rectangles go through a map of positive scale. |
| `RectCompare.IouIsTheCommonShare` | examples/support/truth.hpp:315-331 | It is the area of the rectangle of the common points against what both cover, and nothing if they have no point in common. |
| `RectCompare.ExactVerdictIsEquality` | examples/support/truth.hpp:338-361 | With no tolerance, acceptance is equality, provided the minimum is no more than the ratio a rectangle has with itself. |
| `RectCompare.VerdictIsSymmetric` | examples/support/truth.hpp:338-361 | The verdict does not depend on which rectangle is called the expected one. |
| `RectCompare.VerdictExactly` | examples/support/truth.hpp:338-361 | A verdict is positive exactly if every edge and extent is within the tolerance and the overlap reaches the minimum; it says by how much each is off. |
| `PixelScan.Scan` | examples/support/overlay_align.hpp:153-193 | The nested scan computes the fold of the box over every pixel that matches. |
| `PixelScan.ScanIsTight` | examples/support/overlay_align.hpp:155-192 | In every frame the box is empty exactly if nothing matches; otherwise it holds every match, its far sides are matches', and a near side is a match's exactly if some match is not beyond the scan's start value. |
| `PixelScan.OrdinaryScanIsTight` | examples/support/overlay_align.hpp:155-192 | In a frame of up to a thousand million pixels a side every side of the box is a match's. |
| `PixelScan.HitsFitTheBox` | examples/support/overlay_align.hpp:194-213 | The matches are no more than the places in their box. |
| `PixelScan.HitsAreCounted` | examples/support/overlay_align.hpp:183-191 | The scan counts every match once. |
| `PixelScan.MatchesExactly` | examples/support/overlay_align.hpp:160-182 | A colour matches exactly if every channel is within the tolerance of the wanted one. |
| `PixelScan.ColourReadsBack` | examples/support/overlay_align.hpp:165-178 | A pixel stored in any of the formats is read back as its colour; a pixel that is not all in the buffer has none. |
| `OverlayAlign.Measure` | examples/support/overlay_align.hpp:91-239 | A map counts as measured exactly if the probe was drawn, captured and believably found; then it renders the probe where it was found, or is the identity if that was close to where and as large as it was drawn; otherwise it is the unmeasured identity. |
| `OverlayAlign.MapsAreInverse` | examples/support/overlay_align.hpp:47-71 | A rectangle drawn through the map renders exactly at the device rectangle, and the map undoes rendering. |
| `OverlayAlign.SnapsExactlyWhenClose` | examples/support/overlay_align.hpp:225-240 | The fit is snapped to identity exactly if both sizes are within the slack and both offsets under a pixel and a half. |
| `OverlayAlign.ProbeIsWhereItWasFound` | examples/support/overlay_align.hpp:226-240 | The probe's near corner renders where it was found, exactly or within a pixel and a half if snapped; its far corner is off by three pixels more at most. |
| `OverlayAlign.LocatedExactly` | examples/support/overlay_align.hpp:194-213 | The probe is believed exactly if its box is from half to four times as large as drawn each way and at least half full. |
| `Fiducial.Resolve` | examples/support/fiducial.hpp:262-284 | Both patches are resolved exactly if one look at the tree had both, and then they are those of the first such look; patches of different looks are never combined. |
| `Fiducial.Locate` | examples/support/fiducial.hpp:133-216 | A patch is located exactly if its box is believable, at the centre of the box. |
| `Fiducial.LocatedExactly` | examples/support/fiducial.hpp:184-215 | A patch is believed exactly if its box is from half to four times its size each way and at least half full; it is located in the middle of the box. |
| `Fiducial.FoundPatchHoldsEveryMatch` | examples/support/fiducial.hpp:184-215 | A located patch has every pixel of its colour within half its extent of its centre, lies in the frame, and has a plausible extent. |
| `Fiducial.Space.Measure` | examples/support/fiducial.hpp:256-352 | A measured map is installed exactly if one look had both patches, both are located in a frame, their spans suffice, and both slopes are between a half and three; it is that of the first such look and puts both patches where they were located, within the snapping and the quantising; otherwise the unmeasured identity is installed. |
| `Fiducial.InstalledIsPlausible` | examples/support/fiducial.hpp:328-347 | Whatever fails, the installed scales are between a half and three, and an unmeasured map is the identity. |
| `Fiducial.AxisFollowsTheLine` | examples/support/fiducial.hpp:318-340 | One fitted axis follows the line through both sightings exactly, or within a hundredth of the distance from patch A if the scale was quantised. |
| `Fiducial.MapFollowsTheSightings` | examples/support/fiducial.hpp:318-347 | The same for the installed map at every coordinate, with a pixel and a half allowed for a snapped identity. |
| `Fiducial.PatchesAreWhereTheyWereSeen` | examples/support/fiducial.hpp:318-347 | Patch A's mapped rectangle is centred where A was seen but for the snapping, patch B's also but for a hundredth of the span if the scale was quantised. |
| `Reflect.ReflectedIsNearestDistance` | benchmarks/overlay_raster_bench.cpp:101-113 | Folding is the distance to the nearest multiple of the period, and stays in the range. |
| `Reflect.ReflectedIsEven` | benchmarks/overlay_raster_bench.cpp:101-113 | Folding does not depend on the sign. |
| `Reflect.ReflectedIsPeriodic` | benchmarks/overlay_raster_bench.cpp:101-113 | Folding repeats after twice the range. |
| `Reflect.ReflectedIsLipschitz` | benchmarks/overlay_raster_bench.cpp:97-113 | Folding never moves two values further apart. |
| `Reflect.TrailStaysAndNeverJumps` | benchmarks/overlay_raster_bench.cpp:354-364 | Every sample is on the inset surface, and consecutive ones are at most the step apart on either axis. |
| `Reflect.SampleIsFolded` | benchmarks/overlay_raster_bench.cpp:354-364 | A sample is as far from the margin as what was travelled is from some even number of crossings; on the first crossing that is just what was travelled. |
| `Snake.SnakeWaypoints` | examples/mouse_snake_trail.cpp:62-86 | The array filled by the loop is the waypoint of every index. |
| `Snake.WaypointsFormASnake` | examples/mouse_snake_trail.cpp:88-108 | The sweep starts at the inset's top left, ends at its bottom right, and alternates full crossings with descents along one side. |
| `Snake.RowsAreEven` | examples/mouse_snake_trail.cpp:78-79 | The rows are evenly spaced, rounded by less than a pixel. |
| `Snake.RowsFitInt32` | examples/mouse_snake_trail.cpp:78-79 | Laying out the rows stays within 32 bits on every 16-bit display. |
| `Snake.AxisAdvances` | examples/mouse_snake_trail.cpp:118-123 | Despite truncating division, one axis of a leg arrives exactly, never turns back or overshoots, and advances by less than 24 pixels a step. |
| `Snake.CoordinateIsOnTheLine` | examples/mouse_snake_trail.cpp:118-123 | Every point of a leg is on the straight line, rounded towards the start by less than a pixel. |
| `Snake.StepsAreTwelvePixels` | examples/mouse_snake_trail.cpp:112-117 | A leg has as many steps as keep them at twelve pixels or more, and at least one. |
| `Snake.LegStaysOnCourse` | examples/mouse_snake_trail.cpp:110-133 | Every point of a leg between inset points is in the inset, near the one before, and survives the 16-bit interface; the last one is the waypoint. |
| `Snake.LegFitsInt32` | examples/mouse_snake_trail.cpp:116-123 | No product of an interpolation leaves 32 bits. |
| `Snake.SweepIsSmooth` | examples/mouse_snake_trail.cpp:374-389 | The whole sweep over any display of 80 to 32767 pixels a side stays in the inset and never jumps by 24 pixels, each leg ending on its waypoint. |
| `Snake.AnySweepIsSmooth` | examples/mouse_snake_trail.cpp:374-389 | So does whatever part of it was done before a move was refused. |
| `Snake.Input.MoveLine` | examples/mouse_snake_trail.cpp:110-133 | A leg is followed to its end, or a proper prefix of it if a move is refused. |
| `Snake.Input.Sweep` | examples/mouse_snake_trail.cpp:374-389 | A sweep is the whole path, or a proper prefix of it if a move is refused. |
| `TrailRenderer.PairsAreTheJoins` | examples/mouse_snake_trail.cpp:150-188 | Two items are joined by a segment exactly if both are positioned moves of one origin in one space with only other kinds of event between them; each pair once, in order. |
| `TrailRenderer.SegmentsJoinThePairs` | examples/mouse_snake_trail.cpp:150-188 | The k-th segment requested is that of the k-th joined pair, and there is no other. |
| `TrailRenderer.OthersDrawNothing` | examples/mouse_snake_trail.cpp:158-161 | Events of other kinds neither draw nor break the trail. |
| `TrailRenderer.NeighboursJoin` | examples/mouse_snake_trail.cpp:150-188 | A move draws the segment from the move before it exactly if both have positions in one space and one origin; a gap or a move without a position breaks the trail. |
| `TrailRenderer.Renderer.Consume` | examples/mouse_snake_trail.cpp:150-188 | Consuming an item extends the history whose segments were requested, whatever the overlay refuses; the first error stays. |
| `TrailBatch.GluedDrawsEachSegmentOnce` | examples/stage_drag.cpp:806-850 | Polylines linked at shared endpoints draw every segment of the glued path once, in order, and nothing else. |
| `TrailBatch.SegmentsAreConsecutive` | examples/stage_drag.cpp:820-831 | The segments of a polyline are those between neighbouring points, in order. |
| `TrailBatch.CommandsAreShownAsMeant` | examples/stage_drag.cpp:814-831 | A polyline handed over through the inverse map is shown at exactly the sampled points. |
| `TrailBatch.StrokeKeepsWhole` | examples/stage_drag.cpp:846-849 | Keeping the tail as the next stroke's start leaves no gap and no repeat. |
| `TrailBatch.Trail.Stroke` | examples/stage_drag.cpp:806-850 | A stroke submits everything pending, or nothing if there is no overlay or no segment; what was submitted and what is pending stay the whole path. |
| `TrailBatch.Trail.Walk` | examples/stage_drag.cpp:854-892 | Whenever strokes happen to be drawn, a walk appends its samples to the path and ends with all of it submitted. |
| `TrailBatch.DrawDrag` | examples/stage_drag.cpp:803-941 | Both legs together are shown as exactly the segments of the approach followed by the carry, each once. |
| `HeldButton.NothingOwed` | examples/stage_drag.cpp:393-396 | No release is owed exactly if every successful press was followed by a release. |
| `HeldButton.Button.PressDown` | examples/stage_drag.cpp:413-420 | A press is held exactly if it succeeded, or one was held before. |
| `HeldButton.Button.LetGo` | examples/stage_drag.cpp:422-430 | A release is asked for exactly if one is owed, once. |
| `HeldButton.Button.Destroy` | examples/stage_drag.cpp:439-442 | However the holder is left, every successful press has been followed by a release, and nothing else was released. |

## Left out

- Rounding: every `double` is a real, so results that hold only up to rounding error are stated exactly; the square root of the reported residual is replaced by its square.
- Wrap-around of 64-bit counters, sequence numbers and durations; 32- and 16-bit arithmetic is modelled only in the snake sweep, where it matters.
- Snake.SweepIsSmooth: only for displays of 80 to 32767 pixels a side; on smaller ones the margins cross and on larger ones the 16-bit interface truncates.
- Client.State.AwaitReady: a wait takes as long as it asks for only while the daemon has not exited, because an exit ends it early; a wait interrupted by a signal is not modelled.
- Client.Registration.Poll: a stream is a value inside its registration, so the heap object, its cancellation and the joining of its thread are not modelled; the two threads interleave in `GrpcStream`.
- Client.State.DropHandle: a handle that dies on another thread in the middle of a recovery is not modelled.
- Overwriting a held daemon by a second start without a restart: what destroying the process handle then does is not modelled.
- The clock advances by at least one nanosecond per probe, which is why the readiness loop ends.
- OverlayAlign.Measure: what drawing, flushing, waiting and capturing do is given by parameters.
- Fiducial.Space.Measure: what the accessibility tree shows at each attempt is a parameter, and so is the capture.
- LogPump.NoLostWakeup: a post that the closed session refuses is modelled in `LogPump.LogPump.Schedule` but not in the interleavings, where posts succeed.
- Texts of lines, error messages and the format of the recording.
- TrailBatch.Trail.Stroke: a polyline the overlay refuses counts as submitted; colours, stroke widths and the retiring of the strokes are left out.
- TrailPump.FenceSufficesExactly: for pumps nothing of which is published on the reactor thread, as the snake trail's; what its consumer draws is in `TrailRenderer`.
- Subscription filters and scopes of the bus, and handlers that throw.
- The other remote procedures: each retries exactly as the modelled request does.
- The sequence player, overlay raster, rotation ledger, watch schedule, locator parser, image codecs, wire codecs, input injection, D-Bus, accessibility and browser plumbing.
