/** Whole runs of one client: any sequence of subscribing, dropping handles, sending requests, asking handles
    for their next event, ensuring the daemon, and destroying the client, against everything it cannot control. */
module ClientRuns {
  import opened Wrappers
  import opened Events
  import opened World
  import opened Client
  import G = GrpcStream

  datatype Op =
    | Subscribing(filter: Filter)
    | Dropping(handle: nat)
    | Requesting
    | Polling(handle: nat)
    | Ensuring(given: Option<DaemonOptions>)
    | Destroying

  /** What one operation returned to its caller. */
  datatype Answer =
    | Nothing
    | Made(filter: Filter)
    | Refused(error: Error)
    | Told(handle: nat, said: Result<Option<Event>>)
    | Answered(reply: Result<nat>)
    | Ensured(answer: Result<()>)

  // ---- What a run may look like ----

  /** An operation, what it returned, and what it asked of the world outside meanwhile. */
  datatype Turn = Turn(op: Op, answer: Answer, calls: seq<Call>)

  /** What the operations so far leave for the next one to know. */
  datatype Book = Book(made: nat, dropped: set<nat>, closed: bool)

  function Noted(book: Book, op: Op, answer: Answer): Book {
    match op
    case Subscribing(_) => if answer.Made? then book.(made := book.made + 1) else book
    case Dropping(k) => if k < book.made then book.(dropped := book.dropped + {k}) else book
    case Destroying => book.(closed := true)
    case _ => book
  }

  function BookAfter(run: seq<Turn>): Book {
    if run == [] then Book(0, {}, false)
    else Noted(BookAfter(run[..|run| - 1]), run[|run| - 1].op, run[|run| - 1].answer)
  }

  /** The kind of answer an operation has. A handle that was dropped is not asked again, and of a destroyed client
      nothing is left to call but its handles, which still answer. */
  ghost predicate Fits(book: Book, op: Op, answer: Answer) {
    match op
    case Subscribing(filter) => if book.closed then answer == Nothing else answer == Made(filter) || answer.Refused?
    case Requesting => if book.closed then answer == Nothing else answer.Answered?
    case Ensuring(_) => if book.closed then answer == Nothing else answer.Ensured?
    case Polling(k) => if k < book.made && k !in book.dropped then answer.Told? && answer.handle == k else answer == Nothing
    case _ => answer == Nothing
  }

  /** An asking that failed: for want of a transport, or with a last call that explains it, unless it could not
      be repeated for want of a usable configuration. */
  ghost predicate Failed(calls: seq<Call>, error: Error, transport: bool) {
    if transport then calls != [] && (CausedBy(calls, error) || (|calls| == 1 && error == INVALID_ARGUMENT))
    else calls == [] && error == INVALID_ARGUMENT
  }

  /** What an operation asked of the world, and how that explains its answer. */
  ghost predicate Explains(calls: seq<Call>, op: Op, answer: Answer, closed: bool, transport: bool) {
    && (closed || op.Dropping? ==> calls == [])
    && (op.Subscribing? && calls != [] ==> calls[0].SubscribeAsked? && calls[0].filter == op.filter)
    && (op.Requesting? && calls != [] ==> calls[0].RequestSent?)
    && match answer
       case Made(filter) => calls != [] && calls[|calls| - 1].SubscribeAsked?
         && calls[|calls| - 1].filter == filter && calls[|calls| - 1].answer.Ok?
       case Answered(Ok(n)) => calls != [] && calls[|calls| - 1] == RequestSent(Ok(n))
       case Answered(Err(error)) => Failed(calls, error, transport)
       case Refused(error) => Failed(calls, error, transport)
       case Ensured(r) => if transport && calls != [] then Decides(calls, r) else calls == [] && r == Err(INVALID_ARGUMENT)
       case _ => true
  }

  ghost predicate Lawful(run: seq<Turn>, transport: bool) {
    run == [] ||
      var before, last := run[..|run| - 1], run[|run| - 1];
      var book := BookAfter(before);
      && Lawful(before, transport) && Fits(book, last.op, last.answer)
      && Explains(last.calls, last.op, last.answer, book.closed, transport)
  }

  function AllCalls(run: seq<Turn>): seq<Call> {
    if run == [] then [] else AllCalls(run[..|run| - 1]) + run[|run| - 1].calls
  }

  /** What one handle was made with and has answered. */
  datatype Record = Record(filter: Filter, answers: seq<Result<Option<Event>>>)

  function Recorded(records: seq<Record>, answer: Answer): seq<Record> {
    match answer
    case Made(filter) => records + [Record(filter, [])]
    case Told(k, said) => if k < |records| then records[k := records[k].(answers := records[k].answers + [said])] else records
    case _ => records
  }

  /** What the answers of a run add up to, handle by handle. */
  function Records(run: seq<Turn>): seq<Record> {
    if run == [] then [] else Recorded(Records(run[..|run| - 1]), run[|run| - 1].answer)
  }

  /** The filters of the handles made, in order. */
  function Filters(run: seq<Turn>): seq<Filter> {
    if run == [] then []
    else
      var answer := run[|run| - 1].answer;
      Filters(run[..|run| - 1]) + if answer.Made? then [answer.filter] else []
  }

  /** Everything the handle was asked for and answered. */
  function SaidBy(run: seq<Turn>, handle: nat): seq<Result<Option<Event>>> {
    if run == [] then []
    else
      var answer := run[|run| - 1].answer;
      SaidBy(run[..|run| - 1], handle) + if answer.Told? && answer.handle == handle then [answer.said] else []
  }

  /** There is a record for each handle made, with its filter and all its answers. */
  lemma {:induction false} RecordsAreTheAnswers(run: seq<Turn>, transport: bool)
    requires Lawful(run, transport)
    ensures |Records(run)| == |Filters(run)| == BookAfter(run).made
    ensures forall k :: 0 <= k < |Filters(run)| ==> Records(run)[k] == Record(Filters(run)[k], SaidBy(run, k))
    ensures forall k :: |Filters(run)| <= k ==> SaidBy(run, k) == []
  {
    if run != [] {
      RecordsAreTheAnswers(run[..|run| - 1], transport);
    }
  }

  lemma {:induction false} TurnIsLawful(run: seq<Turn>, transport: bool, i: nat)
    requires Lawful(run, transport) && i < |run|
    ensures Fits(BookAfter(run[..i]), run[i].op, run[i].answer)
    ensures Explains(run[i].calls, run[i].op, run[i].answer, BookAfter(run[..i]).closed, transport)
  {
    if i < |run| - 1 {
      assert run[..|run| - 1][..i] == run[..i];
      TurnIsLawful(run[..|run| - 1], transport, i);
    }
  }

  lemma {:induction false} BookOnlyGrows(run: seq<Turn>, i: nat, j: nat)
    requires i <= j <= |run|
    ensures var early, late := BookAfter(run[..i]), BookAfter(run[..j]);
      early.made <= late.made && early.dropped <= late.dropped && (early.closed ==> late.closed)
  {
    if i < j {
      BookOnlyGrows(run, i, j - 1);
      assert run[..j][..j - 1] == run[..j - 1];
    }
  }

  /** After its destruction the client makes no handle, sends no request, and asks nothing of anybody. */
  lemma DestroyedIsSilent(run: seq<Turn>, transport: bool, i: nat, j: nat)
    requires Lawful(run, transport) && i < j < |run| && run[i].op.Destroying?
    ensures run[j].calls == [] && (run[j].answer == Nothing || run[j].answer.Told?)
  {
    assert run[..i + 1][..i] == run[..i];
    BookOnlyGrows(run, i + 1, j);
    TurnIsLawful(run, transport, j);
  }

  // ---- What the client does ----

  /** The registration bears its handle's record out: it answered just that, and the events among the answers are
      what its streams handed out, one stream after the other, each opened with the handle's filter. */
  ghost predicate Borne(r: Registration, record: Record, next: nat)
    reads r
  {
    r.Valid(next) && r.filter == record.filter && r.told == record.answers && r.delivered == G.Delivered(record.answers)
  }

  ghost predicate AllBorne(handles: seq<ReplayableStream>, records: seq<Record>, next: nat)
    reads Registrations(handles)
  {
    |handles| == |records| && forall k :: 0 <= k < |handles| ==> Borne(handles[k].registration, records[k], next)
  }

  function Registrations(handles: seq<ReplayableStream>): (rs: seq<Registration>)
    ensures |rs| == |handles| && forall k :: 0 <= k < |handles| ==> rs[k] == handles[k].registration
  {
    seq(|handles|, k requires 0 <= k < |handles| => handles[k].registration)
  }

  /** The handles are distinct handles of this client, it knows of no registration but theirs, and the book is
      right about them. */
  ghost predicate Handles(owner: State, handles: seq<ReplayableStream>, book: Book)
    reads owner
  {
    && (forall k :: 0 <= k < |handles| ==> handles[k].owner == owner)
    && (forall j, k :: 0 <= j < k < |handles| ==> handles[j].registration != handles[k].registration)
    && (forall reg :: reg in owner.registrations ==> reg in Registrations(handles))
    && (forall k :: 0 <= k < |handles| ==> (handles[k].registration in owner.live <==> k !in book.dropped))
    && |handles| == book.made && owner.closed == book.closed && (owner.closed ==> owner.daemon == None)
    && (forall k :: k in book.dropped ==> k < book.made)
  }

  lemma ListedIsValid(owner: State, r: Registration)
    requires owner.Valid() && r in owner.registrations
    ensures r.Valid(owner.env.nextStream)
  {
    var i :| 0 <= i < |owner.registrations| && owner.registrations[i] == r;
  }

  /** The registration an answer is about. */
  function About(handles: seq<ReplayableStream>, answer: Answer): Option<Registration> {
    if answer.Told? && answer.handle < |handles| then Some(handles[answer.handle].registration) else None
  }

  /** How an exchange that is tried at most twice explains its outcome. */
  lemma ExchangeExplains(before: seq<Call>, now: seq<Call>, firstAsked: Call, lastAsked: Call, configurable: bool,
                         first: Option<Error>, last: Option<Error>, recovered: bool, recoveries: int)
    requires Retried(before, now, firstAsked, lastAsked, configurable, first, last, recovered, recoveries)
    requires last.Some? ==> CausedBy([lastAsked], last.value)
    ensures var calls := now[|before|..];
      && before <= now && calls != [] && calls[0] == firstAsked
      && (last.None? ==> calls[|calls| - 1] == lastAsked)
      && (last.Some? ==> Failed(calls, last.value, true))
  {
    var calls := now[|before|..];
    assert calls[0] == firstAsked;
    if last.Some? && now[|now| - 1] == lastAsked {
      assert calls == calls[..|calls| - 1] + [lastAsked];
      CausedLater(calls[..|calls| - 1], [lastAsked], last.value);
    }
  }

  lemma SubscribeExplains(before: seq<Call>, now: seq<Call>, filter: Filter, configurable: bool, first: Result<Option<nat>>,
                          last: Result<Option<nat>>, recovered: bool, recoveries: int)
    requires Retried(before, now, SubscribeAsked(filter, first), SubscribeAsked(filter, last), configurable,
                     Failure(first), Failure(last), recovered, recoveries)
    ensures before <= now
    ensures Explains(now[|before|..], Subscribing(filter), if last.Ok? then Made(filter) else Refused(last.error), false, true)
  {
    ExchangeExplains(before, now, SubscribeAsked(filter, first), SubscribeAsked(filter, last), configurable,
                     Failure(first), Failure(last), recovered, recoveries);
  }

  lemma RequestExplains(before: seq<Call>, now: seq<Call>, configurable: bool, first: Result<nat>, r: Result<nat>,
                        recovered: bool, recoveries: int)
    requires Retried(before, now, RequestSent(first), RequestSent(r), configurable, Failure(first), Failure(r),
                     recovered, recoveries)
    ensures before <= now && Explains(now[|before|..], Requesting, Answered(r), false, true)
  {
    ExchangeExplains(before, now, RequestSent(first), RequestSent(r), configurable, Failure(first), Failure(r), recovered, recoveries);
  }

  /** Against the state before: the registration's handle answered this, as its streams allow. */
  twostate predicate Spoken(owner: State, reg: Registration, new said: Result<Option<Event>>)
    reads owner, reg
  {
    && reg in owner.registrations && reg in old(owner.registrations)
    && reg.told == old(reg.told) + [said]
    && reg.delivered == old(reg.delivered) + (if said.Ok? && said.value.Some? then [said.value.value] else [])
    && exists first :: Asked(reg, first, said)
  }

  /** A handle just made: it has answered nothing. */
  ghost predicate Newborn(owner: State, handle: ReplayableStream, filter: Filter)
    reads owner, handle.registration
  {
    && handle.owner == owner && handle.registration in owner.registrations && handle.registration.filter == filter
    && handle.registration.delivered == [] && handle.registration.told == []
  }

  /** Asks a handle that still exists. */
  method Poll(owner: State, handles: seq<ReplayableStream>, k: nat, ghost book: Book)
    returns (answer: Answer, ghost calls: seq<Call>)
    requires owner.Valid() && Handles(owner, handles, book)
    modifies owner`options, owner`recoveries, owner`daemon, owner`registrations, owner.env, owner.registrations
    ensures owner.Valid() && old(owner.env.nextStream) <= owner.env.nextStream
    ensures Bystanders(old(owner.registrations), owner.registrations, About(handles, answer), old(owner.env.nextStream))
    ensures owner.recoveries == old(owner.recoveries) ==> Untouched(old(owner.registrations), About(handles, answer))
    ensures forall reg :: reg in owner.registrations ==> reg in old(owner.registrations)
    ensures Fits(book, Polling(k), answer) && (owner.closed ==> owner.daemon == old(owner.daemon))
    ensures owner.env.log == old(owner.env.log) + calls
    ensures Explains(calls, Polling(k), answer, book.closed, owner.hasTransport)
    ensures answer.Told? ==> Spoken(owner, handles[k].registration, answer.said)
  {
    hide Chain, AllValid, StreamsApart, CreationOrder, Asked, Resumed, Blamed;
    answer, calls := Nothing, [];
    if k < |handles| && handles[k].registration in owner.live {
      var said;
      ghost var first: Option<Result<Option<Event>>>, recovery: Option<Result<()>>;
      said, first, recovery := handles[k].TryNext();
      answer, calls := Told(k, said), owner.env.log[|old(owner.env.log)|..];
    }
  }

  /** Subscribes with a client that still exists. */
  method Open(owner: State, filter: Filter, ghost book: Book)
    returns (made: seq<ReplayableStream>, answer: Answer, ghost calls: seq<Call>)
    requires owner.Valid() && owner.closed == book.closed
    modifies owner`options, owner`recoveries, owner`daemon, owner`registrations, owner`live, owner`nextId, owner.env, owner.registrations
    ensures owner.Valid() && old(owner.env.nextStream) <= owner.env.nextStream
    ensures Bystanders(old(owner.registrations), owner.registrations, None, old(owner.env.nextStream))
    ensures owner.recoveries == old(owner.recoveries) ==> Untouched(old(owner.registrations), None)
    ensures forall reg :: reg in owner.registrations ==>
      reg in old(owner.registrations) || (made != [] && reg == made[0].registration)
    ensures Fits(book, Subscribing(filter), answer) && (owner.closed ==> owner.daemon == old(owner.daemon))
    ensures owner.env.log == old(owner.env.log) + calls
    ensures Explains(calls, Subscribing(filter), answer, book.closed, owner.hasTransport)
    ensures if answer.Made? then |made| == 1 && Newborn(owner, made[0], filter) else made == []
    ensures made != [] ==> fresh(made[0].registration)
    ensures owner.live == old(owner.live) + if made != [] then {made[0].registration} else {}
  {
    hide Chain, AllValid, StreamsApart, CreationOrder, Retried;
    made, answer, calls := [], Nothing, [];
    if !owner.closed {
      var r;
      ghost var first: Result<Option<Stream>>, recovered: bool;
      r, first, recovered := owner.Subscribe(filter);
      if owner.hasTransport {
        SubscribeExplains(old(owner.env.log), owner.env.log, filter, old(Configurable(owner.hasTransport, owner.options)),
                          Given(first), if r.Ok? then Ok(IdOf(r.value.stream)) else Err(r.error), recovered,
                          owner.recoveries - old(owner.recoveries));
        calls := owner.env.log[|old(owner.env.log)|..];
      }
      if r.Ok? {
        var handle := new ReplayableStream(owner, r.value);
        made, answer := [handle], Made(filter);
      } else {
        answer := Refused(r.error);
      }
    }
  }

  /** Sends a request with a client that still exists. */
  method Send(owner: State, ghost book: Book) returns (answer: Answer, ghost calls: seq<Call>)
    requires owner.Valid() && owner.closed == book.closed
    modifies owner`options, owner`recoveries, owner`daemon, owner`registrations, owner.env, owner.registrations
    ensures owner.Valid() && old(owner.env.nextStream) <= owner.env.nextStream
    ensures Bystanders(old(owner.registrations), owner.registrations, None, old(owner.env.nextStream))
    ensures owner.recoveries == old(owner.recoveries) ==> Untouched(old(owner.registrations), None)
    ensures forall reg :: reg in owner.registrations ==> reg in old(owner.registrations)
    ensures Fits(book, Requesting, answer) && (owner.closed ==> owner.daemon == old(owner.daemon))
    ensures owner.env.log == old(owner.env.log) + calls
    ensures Explains(calls, Requesting, answer, book.closed, owner.hasTransport)
  {
    hide Chain, AllValid, StreamsApart, CreationOrder, Retried;
    answer, calls := Nothing, [];
    if !owner.closed {
      var r;
      ghost var first: Result<nat>, recovered: bool;
      r, first, recovered := owner.Request();
      if owner.hasTransport {
        RequestExplains(old(owner.env.log), owner.env.log, old(Configurable(owner.hasTransport, owner.options)),
                        first, r, recovered, owner.recoveries - old(owner.recoveries));
        calls := owner.env.log[|old(owner.env.log)|..];
      }
      answer := Answered(r);
    }
  }

  /** Ensures the daemon with a client that still exists. */
  method Ensure(owner: State, given: Option<DaemonOptions>, ghost book: Book) returns (answer: Answer, ghost calls: seq<Call>)
    requires owner.Valid() && owner.closed == book.closed
    modifies owner`options, owner`daemon, owner.env
    ensures owner.Valid() && owner.env.nextStream == old(owner.env.nextStream)
    ensures Bystanders(old(owner.registrations), owner.registrations, None, old(owner.env.nextStream))
    ensures Untouched(old(owner.registrations), None)
    ensures Fits(book, Ensuring(given), answer) && (owner.closed ==> owner.daemon == old(owner.daemon))
    ensures owner.env.log == old(owner.env.log) + calls
    ensures Explains(calls, Ensuring(given), answer, book.closed, owner.hasTransport)
  {
    hide Chain, AllValid, StreamsApart, CreationOrder, Launched, Decides;
    answer, calls := Nothing, [];
    if !owner.closed {
      var r;
      r, calls := owner.EnsureDaemon(given);
      answer := Ensured(r);
    }
  }

  /** The registration whose handle the operation gives up. */
  function LetGo(handles: seq<ReplayableStream>, op: Op): set<Registration> {
    if op.Dropping? && op.handle < |handles| then {handles[op.handle].registration} else {}
  }

  /** Lets a handle go, whether or not the client still exists. */
  method Drop(owner: State, handles: seq<ReplayableStream>, k: nat, ghost book: Book)
    requires owner.Valid()
    modifies owner`live
    ensures owner.Valid() && owner.live == old(owner.live) - LetGo(handles, Dropping(k))
    ensures Fits(book, Dropping(k), Nothing) && Explains([], Dropping(k), Nothing, book.closed, owner.hasTransport)
    ensures Bystanders(old(owner.registrations), owner.registrations, None, old(owner.env.nextStream))
    ensures Untouched(old(owner.registrations), None)
  {
    hide Chain, AllValid, StreamsApart, CreationOrder;
    if k < |handles| { owner.DropHandle(handles[k].registration); }
  }

  /** Destroys the client; a second time does nothing. */
  method End(owner: State, ghost book: Book) returns (ghost calls: seq<Call>)
    requires owner.Valid() && owner.closed == book.closed && (owner.closed ==> owner.daemon == None)
    modifies owner`daemon, owner`closed, owner.env`log, owner.env`clock, owner.env`exited
    ensures owner.Valid() && owner.closed && owner.daemon == None
    ensures owner.env.log == old(owner.env.log) + calls
    ensures Fits(book, Destroying, Nothing) && Explains(calls, Destroying, Nothing, book.closed, owner.hasTransport)
    ensures Bystanders(old(owner.registrations), owner.registrations, None, old(owner.env.nextStream))
    ensures Untouched(old(owner.registrations), None)
  {
    hide Chain, AllValid, StreamsApart, CreationOrder;
    ghost var alive := owner.Destroy();
    calls := StopCalls(old(owner.daemon), alive);
  }

  /** One operation. `made` is the new handle, if it made one. */
  method Act(owner: State, handles: seq<ReplayableStream>, op: Op, ghost book: Book)
    returns (made: seq<ReplayableStream>, answer: Answer, ghost calls: seq<Call>)
    requires owner.Valid() && Handles(owner, handles, book)
    modifies owner, owner.env, owner.registrations
    ensures owner.Valid() && old(owner.env.nextStream) <= owner.env.nextStream
    ensures Bystanders(old(owner.registrations), owner.registrations, About(handles, answer), old(owner.env.nextStream))
    ensures owner.recoveries == old(owner.recoveries) ==> Untouched(old(owner.registrations), About(handles, answer))
    ensures forall reg :: reg in owner.registrations ==>
      reg in old(owner.registrations) || (made != [] && reg == made[0].registration)
    ensures Fits(book, op, answer)
    ensures owner.env.log == old(owner.env.log) + calls && Explains(calls, op, answer, book.closed, owner.hasTransport)
    ensures answer.Told? ==> Spoken(owner, handles[answer.handle].registration, answer.said)
    ensures if answer.Made? then |made| == 1 && Newborn(owner, made[0], answer.filter) else made == []
    ensures made != [] ==> fresh(made[0].registration)
    ensures owner.live == old(owner.live) - LetGo(handles, op) + if made != [] then {made[0].registration} else {}
    ensures owner.closed == (op.Destroying? || old(owner.closed)) && (owner.closed ==> owner.daemon == None)
  {
    hide Chain, AllValid, StreamsApart, CreationOrder, Explains, Spoken, Newborn, Bystanders, Untouched;
    made, answer, calls := [], Nothing, [];
    match op
    case Subscribing(filter) =>
      made, answer, calls := Open(owner, filter, book);
    case Dropping(k) =>
      Drop(owner, handles, k, book);
    case Requesting =>
      answer, calls := Send(owner, book);
    case Polling(k) =>
      answer, calls := Poll(owner, handles, k, book);
    case Ensuring(given) =>
      answer, calls := Ensure(owner, given, book);
    case Destroying =>
      calls := End(owner, book);
  }

  lemma HandlesGrow(owner: State, handles: seq<ReplayableStream>, made: seq<ReplayableStream>, book: Book)
    requires forall k :: 0 <= k < |handles + made| ==> (handles + made)[k].owner == owner
    requires forall j, k :: 0 <= j < k < |handles| ==> handles[j].registration != handles[k].registration
    requires made == [] || (|made| == 1 && made[0].registration !in Registrations(handles) && made[0].registration in owner.live)
    requires forall reg :: reg in owner.registrations ==> reg in Registrations(handles) || (made != [] && reg == made[0].registration)
    requires forall k :: 0 <= k < |handles| ==> (handles[k].registration in owner.live <==> k !in book.dropped)
    requires |handles + made| == book.made && owner.closed == book.closed && (owner.closed ==> owner.daemon == None)
    requires forall k :: k in book.dropped ==> k < |handles|
    ensures Handles(owner, handles + made, book)
  {
    var after := handles + made;
    assert Registrations(after) == Registrations(handles) + Registrations(made);
    forall j, k | 0 <= j < k < |after|
      ensures after[j].registration != after[k].registration
    {
      if k < |handles| {
        assert after[j] == handles[j] && after[k] == handles[k];
      } else {
        assert after[j] == handles[j] && Registrations(handles)[j] == handles[j].registration;
      }
    }
  }

  lemma BorneGrow(handles: seq<ReplayableStream>, records: seq<Record>, answer: Answer, made: seq<ReplayableStream>, next: nat)
    requires |handles| == |records|
    requires forall k :: 0 <= k < |handles| ==> Borne(handles[k].registration, Recorded(records, answer)[k], next)
    requires if answer.Made? then |made| == 1 && Borne(made[0].registration, Record(answer.filter, []), next) else made == []
    ensures AllBorne(handles + made, Recorded(records, answer), next)
  {
    hide Borne;
    var after, told := handles + made, Recorded(records, answer);
    forall k | 0 <= k < |after|
      ensures Borne(after[k].registration, told[k], next)
    {
      if k < |handles| {
        assert after[k] == handles[k];
      } else {
        assert after[k] == made[0] && told[k] == Record(answer.filter, []);
      }
    }
  }

  /** Against the state before: a handle's record is borne out again after an operation, with what it answered,
      if it was asked. */
  method Keep(owner: State, handles: seq<ReplayableStream>, ghost records: seq<Record>, op: Op, ghost book: Book)
    returns (made: seq<ReplayableStream>, answer: Answer, ghost calls: seq<Call>)
    requires owner.Valid() && Handles(owner, handles, book) && AllBorne(handles, records, owner.env.nextStream)
    modifies owner, owner.env, owner.registrations
    ensures owner.Valid()
    ensures forall k :: 0 <= k < |handles| ==>
      Borne(handles[k].registration, Recorded(records, answer)[k], owner.env.nextStream)
    ensures if answer.Made? then |made| == 1 && Borne(made[0].registration, Record(answer.filter, []), owner.env.nextStream)
            else made == []
    ensures made != [] ==> fresh(made[0].registration) && made[0].owner == owner
    ensures owner.recoveries == old(owner.recoveries) ==> Untouched(old(owner.registrations), About(handles, answer))
    ensures forall reg :: reg in owner.registrations ==>
      reg in old(owner.registrations) || (made != [] && reg == made[0].registration)
    ensures Fits(book, op, answer)
    ensures owner.env.log == old(owner.env.log) + calls && Explains(calls, op, answer, book.closed, owner.hasTransport)
    ensures answer.Told? ==> Spoken(owner, handles[answer.handle].registration, answer.said)
    ensures owner.live == old(owner.live) - LetGo(handles, op) + if made != [] then {made[0].registration} else {}
    ensures owner.closed == (op.Destroying? || old(owner.closed)) && (owner.closed ==> owner.daemon == None)
  {
    hide Chain, AllValid, StreamsApart, CreationOrder, Explains, Asked, Untouched;
    made, answer, calls := Act(owner, handles, op, book);
    if made != [] { ListedIsValid(owner, made[0].registration); }
    forall k | 0 <= k < |handles|
      ensures Borne(handles[k].registration, Recorded(records, answer)[k], owner.env.nextStream)
    {
      var r := handles[k].registration;
      assert old(Borne(r, records[k], owner.env.nextStream));
      if About(handles, answer) == Some(r) {
        assert k == answer.handle;
        ListedIsValid(owner, r);
        G.DeliveredPush(records[k].answers, answer.said);
      } else if r in old(owner.registrations) {
        var i :| 0 <= i < |old(owner.registrations)| && old(owner.registrations)[i] == r;
        assert Undisturbed(r, r in owner.registrations, old(owner.env.nextStream));
        if r in owner.registrations {
          ListedIsValid(owner, r);
        } else {
          ChainLater(r.filter, r.past, r.stream, r.delivered, old(owner.env.nextStream), owner.env.nextStream);
        }
      } else {
        ChainLater(r.filter, r.past, r.stream, r.delivered, old(owner.env.nextStream), owner.env.nextStream);
      }
    }
  }

  /** One operation answers as it should, for a reason its calls show, and keeps every handle's record borne out,
      its own and all the others'. Without a recovery the other handles notice nothing. */
  method Step(owner: State, handles: seq<ReplayableStream>, ghost records: seq<Record>, op: Op, ghost book: Book)
    returns (after: seq<ReplayableStream>, answer: Answer, ghost calls: seq<Call>)
    requires owner.Valid() && Handles(owner, handles, book) && AllBorne(handles, records, owner.env.nextStream)
    modifies owner, owner.env, owner.registrations
    ensures owner.Valid() && Handles(owner, after, Noted(book, op, answer)) && handles <= after
    ensures Fits(book, op, answer)
    ensures owner.env.log == old(owner.env.log) + calls && Explains(calls, op, answer, book.closed, owner.hasTransport)
    ensures answer.Told? ==> Spoken(owner, handles[answer.handle].registration, answer.said)
    ensures AllBorne(after, Recorded(records, answer), owner.env.nextStream)
    ensures owner.recoveries == old(owner.recoveries) ==> Untouched(old(owner.registrations), About(handles, answer))
    ensures forall k :: |handles| <= k < |after| ==> fresh(after[k].registration)
  {
    hide Chain, AllValid, StreamsApart, CreationOrder, Borne, Explains, Spoken, Untouched;
    var made;
    made, answer, calls := Keep(owner, handles, records, op, book);
    after := handles + made;
    BorneGrow(handles, records, answer, made, owner.env.nextStream);
    HandlesGrow(owner, handles, made, Noted(book, op, answer));
  }

  lemma RunGrows(run: seq<Turn>, turn: Turn, transport: bool)
    requires Lawful(run, transport) && Fits(BookAfter(run), turn.op, turn.answer)
    requires Explains(turn.calls, turn.op, turn.answer, BookAfter(run).closed, transport)
    ensures Lawful(run + [turn], transport) && BookAfter(run + [turn]) == Noted(BookAfter(run), turn.op, turn.answer)
    ensures Records(run + [turn]) == Recorded(Records(run), turn.answer)
    ensures AllCalls(run + [turn]) == AllCalls(run) + turn.calls
  {
    assert (run + [turn])[..|run|] == run;
  }

  lemma NoTurns(transport: bool)
    ensures Lawful([], transport) && BookAfter([]) == Book(0, {}, false) && Records([]) == [] && AllCalls([]) == []
  {
  }

  lemma CallsGrow(before: seq<Call>, done: seq<Call>, calls: seq<Call>)
    ensures before + done + calls == before + (done + calls)
  {
  }

  /** A whole run of a fresh client. However the daemon, the transport and the clock behave, the run is lawful: each
      operation answered as it should for a reason its calls show. There is a handle for each one made; its record
      is all its answers, and its registration bears that record out. */
  method Drive(owner: State, ops: seq<Op>)
    returns (handles: seq<ReplayableStream>, answers: seq<Answer>, ghost run: seq<Turn>)
    requires owner.Valid() && owner.registrations == [] && owner.live == {} && !owner.closed
    modifies owner, owner.env
    ensures |run| == |answers| == |ops| && forall i :: 0 <= i < |ops| ==> run[i].op == ops[i] && run[i].answer == answers[i]
    ensures Lawful(run, owner.hasTransport) && owner.env.log == old(owner.env.log) + AllCalls(run)
    ensures owner.Valid() && Handles(owner, handles, BookAfter(run))
    ensures AllBorne(handles, Records(run), owner.env.nextStream)
  {
    hide Chain, AllValid, StreamsApart, CreationOrder, Borne, Explains, Spoken, Untouched, Fits;
    hide Lawful, BookAfter, Records, AllCalls, Recorded, Noted;
    handles, answers, run := [], [], [];
    NoTurns(owner.hasTransport);
    for next := 0 to |ops|
      invariant |run| == |answers| == next && forall i :: 0 <= i < next ==> run[i].op == ops[i] && run[i].answer == answers[i]
      invariant Lawful(run, owner.hasTransport) && owner.env.log == old(owner.env.log) + AllCalls(run)
      invariant owner.Valid() && Handles(owner, handles, BookAfter(run))
      invariant AllBorne(handles, Records(run), owner.env.nextStream)
      invariant forall k :: 0 <= k < |handles| ==> fresh(handles[k].registration)
      invariant forall k :: 0 <= k < |owner.registrations| ==> fresh(owner.registrations[k])
    {
      var answer;
      ghost var calls: seq<Call>;
      handles, answer, calls := Step(owner, handles, Records(run), ops[next], BookAfter(run));
      assert forall k :: 0 <= k < |owner.registrations| ==> owner.registrations[k] in Registrations(handles);
      ghost var turn := Turn(ops[next], answer, calls);
      RunGrows(run, turn, owner.hasTransport);
      CallsGrow(old(owner.env.log), AllCalls(run), calls);
      answers, run := answers + [answer], run + [turn];
    }
  }

  /** What a borne record means: the handle answered, in order, a prefix of what was decoded from each stream it
      ever had, whole for those its own connection error retired; the streams follow one another for good. */
  lemma BorneMeansPrefixes(r: Registration, record: Record, next: nat)
    requires Borne(r, record, next)
    ensures G.Delivered(record.answers) == HandedOut(r.past) + HandedOutBy(r.stream)
    ensures forall k :: 0 <= k < |r.past| ==>
      && r.past[k].filter == record.filter && r.past[k].delivered <= r.past[k].decoded
      && (r.past[k].own ==> r.past[k].delivered == r.past[k].decoded)
    ensures forall j, k :: 0 <= j < k < |r.past| ==> r.past[j].id < r.past[k].id
    ensures r.stream.Some? ==>
      && r.stream.value.filter == record.filter && r.stream.value.delivered <= r.stream.value.decoded
      && forall k :: 0 <= k < |r.past| ==> r.past[k].id < r.stream.value.id
  {
    StreamsAreNeverReused(r.filter, r.past, if r.stream.Some? then r.stream.value.id else next);
  }
}
