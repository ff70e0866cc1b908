/**
 * When a port times a transaction out, in time that does not wrap. A book kept
 * beside the port says what was asked for and when; the deadlines the port holds
 * are those of the requests in the book.
 */
module PortTimes {
  import opened Base
  import opened Deadline
  import opened PortModel
  import opened PortProperties

  /** A request that was accepted: when, and the how-manieth to be given an id it was. */
  datatype Taken = Taken(at: nat, request: Request, number: nat)

  /**
   * What an observer writes down: the accepted requests by serial number, how many
   * ids were given out, when the transaction that is active was activated, and when
   * the state was entered, or recovery last tried, and for how long at most.
   */
  datatype Book = Book(taken: seq<Taken>, asked: nat, since: nat, entered: nat, interval: Tick)

  function Limit(c: Call): Tick {
    match c
    case CallStart(timeout) => timeout
    case CallReconfigure(_, timeout) => timeout
    case CallStop(timeout) => timeout
    case _ => RECOVERY_DELAY
  }

  /** The book after a call at `at` that made the port `p` into `q`. */
  function Note(b: Book, p: Port, c: Call, at: nat, q: Port): Book {
    var asked := b.asked + if c.CallSubmit? && Admission(p, c.request) in {Accepted, QueueFull} then 1 else 0;
    var moved := q.state != p.state || q.attempts != p.attempts;
    Book(if c.CallSubmit? && q.accepted > p.accepted then b.taken + [Taken(at, c.request, asked)] else b.taken,
         asked,
         if |q.activations| > |p.activations| then at else b.since,
         if moved then at else b.entered,
         if moved then Limit(c) else b.interval)
  }

  /** A port and its book after calls at the given times. */
  function Life(config: Config, es: seq<(Call, nat)>): (r: (Port, Book)) {
    if es == [] then (Init(config), Book([], 0, 0, 0, 0)) else
    var n := |es| - 1;
    var (p, b) := Life(config, es[..n]);
    var q := Apply(p, es[n].0, Tick32(es[n].1));
    (q, Note(b, p, es[n].0, es[n].1, q))
  }

  // ------------------------------------------------------------ the book is kept

  /** The transaction is the request, with the id and the queue deadline that go with it. */
  predicate Carries(t: Txn, k: Taken) {
    && RequestValid(k.request) && t.payload == k.request.payload && t.operation == k.request.operation
    && t.ownerKind == k.request.ownerKind && t.ownerId == k.request.ownerId && t.metadata == k.request.metadata
    && t.id == GenerationAt(k.number)
    && t.enqueuedAt == Tick32(k.at) && t.queueDeadline == After(Tick32(k.at), k.request.queueTimeout)
    && t.responseTimeout == k.request.responseTimeout
  }

  predicate Known(t: Txn, taken: seq<Taken>) { t.serial < |taken| && Carries(t, taken[t.serial]) }

  /** Everything queued, active or notified is one of the requests taken. */
  ghost predicate Holdings(p: Port, taken: seq<Taken>) {
    && (forall i | 0 <= i < |p.queue| :: Known(p.queue[i], taken))
    && (forall i | 0 <= i < |p.notices| :: Known(p.notices[i].txn, taken))
    && (p.active.Some? ==> Known(p.active.value, taken))
  }

  /** The response deadline runs from the activation. */
  predicate Armed(p: Port, since: nat) {
    p.active.Some? ==>
      && p.active.value.startedAt == Tick32(since)
      && p.active.value.responseDeadline == After(Tick32(since), p.active.value.responseTimeout)
  }

  predicate Limited(p: Port, entered: nat, interval: Tick) {
    p.state in {Starting, Recovering, Reconfiguring, Stopping} ==>
      ValidInterval(interval) && p.deadline == After(Tick32(entered), interval)
  }

  ghost predicate Timed(p: Port, b: Book) {
    && |b.taken| == p.accepted && p.nextId == GenerationAt(b.asked + 1)
    && Holdings(p, b.taken) && Armed(p, b.since) && Limited(p, b.entered, b.interval)
  }

  lemma FlushHoldings(p: Port, taken: seq<Taken>)
    requires Holdings(p, taken)
    ensures Holdings(FlushAll(p), taken)
    ensures var q := FlushAll(p); q == p.(queue := q.queue, notices := q.notices, stats := q.stats)
    decreases |p.queue|
  {
    hide Carries;
    if p.queue != [] {
      FlushHoldings(Notify(p, Cancelled(p.queue[0]), TxCancelled, [])
                    .(queue := p.queue[1..], stats := p.stats.(cancelled := Inc(p.stats.cancelled))), taken) by {
        assert Known(Cancelled(p.queue[0]), taken) by { CancelledIsKnown(p.queue[0], taken); }
      }
    }
  }

  lemma CancelledIsKnown(t: Txn, taken: seq<Taken>)
    requires Known(t, taken)
    ensures Known(Cancelled(t), taken)
  {
  }

  lemma StatusIsKnown(t: Txn, s: Status, taken: seq<Taken>)
    requires Known(t, taken)
    ensures Known(t.(status := s), taken) && Known(t.(transmitted := true), taken)
  {
  }

  lemma DropAllHoldings(p: Port, taken: seq<Taken>)
    requires Holdings(p, taken)
    ensures Holdings(DropAll(p), taken)
    ensures var q := DropAll(p); q == p.(queue := q.queue, notices := q.notices, stats := q.stats, active := None)
  {
    hide Inc, FlushAll, Saturate, Carries;
    if p.active.Some? {
      StatusIsKnown(p.active.value, TxCancelled, taken);
      FlushHoldings(Notify(p, p.active.value.(status := TxCancelled), TxCancelled, [])
                    .(active := None, stats := p.stats.(cancelled := Inc(p.stats.cancelled))), taken);
    } else {
      FlushHoldings(p, taken);
    }
  }

  /** The head of the queue leaves it with a notice. */
  lemma HeadHoldings(p: Port, q: Port, n: Notice, taken: seq<Taken>)
    requires Holdings(p, taken) && p.queue != [] && Known(n.txn, taken) && q.active == p.active
    requires q.queue == p.queue[1..] && q.notices == p.notices + [n]
    ensures Holdings(q, taken)
  {
    hide Known;
  }

  /** A step in state Ready: some of the queue is notified, the next may become active. */
  lemma DispatchHoldings(p: Port, now: nat, taken: seq<Taken>)
    requires Holdings(p, taken) && p.active.None? && p.state == Ready
    ensures var q := Dispatch(p, Tick32(now));
            && Holdings(q, taken) && Armed(q, now)
            && q.nextId == p.nextId && q.accepted == p.accepted && q.attempts == p.attempts
            && (q.state == Ready || q.state == Active) && (q.active.Some? <==> q.state == Active)
            && |q.activations| == |p.activations| + if q.active.Some? then 1 else 0
    decreases |p.queue|
  {
    hide Holdings, Known, Armed, Inc, After, Expired, Saturate, Activated, Tick32;
    if p.queue == [] {
      assert Armed(p, now) by { NotArmed(p, now); }
    } else {
      var t, q := p.queue[0], Depth(p.(queue := p.queue[1..]), |p.queue| - 1);
      HeadIsKnown(p, taken);
      if Expired(t.queueDeadline, Tick32(now)) {
        var n := Notice(t.(status := TxTimedOut), TxTimedOut, []);
        var r := Notify(q, n.txn, TxTimedOut, []).(stats := q.stats.(timeouts := Inc(q.stats.timeouts)));
        StatusIsKnown(t, TxTimedOut, taken);
        HeadHoldings(p, r, n, taken);
        DispatchHoldings(r, now, taken);
      } else {
        ActivatedHoldings(p, q, now, taken);
      }
    }
  }

  lemma NotArmed(p: Port, since: nat)
    requires p.active.None?
    ensures Armed(p, since)
  {
  }

  lemma HeadIsKnown(p: Port, taken: seq<Taken>)
    requires Holdings(p, taken) && p.queue != []
    ensures Known(p.queue[0], taken)
  {
  }

  lemma ActivatedHoldings(p: Port, q: Port, now: nat, taken: seq<Taken>)
    requires Holdings(p, taken) && p.queue != [] && p.state == Ready
    requires q.queue == p.queue[1..] && q == p.(queue := q.queue, stats := q.stats)
    ensures var r := Activated(q, p.queue[0], Tick32(now));
            && Holdings(r, taken) && Armed(r, now) && r.state == Active && r.active.Some?
            && r.nextId == p.nextId && r.accepted == p.accepted && r.attempts == p.attempts
            && |r.activations| == |p.activations| + 1
  {
    ActivatedIsKnown(q, p.queue[0], now, taken);
    hide Known, After;
  }

  lemma ActivatedIsKnown(q: Port, t: Txn, now: nat, taken: seq<Taken>)
    requires Known(t, taken)
    ensures var r := Activated(q, t, Tick32(now));
            r.active.Some? && Known(r.active.value, taken) && Armed(r, now) && r.active.value.serial == t.serial
  {
    hide After;
  }

  // ---------------------------------------------------------- each call keeps it

  lemma NewIsCarried(p: Port, r: Request, at: nat, number: nat)
    requires RequestValid(r) && p.nextId == GenerationAt(number)
    ensures Carries(NewTxn(p, r, Tick32(at)), Taken(at, r, number))
  {
  }

  lemma SubmitBook(p: Port, b: Book, r: Request, at: nat)
    requires Inv(p) && Timed(p, b)
    ensures Timed(Submit(p, r, Tick32(at)), Note(b, p, CallSubmit(r), at, Submit(p, r, Tick32(at))))
  {
    hide Inv, Inc, QueueBytes, After, Carries;
    var q := Submit(p, r, Tick32(at));
    var b' := Note(b, p, CallSubmit(r), at, q);
    GenerationNext(b.asked + 1);
    hide GenerationAt;
    if Admission(p, r) == Accepted {
      NewIsCarried(p, r, at, b.asked + 1);
      assert b'.taken == b.taken + [Taken(at, r, b.asked + 1)];
    }
  }

  /** A call that takes nothing in. */
  lemma NotedKeeps(p: Port, b: Book, c: Call, at: nat, q: Port)
    requires Timed(p, b) && !c.CallSubmit? && q.accepted == p.accepted && q.nextId == p.nextId
    requires Holdings(q, b.taken) && Armed(q, Note(b, p, c, at, q).since)
    requires Limited(q, Note(b, p, c, at, q).entered, Note(b, p, c, at, q).interval)
    ensures Timed(q, Note(b, p, c, at, q))
  {
    hide Holdings, Armed, Limited, Limit, Admission;
  }

  lemma StartBook(p: Port, b: Book, timeout: Tick, at: nat)
    requires Timed(p, b)
    ensures var q := Start(p, Tick32(at), timeout); Timed(q, Note(b, p, CallStart(timeout), at, q))
  {
    hide Known, After, Admission, Inc, Tick32;
    NotedKeeps(p, b, CallStart(timeout), at, Start(p, Tick32(at), timeout));
  }

  /** The active transaction ends with a notice, and recovery begins. */
  lemma EndedHoldings(p: Port, q: Port, n: Notice, taken: seq<Taken>)
    requires Holdings(p, taken) && Known(n.txn, taken) && q.notices == p.notices + [n] && q.queue == p.queue
    requires q.active.None?
    ensures Holdings(q, taken)
  {
    hide Known;
  }

  lemma ActiveIsKnown(p: Port, taken: seq<Taken>)
    requires Holdings(p, taken) && p.active.Some?
    ensures forall s :: Known(p.active.value.(status := s), taken)
    ensures forall s :: Known(p.active.value.(transmitted := true, status := s), taken)
    ensures Known(p.active.value.(transmitted := true), taken) && Known(Cancelled(p.active.value), taken)
  {
  }

  lemma WaitingBook(p: Port, b: Book, poll: Poll, at: nat, c: Call)
    requires Inv(p) && Timed(p, b) && p.state == Waiting && c.CallStep?
    ensures var q := StepWaiting(p, Tick32(at), poll); Timed(q, Note(b, p, c, at, q))
  {
    hide Core, Known, Admission, Tick32, StepWaiting, Limited, Limit;
    var q := StepWaiting(p, Tick32(at), poll);
    ActiveIsKnown(p, b.taken);
    WaitingFrame(p, Tick32(at), poll);
    if |q.notices| > |p.notices| {
      assert q.notices == p.notices + [q.notices[|p.notices|]];
      EndedHoldings(p, q, q.notices[|p.notices|], b.taken);
    }
    WaitingLimit(p, b, poll, at, c);
    NotedKeeps(p, b, c, at, q);
  }

  /** The active transaction, in any state it may be told of. */
  ghost predicate TellsActive(p: Port, q: Port)
    requires p.active.Some?
  {
    |q.notices| == |p.notices| + 1 && q.notices[..|p.notices|] == p.notices
    && var t := q.notices[|p.notices|].txn;
       t == p.active.value.(status := t.status) || t == p.active.value.(transmitted := true, status := t.status)
  }

  lemma WaitingFrame(p: Port, now: Tick, poll: Poll)
    requires Inv(p) && p.state == Waiting
    ensures var q := StepWaiting(p, now, poll);
      && p.active.Some? && q.accepted == p.accepted && q.nextId == p.nextId && q.queue == p.queue
      && q.activations == p.activations
      && (q.active.Some? ==>
            q.notices == p.notices && (q.active == p.active
                                       || q.active == Some(p.active.value.(transmitted := true))))
      && (q.active.None? ==> TellsActive(p, q))
  {
    hide Core, Inc, After, Expired;
    if poll.Some? && poll.value.1 == p.active.value.generation {
      EventFrame(p, now, poll);
    } else {
      var q := StepWaiting(p, now, poll);
      assert q.active.None? ==> q.notices[..|p.notices|] == p.notices;
    }
  }

  lemma EventFrame(p: Port, now: Tick, poll: Poll)
    requires p.state == Waiting && p.active.Some? && poll.Some? && poll.value.1 == p.active.value.generation
    ensures var q := StepWaiting(p, now, poll);
      && q.accepted == p.accepted && q.nextId == p.nextId && q.queue == p.queue && q.activations == p.activations
      && (q.active.Some? ==> q.notices == p.notices && q.active == Some(p.active.value.(transmitted := true)))
      && (q.active.None? ==> TellsActive(p, q))
  {
    hide Inc, After;
    var q := StepWaiting(p, now, poll);
    assert q.active.None? ==> q.notices[..|p.notices|] == p.notices;
  }

  lemma WaitingLimit(p: Port, b: Book, poll: Poll, at: nat, c: Call)
    requires Inv(p) && p.state == Waiting && c.CallStep?
    ensures var q := StepWaiting(p, Tick32(at), poll); var b' := Note(b, p, c, at, q);
            Limited(q, b'.entered, b'.interval)
  {
    hide Core, Inc, After, Expired, Tick32, Admission;
  }

  lemma ActiveBook(p: Port, b: Book, backend: Backend, at: nat)
    requires Inv(p) && Timed(p, b) && p.state == Active
    ensures var q := Step(p, Tick32(at), backend); Timed(q, Note(b, p, CallStep(backend), at, q))
  {
    hide Core, Known, Admission, Inc, Tick32, After;
    var q := Step(p, Tick32(at), backend);
    ActiveIsKnown(p, b.taken);
    if !backend.start {
      EndedHoldings(p, q, Notice(p.active.value.(status := TxFailed), TxFailed, []), b.taken);
    }
    NotedKeeps(p, b, CallStep(backend), at, q);
  }

  lemma ReadyBook(p: Port, b: Book, backend: Backend, at: nat)
    requires Inv(p) && Timed(p, b) && p.state == Ready
    ensures var q := Step(p, Tick32(at), backend); Timed(q, Note(b, p, CallStep(backend), at, q))
  {
    hide Core, Known, Admission, Inc, Tick32, After, Dispatch, Holdings, Armed;
    var q := Step(p, Tick32(at), backend);
    DispatchHoldings(p, at, b.taken);
    if q.active.None? {
      NotArmed(q, b.since);
    }
    NotedKeeps(p, b, CallStep(backend), at, q);
  }

  lemma QuietStepBook(p: Port, b: Book, backend: Backend, at: nat)
    requires Inv(p) && Timed(p, b) && p.state != Ready && p.state != Active && p.state != Waiting
    ensures var q := Step(p, Tick32(at), backend); Timed(q, Note(b, p, CallStep(backend), at, q))
  {
    hide Core, Known, Admission, Inc, Tick32, After, Expired, Armed, Limited;
    var q := Step(p, Tick32(at), backend);
    QuietFrame(p, Tick32(at), backend);
    NotArmed(q, b.since);
    QuietLimit(p, b, backend, at);
    NotedKeeps(p, b, CallStep(backend), at, q);
  }

  lemma QuietFrame(p: Port, now: Tick, backend: Backend)
    requires Inv(p) && p.state != Ready && p.state != Active && p.state != Waiting
    ensures var q := Step(p, now, backend);
      && p.active.None? && q.active.None? && q.queue == p.queue && q.notices == p.notices
      && q.activations == p.activations && q.accepted == p.accepted && q.nextId == p.nextId
  {
    hide Core, Inc, After, Expired;
  }

  lemma QuietLimit(p: Port, b: Book, backend: Backend, at: nat)
    requires Inv(p) && Limited(p, b.entered, b.interval) && p.state != Ready && p.state != Active && p.state != Waiting
    ensures var q := Step(p, Tick32(at), backend); var b' := Note(b, p, CallStep(backend), at, q);
            Limited(q, b'.entered, b'.interval)
  {
    hide Core, Admission, Inc, Tick32, After, Expired;
  }

  lemma StepBook(p: Port, b: Book, backend: Backend, at: nat)
    requires Inv(p) && Timed(p, b)
    ensures var q := Step(p, Tick32(at), backend); Timed(q, Note(b, p, CallStep(backend), at, q))
  {
    hide Timed, Inv, Note, Tick32, Dispatch, StepWaiting, StepRecovering, StepReconfiguring, BeginRecovery, Transition;
    match p.state {
      case Ready => ReadyBook(p, b, backend, at);
      case Active => ActiveBook(p, b, backend, at);
      case Waiting => WaitingBook(p, b, backend.poll, at, CallStep(backend));
      case _ => QuietStepBook(p, b, backend, at);
    }
  }

  /** Dropping the active transaction. */
  lemma CancelBook(p: Port, b: Book, c: Call, at: nat, p0: Port)
    requires Inv(p) && Holdings(p, b.taken) && Armed(p, b.since) && Timed(p0, b)
    requires p0 == p.(queue := p0.queue, notices := p0.notices, stats := p0.stats) && (c.CallCancel? || c.CallDetach?)
    ensures var q := CancelActive(p, Tick32(at)); Timed(q, Note(b, p0, c, at, q))
  {
    hide Core, Known, Admission, Inc, Tick32, After;
    var q := CancelActive(p, Tick32(at));
    if p.active.Some? {
      ActiveIsKnown(p, b.taken);
      EndedHoldings(p, q, Notice(Cancelled(p.active.value), TxCancelled, []), b.taken);
    }
    NotedKeeps(p0, b, c, at, q);
  }

  lemma DetachBook(p: Port, b: Book, at: nat)
    requires Inv(p) && Timed(p, b)
    ensures var q := Detach(p, Tick32(at)); Timed(q, Note(b, p, CallDetach, at, q))
  {
    hide Core, Known, Admission, Inc, Tick32, After, FlushAll, CancelActive, Note, Holdings, Saturate;
    FlushHoldings(p, b.taken);
    FlushKeeps(p);
    SameHoldings(FlushAll(p), Flush(p), b.taken);
    CancelBook(Flush(p), b, CallDetach, at, p);
  }

  lemma SameHoldings(p: Port, q: Port, taken: seq<Taken>)
    requires Holdings(p, taken) && q.queue == p.queue && q.notices == p.notices && q.active == p.active
    ensures Holdings(q, taken)
  {
    hide Known;
  }

  lemma DropBook(p: Port, b: Book, c: Call, at: nat)
    requires Inv(p) && Timed(p, b) && (c.CallReconfigure? || c.CallStop? || c.CallReport?)
    ensures var q := Apply(p, c, Tick32(at)); Timed(q, Note(b, p, c, at, q))
  {
    hide Core, Known, Admission, Inc, Tick32, After, DropAll;
    var q := Apply(p, c, Tick32(at));
    DropAllHoldings(p, b.taken);
    NotedKeeps(p, b, c, at, q);
  }

  lemma ApplyBook(p: Port, b: Book, c: Call, at: nat)
    requires Inv(p) && Timed(p, b)
    ensures var q := Apply(p, c, Tick32(at)); Timed(q, Note(b, p, c, at, q))
  {
    hide Inv, Note, Tick32, Start, Submit, Step, CancelActive, Detach, ReportFailure, Reconfigure, Stop, Holdings;
    match c {
      case CallStart(timeout) => StartBook(p, b, timeout, at);
      case CallSubmit(r) => SubmitBook(p, b, r, at);
      case CallStep(backend) => StepBook(p, b, backend, at);
      case CallCancel => CancelBook(p, b, c, at, p);
      case CallDetach => DetachBook(p, b, at);
      case _ => DropBook(p, b, c, at);
    }
  }

  /** Over every history the deadlines are those of the requests in the book. */
  lemma {:induction false} LifeIsTimed(config: Config, es: seq<(Call, nat)>)
    ensures var (p, b) := Life(config, es); Inv(p) && Timed(p, b)
    decreases |es|
  {
    hide Inv, Timed, Apply, Note, Init, Tick32;
    if es == [] {
      InitHolds(config);
      InitIsTimed(config);
    } else {
      var n := |es| - 1;
      var (p, b) := Life(config, es[..n]);
      LifeIsTimed(config, es[..n]);
      ApplyKeeps(p, es[n].0, Tick32(es[n].1));
      ApplyBook(p, b, es[n].0, es[n].1);
    }
  }

  lemma InitIsTimed(config: Config)
    ensures Timed(Init(config), Book([], 0, 0, 0, 0))
  {
    assert GenerationAt(1) == 1;
  }

  // ------------------------------------------------------------ response timeouts

  /** When the answer to the active transaction is due. */
  function AnswerDue(p: Port, b: Book): nat
    requires p.active.Some? && p.active.value.serial < |b.taken|
  {
    b.since + b.taken[p.active.value.serial].request.responseTimeout
  }

  /** The backend reports nothing of the active transaction. */
  predicate Silent(c: Call) { c.CallStep? && c.backend.poll.None? }

  /** A call that drops nothing: the backend starts what it is given and reports nothing but what is out of date. */
  predicate Quiet(p: Port, c: Call) {
    match c
    case CallStep(backend) => backend.start && (backend.poll.None? || backend.poll.value.1 != p.generation)
    case CallCancel => false
    case CallDetach => false
    case CallReconfigure(config, timeout) => !Reconfigurable(p, config, timeout)
    case CallStop(timeout) => !Stoppable(p, timeout)
    case _ => true
  }

  /** The transaction `t` is told that its time is over, and recovery begins. */
  predicate ToldLate(p: Port, t: Txn, q: Port) {
    && q.notices == p.notices + [Notice(t.(status := TxTimedOut), TxTimedOut, [])]
    && q.active.None? && q.state == Recovering
  }

  /** The same transaction is active still, and nobody was notified. */
  predicate GoesOn(p: Port, b: Book, q: Port, b': Book)
    requires p.active.Some?
  {
    && q.active.Some? && q.active.value.serial == p.active.value.serial && q.notices == p.notices
    && b'.since == b.since && b.taken <= b'.taken
  }

  /** One quiet call: the transaction times out in a silent step of a waiting port that comes when the answer is due. */
  lemma QuietCall(p: Port, b: Book, c: Call, at: nat)
    requires Inv(p) && Timed(p, b) && p.active.Some? && Quiet(p, c)
    requires b.since <= at < AnswerDue(p, b) + TWO31
    ensures var q := Apply(p, c, Tick32(at)); var b' := Note(b, p, c, at, q);
            if p.state == Waiting && Silent(c) && at >= AnswerDue(p, b) then ToldLate(p, p.active.value, q)
            else GoesOn(p, b, q, b') && q.state == if c.CallStep? then Waiting else p.state
  {
    hide Core, Tick32, After, Inc, Expired, Carries;
    assert Known(p.active.value, b.taken) && p.active.value.responseDeadline
                                             == After(Tick32(b.since), p.active.value.responseTimeout);
    KnownTimeouts(p.active.value, b.taken);
    ExpiredIsPassed(b.since, p.active.value.responseTimeout, at);
    ActiveGeneration(p);
    hide Timed, Known;
    if c.CallSubmit? {
      SubmitIsQuiet(p, b, c.request, at);
    }
  }

  lemma KnownTimeouts(t: Txn, taken: seq<Taken>)
    requires Known(t, taken)
    ensures t.responseTimeout == taken[t.serial].request.responseTimeout && ValidInterval(t.responseTimeout)
    ensures var k := taken[t.serial];
            t.queueDeadline == After(Tick32(k.at), k.request.queueTimeout) && ValidInterval(k.request.queueTimeout)
  {
  }

  lemma SubmitIsQuiet(p: Port, b: Book, r: Request, at: nat)
    requires Inv(p) && p.active.Some?
    ensures var q := Submit(p, r, Tick32(at)); var b' := Note(b, p, CallSubmit(r), at, q);
            GoesOn(p, b, q, b') && q.state == p.state
  {
    hide Core, Tick32, After, Inc;
  }

  predicate Ordered(es: seq<(Call, nat)>) {
    forall i, j | 0 <= i < j < |es| :: es[i].1 <= es[j].1
  }

  /** The call `k` of the history activates a transaction. */
  predicate Activates(config: Config, es: seq<(Call, nat)>, k: nat)
    requires k < |es|
  {
    |Life(config, es[..k + 1]).0.activations| > |Life(config, es[..k]).0.activations|
  }

  /** From then on nobody drops it, and the backend reports nothing of it. */
  ghost predicate QuietSince(config: Config, es: seq<(Call, nat)>, k: nat) {
    forall j | k < j < |es| :: Quiet(Life(config, es[..j]).0, es[j].0)
  }

  /** A step has come between the calls `k` and `j`. */
  predicate Stepped(es: seq<(Call, nat)>, k: nat, j: nat)
    requires j <= |es|
  {
    exists i | k < i < j :: es[i].0.CallStep?
  }

  /** The call `j` is the silent step of a port that waits since before, at `due` or later. */
  predicate TimeUp(es: seq<(Call, nat)>, k: nat, j: nat, due: nat)
    requires j < |es|
  {
    Stepped(es, k, j) && Silent(es[j].0) && es[j].1 >= due
  }

  /** The transaction activated by call `k`, as it was then, and what was known of it. */
  function ActivatedBy(config: Config, es: seq<(Call, nat)>, k: nat): (Port, Book)
    requires k < |es|
  {
    Life(config, es[..k + 1])
  }

  lemma ActivationIsNoted(config: Config, es: seq<(Call, nat)>, k: nat)
    requires k < |es| && Activates(config, es, k)
    ensures var (p, b) := ActivatedBy(config, es, k);
            Inv(p) && Timed(p, b) && p.active.Some? && p.active.value.serial < |b.taken| && p.state == Active
            && b.since == es[k].1
  {
    assert es[..k + 1][..k] == es[..k] && es[..k + 1][k] == es[k];
    LifeIsTimed(config, es[..k]);
    LifeIsTimed(config, es[..k + 1]);
    var (p, b) := Life(config, es[..k]);
    OnlyReadyActivates(p, b, es[k].0, es[k].1);
    ActiveIsInBook(ActivatedBy(config, es, k).0, ActivatedBy(config, es, k).1);
    hide Inv, Timed, Life, Note;
  }

  lemma OnlyReadyActivates(p: Port, b: Book, c: Call, at: nat)
    requires Inv(p) && Timed(p, b) && |Apply(p, c, Tick32(at)).activations| > |p.activations|
    ensures var q := Apply(p, c, Tick32(at));
            q.active.Some? && q.state == Active && Note(b, p, c, at, q).since == at
  {
    NoteSince(p, b, c, at);
    TimedHoldings(p, b);
    hide Core, Tick32, Timed, Note, Holdings, Apply, Dispatch;
    if c.CallStep? && p.state == Ready {
      DispatchHoldings(p, at, b.taken);
      assert Apply(p, c, Tick32(at)) == Dispatch(p, Tick32(at)) by { ReadyStep(p, c, Tick32(at)); }
    } else {
      OthersActivateNothing(p, b, c, Tick32(at));
    }
  }

  lemma ReadyStep(p: Port, c: Call, now: Tick)
    requires c.CallStep? && p.state == Ready
    ensures Apply(p, c, now) == Dispatch(p, now)
  {
  }

  lemma OthersActivateNothing(p: Port, b: Book, c: Call, now: Tick)
    requires Inv(p) && Holdings(p, b.taken) && !(c.CallStep? && p.state == Ready)
    ensures Apply(p, c, now).activations == p.activations
  {
    hide Core, After, Inc, Expired, Dispatch, FlushAll, Holdings, Admission, DropAll;
    FlushHoldings(p, b.taken);
    DropAllHoldings(p, b.taken);
  }

  lemma NoteSince(p: Port, b: Book, c: Call, at: nat)
    ensures var q := Apply(p, c, Tick32(at));
            |q.activations| > |p.activations| ==> Note(b, p, c, at, q).since == at
  {
    hide Apply;
  }

  lemma TimedHoldings(p: Port, b: Book)
    requires Timed(p, b)
    ensures Holdings(p, b.taken)
  {
  }

  /** The transaction activated by call `k` is waiting for its answer, and nobody was notified since. */
  ghost predicate Waits(config: Config, es: seq<(Call, nat)>, k: nat, j: nat)
    requires k < j <= |es|
  {
    var (p0, b0) := ActivatedBy(config, es, k);
    var (p, b) := Life(config, es[..j]);
    && Inv(p) && Timed(p, b) && p0.active.Some? && GoesOn(p0, b0, p, b)
    && p.state == if Stepped(es, k, j) then Waiting else Active
  }

  /** The calls after the activation are quiet, in order, and within 2^31 ms of the time the answer is due. */
  ghost predicate Unanswered(config: Config, es: seq<(Call, nat)>, k: nat)
    requires k < |es|
  {
    && Ordered(es) && Activates(config, es, k) && QuietSince(config, es, k)
    && forall j | k < j < |es| :: es[j].1 < DueOf(config, es, k) + TWO31
  }

  /** When the answer to the transaction activated by call `k` is due. */
  ghost function DueOf(config: Config, es: seq<(Call, nat)>, k: nat): nat
    requires k < |es| && Activates(config, es, k)
  {
    ActivationIsNoted(config, es, k);
    var (p, b) := ActivatedBy(config, es, k);
    AnswerDue(p, b)
  }

  /** Until its time is up the transaction waits. */
  lemma {:induction false} WaitsTillDue(config: Config, es: seq<(Call, nat)>, k: nat, j: nat)
    requires k < j <= |es| && Unanswered(config, es, k)
    requires forall i | k < i < j :: !TimeUp(es, k, i, DueOf(config, es, k))
    ensures Waits(config, es, k, j)
    decreases j
  {
    hide Inv, Timed, Apply, Note, Tick32, Life, Quiet;
    ActivationIsNoted(config, es, k);
    if j > k + 1 {
      WaitsTillDue(config, es, k, j - 1);
      WaitsOn(config, es, k, j - 1);
    }
  }

  /** One call more: it is the step in which the time is up, or the transaction waits on. */
  lemma WaitsOn(config: Config, es: seq<(Call, nat)>, k: nat, j: nat)
    requires k < j < |es| && Unanswered(config, es, k) && Waits(config, es, k, j)
    ensures if TimeUp(es, k, j, DueOf(config, es, k))
            then ToldLate(Life(config, es[..j]).0, Life(config, es[..j]).0.active.value, Life(config, es[..j + 1]).0)
            else Waits(config, es, k, j + 1)
  {
    hide Inv, Timed, Apply, Note, Tick32;
    var (p0, b0) := ActivatedBy(config, es, k);
    var (p, b) := Life(config, es[..j]);
    assert es[..j + 1][..j] == es[..j] && es[..j + 1][j] == es[j];
    ActivationIsNoted(config, es, k);
    assert es[k].1 <= es[j].1;
    hide Life;
    ActiveIsInBook(p, b);
    assert AnswerDue(p, b) == DueOf(config, es, k);
    QuietCall(p, b, es[j].0, es[j].1);
    LifeIsTimed(config, es[..j + 1]);
    assert Stepped(es, k, j + 1) <==> Stepped(es, k, j) || es[j].0.CallStep?;
  }

  /** What was asked for by the transaction that is active. */
  function ActiveRequest(life: (Port, Book)): Request
    requires life.0.active.Some? && life.0.active.value.serial < |life.1.taken|
  {
    life.1.taken[life.0.active.value.serial].request
  }

  /** Since `p0` exactly one notice was given: that its active transaction, as it was asked for, timed out. */
  ghost predicate ToldOnce(p0: Port, b0: Book, p: Port) {
    && p0.active.Some? && p0.active.value.serial < |b0.taken| && |p.notices| == |p0.notices| + 1
    && p.state == Recovering && p.active.None?
    && p.notices[..|p0.notices|] == p0.notices && Count(p.notices, p0.active.value.serial) == 1
    && var last := p.notices[|p0.notices|];
       && last.status == TxTimedOut && last.txn.serial == p0.active.value.serial && last.response == []
       && last.txn.payload == b0.taken[p0.active.value.serial].request.payload
       && last.txn.ownerId == b0.taken[p0.active.value.serial].request.ownerId
       && last.txn.metadata == b0.taken[p0.active.value.serial].request.metadata
  }

  lemma ActiveIsInBook(p: Port, b: Book)
    requires Timed(p, b) && p.active.Some?
    ensures p.active.value.serial < |b.taken|
  {
  }

  /**
   * A transaction that is active, which nobody drops and of which the backend says
   * nothing but what is out of date, is told exactly once that its time is over: in
   * the first silent step of the waiting port at or after its activation plus its
   * response timeout. Until then it is active and nobody is notified.
   */
  lemma TimesOutOnce(config: Config, es: seq<(Call, nat)>, k: nat)
    requires k < |es| - 1 && Unanswered(config, es, k)
    requires TimeUp(es, k, |es| - 1, DueOf(config, es, k))
    requires forall j | k < j < |es| - 1 :: !TimeUp(es, k, j, DueOf(config, es, k))
    ensures forall j | k < j < |es| :: Waits(config, es, k, j)
    ensures ToldOnce(ActivatedBy(config, es, k).0, ActivatedBy(config, es, k).1, Life(config, es).0)
    ensures DueOf(config, es, k) == es[k].1 + ActiveRequest(ActivatedBy(config, es, k)).responseTimeout
  {
    hide Inv, Timed, Apply, Note, Tick32, Life, Unanswered;
    var n := |es| - 1;
    assert Activates(config, es, k) by { UnansweredActivates(config, es, k); }
    ActivationIsNoted(config, es, k);
    forall j | k < j < |es| ensures Waits(config, es, k, j) {
      WaitsTillDue(config, es, k, j);
    }
    WaitsOn(config, es, k, n);
    assert es[..n + 1] == es;
    LifeIsTimed(config, es);
    var (p0, b0) := ActivatedBy(config, es, k);
    var (p, b) := Life(config, es[..n]);
    ActiveCarries(p, b, b0);
    OneNotice(Life(config, es).0, p0.active.value.serial, |p.notices|);
  }

  lemma UnansweredActivates(config: Config, es: seq<(Call, nat)>, k: nat)
    requires k < |es| && Unanswered(config, es, k)
    ensures Activates(config, es, k)
  {
  }

  lemma ActiveCarries(p: Port, b: Book, b0: Book)
    requires Timed(p, b) && p.active.Some? && b0.taken <= b.taken && p.active.value.serial < |b0.taken|
    ensures var r := b0.taken[p.active.value.serial].request;
            p.active.value.payload == r.payload && p.active.value.ownerId == r.ownerId
            && p.active.value.metadata == r.metadata
  {
  }

  lemma OneNotice(p: Port, s: nat, i: nat)
    requires Inv(p) && i < |p.notices| && p.notices[i].txn.serial == s
    ensures Count(p.notices, s) == 1
  {
    hide GenerationAt, QueueBytes, Tally, Saturate;
    CountsAny(p.notices, s, i);
  }

  lemma {:induction false} CountsAny(ns: seq<Notice>, s: nat, i: nat)
    requires i < |ns| && ns[i].txn.serial == s
    ensures Count(ns, s) >= 1
  {
    if i < |ns| - 1 {
      CountsAny(ns[..|ns| - 1], s, i);
    }
  }

  // --------------------------------------------------------------- queue timeouts

  /** When the queued transaction's time in the queue is over. */
  function QueueDue(t: Txn, taken: seq<Taken>): nat
    requires t.serial < |taken|
  {
    taken[t.serial].at + taken[t.serial].request.queueTimeout
  }

  /** The clock reads within 2^31 ms after the end of every time allowed to what is queued. */
  ghost predicate QueueInTime(queue: seq<Txn>, taken: seq<Taken>, now: nat) {
    forall i | 0 <= i < |queue| ::
      queue[i].serial < |taken| && taken[queue[i].serial].at <= now < QueueDue(queue[i], taken) + TWO31
  }

  function Late(t: Txn): Notice { Notice(t.(status := TxTimedOut), TxTimedOut, []) }

  /** `n` transactions at the head of the queue are overdue and told so, in order; the next, if any, is activated. */
  ghost predicate Dispatched(queue: seq<Txn>, notices: seq<Notice>, q: Port, taken: seq<Taken>, now: nat, n: nat)
    requires QueueInTime(queue, taken, now)
  {
    && n <= |queue| && |q.notices| == |notices| + n && notices <= q.notices
    && (forall i | 0 <= i < n :: QueueDue(queue[i], taken) <= now)
    && (forall i | 0 <= i < n :: q.notices[|notices| + i] == Late(queue[i]))
    && if n < |queue|
       then QueueDue(queue[n], taken) > now && q.queue == queue[n + 1..]
            && q.state == Active && q.active.Some? && q.active.value.serial == queue[n].serial
       else q.queue == [] && q.state == Ready && q.active.None?
  }

  lemma {:induction false} DispatchIsTimed(p: Port, taken: seq<Taken>, now: nat) returns (n: nat)
    requires Holdings(p, taken) && p.state == Ready && p.active.None? && QueueInTime(p.queue, taken, now)
    ensures Dispatched(p.queue, p.notices, Dispatch(p, Tick32(now)), taken, now, n)
    decreases |p.queue|
  {
    hide Known, Inc, After, Expired, Saturate, Tick32;
    n := 0;
    if p.queue != [] {
      var t, q := p.queue[0], Depth(p.(queue := p.queue[1..]), |p.queue| - 1);
      KnownTimeouts(t, taken);
      ExpiredIsPassed(taken[t.serial].at, taken[t.serial].request.queueTimeout, now);
      if Expired(t.queueDeadline, Tick32(now)) {
        var r := Notify(q, t.(status := TxTimedOut), TxTimedOut, [])
          .(stats := q.stats.(timeouts := Inc(q.stats.timeouts)));
        StatusIsKnown(t, TxTimedOut, taken);
        HeadHoldings(p, r, Late(t), taken);
        var m := DispatchIsTimed(r, taken, now);
        n := m + 1;
        LateFirst(p, r, Dispatch(p, Tick32(now)), taken, now, m);
      }
    }
  }

  lemma LateFirst(p: Port, r: Port, q: Port, taken: seq<Taken>, now: nat, m: nat)
    requires p.queue != [] && QueueInTime(p.queue, taken, now) && r.queue == p.queue[1..]
    requires r.notices == p.notices + [Late(p.queue[0])] && QueueDue(p.queue[0], taken) <= now
    requires QueueInTime(r.queue, taken, now) && Dispatched(r.queue, r.notices, q, taken, now, m)
    ensures Dispatched(p.queue, p.notices, q, taken, now, m + 1)
  {
    hide QueueDue, Late;
    forall i | 0 <= i < m + 1
      ensures q.notices[|p.notices| + i] == Late(p.queue[i]) && QueueDue(p.queue[i], taken) <= now
    {
      if i > 0 {
        assert r.queue[i - 1] == p.queue[i];
        assert q.notices[|r.notices| + (i - 1)] == Late(r.queue[i - 1]);
      } else {
        assert q.notices[|p.notices|] == r.notices[|p.notices|];
      }
    }
    assert m == |r.queue| || r.queue[m + 1..] == p.queue[m + 2..];
  }

  /** Everything in the book was written at or before `now`. */
  ghost predicate BookBy(b: Book, now: nat) {
    && b.since <= now && b.entered <= now && forall i | 0 <= i < |b.taken| :: b.taken[i].at <= now
  }

  lemma {:induction false} BookIsPast(config: Config, es: seq<(Call, nat)>, now: nat)
    requires Ordered(es) && (es != [] ==> es[|es| - 1].1 <= now)
    ensures BookBy(Life(config, es).1, now)
    decreases |es|
  {
    hide Apply, Tick32, Init;
    if es != [] {
      BookIsPast(config, es[..|es| - 1], now);
    }
  }

  /** The times allowed to what the port holds ended less than 2^31 ms ago. */
  ghost predicate InTime(p: Port, b: Book, now: nat) {
    && (p.active.Some? ==> p.active.value.serial < |b.taken| && now < AnswerDue(p, b) + TWO31)
    && forall i | 0 <= i < |p.queue| :: p.queue[i].serial < |b.taken| && now < QueueDue(p.queue[i], b.taken) + TWO31
  }

  /**
   * A step of a port that is ready, in any history: what heads the queue and is
   * overdue is told so, in order, and the first that is not becomes active.
   */
  lemma ReadyStepIsTimed(config: Config, es: seq<(Call, nat)>, backend: Backend, now: nat) returns (n: nat)
    requires Ordered(es) && (es != [] ==> es[|es| - 1].1 <= now)
    requires var (p, b) := Life(config, es); p.state == Ready && InTime(p, b, now)
    ensures var (p, b) := Life(config, es);
            && QueueInTime(p.queue, b.taken, now)
            && Dispatched(p.queue, p.notices, Step(p, Tick32(now), backend), b.taken, now, n)
  {
    LifeIsTimed(config, es);
    BookIsPast(config, es, now);
    hide Life, Core, Dispatched, Dispatch, Known, Armed, Limited, Tick32;
    var (p, b) := Life(config, es);
    n := DispatchIsTimed(p, b.taken, now);
  }

  // ------------------------------------------------------------------ never early

  /** Nobody is told that its time is over. */
  ghost predicate NoneLate(p: Port, q: Port) {
    p.notices <= q.notices && forall i | |p.notices| <= i < |q.notices| :: q.notices[i].status != TxTimedOut
  }

  /** Whoever is told so was active, its answer due, or queued, its time in the queue over. */
  ghost predicate LateOnly(p: Port, b: Book, q: Port, now: nat) {
    && p.notices <= q.notices
    && forall i | |p.notices| <= i < |q.notices| && q.notices[i].status == TxTimedOut ::
         var t := q.notices[i].txn;
         && t.serial < |b.taken|
         && if Holds(p, t.serial) then now >= AnswerDue(p, b)
            else Queued(p, t.serial) && now >= QueueDue(t, b.taken)
  }

  lemma FlushTellsNoneLate(p: Port)
    ensures NoneLate(p, FlushAll(p))
    decreases |p.queue|
  {
    hide Inc;
    if p.queue != [] {
      FlushTellsNoneLate(Notify(p, Cancelled(p.queue[0]), TxCancelled, [])
                         .(queue := p.queue[1..], stats := p.stats.(cancelled := Inc(p.stats.cancelled))));
    }
  }

  lemma DropTellsNoneLate(p: Port, c: Call, now: Tick)
    requires Inv(p) && !c.CallStep?
    ensures NoneLate(p, Apply(p, c, now))
  {
    hide Core, Inc, Saturate, FlushAll, After, Admission;
    FlushTellsNoneLate(p);
    if p.active.Some? {
      FlushTellsNoneLate(Notify(p, p.active.value.(status := TxCancelled), TxCancelled, [])
                         .(active := None, stats := p.stats.(cancelled := Inc(p.stats.cancelled))));
    }
  }

  lemma WaitingIsNotEarly(p: Port, b: Book, backend: Backend, now: nat)
    requires Inv(p) && Timed(p, b) && p.state == Waiting && b.since <= now && InTime(p, b, now)
    ensures LateOnly(p, b, Step(p, Tick32(now), backend), now)
  {
    hide Core, Inc, Tick32, After, Expired, Carries;
    ActiveIsInBook(p, b);
    assert Known(p.active.value, b.taken) && Armed(p, b.since);
    KnownTimeouts(p.active.value, b.taken);
    ExpiredIsPassed(b.since, p.active.value.responseTimeout, now);
    hide Timed, Known;
  }

  lemma ReadyIsNotEarly(p: Port, b: Book, backend: Backend, now: nat)
    requires Inv(p) && Timed(p, b) && p.state == Ready && BookBy(b, now) && InTime(p, b, now)
    ensures LateOnly(p, b, Step(p, Tick32(now), backend), now)
  {
    hide Core, Dispatch, Known, Armed, Limited, Tick32;
    var n := DispatchIsTimed(p, b.taken, now);
    var q := Step(p, Tick32(now), backend);
    forall i | |p.notices| <= i < |q.notices| && q.notices[i].status == TxTimedOut
      ensures var t := q.notices[i].txn;
              t.serial < |b.taken| && Queued(p, t.serial) && now >= QueueDue(t, b.taken)
    {
      var k := i - |p.notices|;
      assert q.notices[|p.notices| + k] == Late(p.queue[k]) && p.queue[k].serial == q.notices[i].txn.serial;
    }
  }

  lemma OtherStepsTellNoneLate(p: Port, backend: Backend, now: Tick)
    requires Inv(p) && p.state != Ready && p.state != Waiting
    ensures NoneLate(p, Step(p, now, backend))
  {
    hide Core, Inc, After, Expired;
  }

  /** In any history, nobody is told that its time is over before it is. */
  lemma TimeoutsAreDue(config: Config, es: seq<(Call, nat)>, c: Call, now: nat)
    requires Ordered(es) && (es != [] ==> es[|es| - 1].1 <= now)
    requires var (p, b) := Life(config, es); InTime(p, b, now)
    ensures var (p, b) := Life(config, es); LateOnly(p, b, Apply(p, c, Tick32(now)), now)
  {
    LifeIsTimed(config, es);
    BookIsPast(config, es, now);
    hide Life, Inv, Timed, Tick32, Step, InTime;
    var (p, b) := Life(config, es);
    if !c.CallStep? {
      DropTellsNoneLate(p, c, Tick32(now));
    } else if p.state == Ready {
      ReadyIsNotEarly(p, b, c.backend, now);
    } else if p.state == Waiting {
      WaitingIsNotEarly(p, b, c.backend, now);
    } else {
      OtherStepsTellNoneLate(p, c.backend, Tick32(now));
    }
    hide Apply;
    assert NoneLate(p, Apply(p, c, Tick32(now))) || LateOnly(p, b, Apply(p, c, Tick32(now)), now);
  }

  // ------------------------------------------------------------- the other deadlines

  /** When the state that the port is in is to end, at the latest. */
  function StateDue(b: Book): nat { b.entered + b.interval }

  /** What a step makes of the four states that have a deadline, before it and from then on. */
  lemma StateIsTimed(p: Port, b: Book, backend: Backend, now: nat)
    requires Inv(p) && Timed(p, b) && b.entered <= now < StateDue(b) + TWO31
    ensures var q := Step(p, Tick32(now), backend);
            match p.state
            case Starting =>
              && q.state == (if backend.open then Ready else if now < StateDue(b) then Starting else Recovering)
              && (q.state != Starting ==> q.attempts == 0)
            case Recovering =>
              if now < StateDue(b) then q.state == Recovering && q.attempts == p.attempts
              else if backend.recover then q.state == Ready && q.attempts == 0
              else q.attempts == p.attempts + 1
                   && q.state == if q.attempts < RECOVERY_MAX_ATTEMPTS then Recovering else Degraded
            case Reconfiguring =>
              if now < StateDue(b) && backend.staged
              then q.state == Ready && q.current == p.staged && q.knownGood == p.staged
              else q.current == p.current && q.state == if backend.knownGood then Ready else Failed
            case Stopping =>
              q.state == if backend.stop then Disabled else if now < StateDue(b) then Stopping else Failed
            case _ => true
  {
    hide Core, Inc, Tick32, After, Expired, Holdings, Armed, Dispatch;
    if p.state in {Starting, Recovering, Reconfiguring, Stopping} {
      assert p.deadline == After(Tick32(b.entered), b.interval) && ValidInterval(b.interval);
      ExpiredIsPassed(b.entered, b.interval, now);
    }
  }

  /** Whatever begins recovery, the first of at most three tries is 5 ms later, each further one 5 ms after the last. */
  lemma RecoveryIsPaced(config: Config, es: seq<(Call, nat)>, c: Call, now: nat)
    requires Ordered(es) && (es != [] ==> es[|es| - 1].1 <= now)
    ensures var (p, b) := Life(config, es); var (q, b') := Life(config, es + [(c, now)]);
            && (q.state == Recovering && p.state != Recovering ==> q.attempts == 0 && StateDue(b') == now + 5)
            && (q.state == Recovering && p.state == Recovering && q.attempts != p.attempts ==>
                  q.attempts == p.attempts + 1 < 3 && StateDue(b') == now + 5)
            && (q.state == Recovering && p.state == Recovering && q.attempts == p.attempts ==>
                  StateDue(b') == StateDue(b))
  {
    LifeIsTimed(config, es);
    assert (es + [(c, now)])[..|es|] == es;
    var (p, b) := Life(config, es);
    BeginsAnew(p, c, Tick32(now));
    hide Life, Inv, Timed, Tick32;
    NoteInterval(p, b, c, now);
  }

  /** Recovery is begun afresh, or goes on, with its tries counted. */
  predicate Begins(p: Port, c: Call, q: Port) {
    && (q.state == Recovering && p.state != Recovering ==>
          q.attempts == 0 && !(c.CallStart? || c.CallStop? || c.CallReconfigure?))
    && (q.state == Recovering && p.state == Recovering && q.attempts != p.attempts ==>
          c.CallStep? && q.attempts == p.attempts + 1 < 3)
  }

  lemma BeginsAnew(p: Port, c: Call, now: Tick)
    requires Inv(p)
    ensures Begins(p, c, Apply(p, c, now))
  {
    hide Inv, Begins, Step, Start, Submit, CancelActive, Detach, ReportFailure, Reconfigure, Stop;
    if !c.CallStep? {
      CallBegins(p, c, now);
    } else if p.state == Ready {
      ReadyBegins(p, c, now);
    } else {
      StepBegins(p, c, now);
    }
  }

  lemma ReadyBegins(p: Port, c: Call, now: Tick)
    requires Inv(p) && c.CallStep? && p.state == Ready
    ensures Begins(p, c, Apply(p, c, now))
  {
    DispatchKeeps(p, now);
    ReadyStep(p, c, now);
    hide Apply, Core;
  }

  lemma StepBegins(p: Port, c: Call, now: Tick)
    requires Inv(p) && c.CallStep? && p.state != Ready
    ensures Begins(p, c, Apply(p, c, now))
  {
    hide Core, Inc, After, Expired, Dispatch;
  }

  lemma CallBegins(p: Port, c: Call, now: Tick)
    requires Inv(p) && !c.CallStep?
    ensures Begins(p, c, Apply(p, c, now))
  {
    hide Core, Inc, After, Admission, FlushAll, Saturate;
    FlushAllKeeps(p);
    if p.active.Some? {
      hide DropAll;
    }
    DropAllKeeps(p);
  }

  lemma NoteInterval(p: Port, b: Book, c: Call, now: nat)
    ensures var q := Apply(p, c, Tick32(now)); var b' := Note(b, p, c, now, q);
            if q.state != p.state || q.attempts != p.attempts then b'.entered == now && b'.interval == Limit(c)
            else b'.entered == b.entered && b'.interval == b.interval
  {
    hide Apply;
  }
}
