/**
 * What every sequence of calls keeps of a port, whatever its backend answers:
 * accepted transactions are notified exactly once, in a ledger that the
 * statistics agree with; activations come in order, each with its own
 * generation; no request ever causes an illegal transition.
 */
module PortProperties {
  import opened Base
  import opened Deadline
  import opened PortModel

  // ------------------------------------------------------------- the ledger

  /** How often the transaction with acceptance number `s` was notified. */
  function Count(ns: seq<Notice>, s: nat): nat {
    if ns == [] then 0 else Count(ns[..|ns| - 1], s) + if ns[|ns| - 1].txn.serial == s then 1 else 0
  }

  function Tally(ns: seq<Notice>, st: Status): nat {
    if ns == [] then 0 else Tally(ns[..|ns| - 1], st) + if ns[|ns| - 1].status == st then 1 else 0
  }

  lemma CountSnoc(ns: seq<Notice>, n: Notice, s: nat, st: Status)
    ensures Count(ns + [n], s) == Count(ns, s) + if n.txn.serial == s then 1 else 0
    ensures Tally(ns + [n], st) == Tally(ns, st) + if n.status == st then 1 else 0
  {
    assert (ns + [n])[..|ns|] == ns;
  }

  lemma IncSaturates(n: nat)
    ensures Inc(Saturate(n)) == Saturate(n + 1)
  {
  }

  /** Accepted transactions that left the queue. */
  function Popped(p: Port): int { p.accepted - |p.queue| }

  predicate Holds(p: Port, s: nat) { p.active.Some? && p.active.value.serial == s }

  /** The generation of the n-th activation; 0 before the first. */
  function GenerationAt(n: nat): Word {
    if n == 0 then 0 else 1 + (n - 1) % (TWO32 - 1)
  }

  ghost predicate QueueOk(p: Port) {
    && |p.queue| <= QUEUE_CAPACITY && QueueBytes(p.queue) <= QUEUE_BYTES_MAX
    && |p.queue| <= p.accepted
    && forall i | 0 <= i < |p.queue| :: p.queue[i].serial == Popped(p) + i
  }

  /** Exactly once: what was accepted and is neither queued nor active has one notice, nothing else has any. */
  ghost predicate Ledger(p: Port) {
    && |p.notices| + (if p.active.Some? then 1 else 0) == Popped(p)
    && forall s: nat :: Count(p.notices, s) == if s < Popped(p) && !Holds(p, s) then 1 else 0
  }

  ghost predicate InOrder(p: Port) {
    && (forall i, j | 0 <= i < j < |p.activations| :: p.activations[i].0 < p.activations[j].0)
    && (forall i | 0 <= i < |p.activations| :: p.activations[i].0 < Popped(p))
    && (forall i | 0 <= i < |p.activations| :: p.activations[i].1 == GenerationAt(i + 1))
    && p.generation == GenerationAt(|p.activations|)
    && (p.active.Some? ==>
          && p.activations != []
          && p.activations[|p.activations| - 1] == (p.active.value.serial, p.active.value.generation)
          && p.active.value.generation == p.generation)
  }

  ghost predicate Counted(p: Port) {
    && p.stats.accepted == Saturate(p.accepted)
    && p.stats.completed == Saturate(Tally(p.notices, TxCompleted))
    && p.stats.timeouts == Saturate(Tally(p.notices, TxTimedOut))
    && p.stats.cancelled == Saturate(Tally(p.notices, TxCancelled))
  }

  ghost predicate Core(p: Port) {
    QueueOk(p) && Ledger(p) && InOrder(p) && Counted(p)
  }

  predicate QueueIdle(s: PortState) { s in {Disabled, Starting, Reconfiguring, Stopping, Failed} }

  ghost predicate Inv(p: Port) {
    && Core(p)
    && (p.active.Some? <==> p.state == Active || p.state == Waiting)
    && (QueueIdle(p.state) ==> p.queue == [])
  }

  // -------------------------------------------------------- building blocks

  /** Fields that the invariant does not look at. */
  predicate SameCore(p: Port, q: Port) {
    && q.queue == p.queue && q.active == p.active && q.generation == p.generation && q.notices == p.notices
    && q.accepted == p.accepted && q.activations == p.activations
    && q.stats.accepted == p.stats.accepted && q.stats.completed == p.stats.completed
    && q.stats.timeouts == p.stats.timeouts && q.stats.cancelled == p.stats.cancelled
  }

  lemma SameCoreKeeps(p: Port, q: Port)
    requires Core(p) && SameCore(p, q)
    ensures Core(q)
  {
  }

  /** Dropping the active transaction with a notice. */
  lemma FinishKeeps(p: Port, q: Port, n: Notice)
    requires Core(p) && p.active.Some? && n.txn.serial == p.active.value.serial
    requires q.active == None && q.notices == p.notices + [n]
    requires q.queue == p.queue && q.generation == p.generation && q.accepted == p.accepted
             && q.activations == p.activations
    requires q.stats.accepted == p.stats.accepted
    requires q.stats.completed == if n.status == TxCompleted then Inc(p.stats.completed) else p.stats.completed
    requires q.stats.timeouts == if n.status == TxTimedOut then Inc(p.stats.timeouts) else p.stats.timeouts
    requires q.stats.cancelled == if n.status == TxCancelled then Inc(p.stats.cancelled) else p.stats.cancelled
    ensures Core(q)
  {
    hide Count, Tally, QueueBytes, Saturate, Inc, GenerationAt;
    forall s: nat ensures Count(q.notices, s) == if s < Popped(q) && !Holds(q, s) then 1 else 0 {
      CountSnoc(p.notices, n, s, TxCompleted);
    }
    TallyKeeps(p, q, n);
  }

  lemma TallyKeeps(p: Port, q: Port, n: Notice)
    requires Counted(p) && q.notices == p.notices + [n]
    requires q.accepted == p.accepted && q.stats.accepted == p.stats.accepted
    requires q.stats.completed == if n.status == TxCompleted then Inc(p.stats.completed) else p.stats.completed
    requires q.stats.timeouts == if n.status == TxTimedOut then Inc(p.stats.timeouts) else p.stats.timeouts
    requires q.stats.cancelled == if n.status == TxCancelled then Inc(p.stats.cancelled) else p.stats.cancelled
    ensures Counted(q)
  {
    hide Count, Tally, Saturate, Inc;
    CountSnoc(p.notices, n, 0, TxCompleted);
    CountSnoc(p.notices, n, 0, TxTimedOut);
    CountSnoc(p.notices, n, 0, TxCancelled);
    IncSaturates(Tally(p.notices, TxCompleted));
    IncSaturates(Tally(p.notices, TxTimedOut));
    IncSaturates(Tally(p.notices, TxCancelled));
  }

  lemma QueueBytesTail(q: seq<Txn>)
    requires q != []
    ensures QueueBytes(q) == |q[0].payload| + QueueBytes(q[1..])
  {
    if |q| > 1 {
      QueueBytesTail(q[..|q| - 1]);
      assert q[..|q| - 1][1..] == q[1..][..|q| - 2];
    }
  }

  /** The head of the queue leaves it with a notice instead of becoming active. */
  lemma DropHeadKeeps(p: Port, q: Port, n: Notice)
    requires Core(p) && p.queue != [] && n.txn.serial == p.queue[0].serial
    requires q.queue == p.queue[1..] && q.notices == p.notices + [n]
    requires q.active == p.active && q.generation == p.generation && q.accepted == p.accepted
             && q.activations == p.activations
    requires q.stats.accepted == p.stats.accepted
    requires q.stats.completed == if n.status == TxCompleted then Inc(p.stats.completed) else p.stats.completed
    requires q.stats.timeouts == if n.status == TxTimedOut then Inc(p.stats.timeouts) else p.stats.timeouts
    requires q.stats.cancelled == if n.status == TxCancelled then Inc(p.stats.cancelled) else p.stats.cancelled
    ensures Core(q)
  {
    hide Count, Tally, QueueBytes, Saturate, Inc, GenerationAt;
    QueueBytesTail(p.queue);
    assert n.txn.serial == Popped(p);
    forall s: nat ensures Count(q.notices, s) == if s < Popped(q) && !Holds(q, s) then 1 else 0 {
      CountSnoc(p.notices, n, s, TxCompleted);
    }
    TallyKeeps(p, q, n);
  }

  lemma FlushAllKeeps(p: Port)
    requires Core(p)
    ensures Core(FlushAll(p))
    ensures FlushAll(p) == p.(queue := [], notices := FlushAll(p).notices, stats := FlushAll(p).stats)
    ensures FlushAll(p).stats == p.stats.(cancelled := FlushAll(p).stats.cancelled)
    decreases |p.queue|
  {
    hide Core;
    if p.queue != [] {
      var n := Notice(Cancelled(p.queue[0]), TxCancelled, []);
      var q := Notify(p, n.txn, TxCancelled, [])
               .(queue := p.queue[1..], stats := p.stats.(cancelled := Inc(p.stats.cancelled)));
      DropHeadKeeps(p, q, n);
      FlushAllKeeps(q);
    }
  }

  lemma FlushKeeps(p: Port)
    requires Core(p)
    ensures Core(Flush(p)) && Flush(p).queue == []
    ensures Flush(p).state == p.state && Flush(p).active == p.active && Flush(p).stats.illegal == p.stats.illegal
    ensures Flush(p).current == p.current && Flush(p).knownGood == p.knownGood && Flush(p).staged == p.staged
  {
    hide Core;
    FlushAllKeeps(p);
    SameCoreKeeps(FlushAll(p), Flush(p));
  }

  // -------------------------------------------------------------- each call

  lemma StartKeeps(p: Port, now: Tick, timeout: Tick)
    requires Inv(p)
    ensures Inv(Start(p, now, timeout))
    ensures Start(p, now, timeout).stats.illegal
         == if ValidInterval(timeout) && !(p.state == Disabled || p.state == Failed) then Inc(p.stats.illegal)
            else p.stats.illegal
  {
    SameCoreKeeps(p, Start(p, now, timeout));
    hide Core;
  }

  lemma QueueBytesSnoc(q: seq<Txn>, t: Txn)
    ensures QueueBytes(q + [t]) == QueueBytes(q) + |t.payload|
  {
    assert (q + [t])[..|q|] == q;
  }

  lemma SubmitKeeps(p: Port, r: Request, now: Tick)
    requires Inv(p)
    ensures Inv(Submit(p, r, now)) && Submit(p, r, now).stats.illegal == p.stats.illegal
    ensures Submit(p, r, now).state == p.state
    ensures Admission(p, r) == Accepted ==>
      var q := Submit(p, r, now);
      q.queue == p.queue + [NewTxn(p, r, now)] && q.accepted == p.accepted + 1 && q.notices == p.notices
    ensures Admission(p, r) != Accepted ==>
      var q := Submit(p, r, now);
      q.queue == p.queue && q.accepted == p.accepted && q.notices == p.notices
  {
    var q := Submit(p, r, now);
    if Admission(p, r) == Accepted {
      AcceptKeeps(p, q, NewTxn(p, r, now));
    } else {
      SameCoreKeeps(p, q);
    }
    hide Core;
  }

  lemma AcceptKeeps(p: Port, q: Port, t: Txn)
    requires Core(p) && t.serial == p.accepted
    requires |p.queue| < QUEUE_CAPACITY && QueueBytes(p.queue) + |t.payload| <= QUEUE_BYTES_MAX
    requires q.queue == p.queue + [t] && q.accepted == p.accepted + 1
    requires q.notices == p.notices && q.active == p.active && q.generation == p.generation
             && q.activations == p.activations
    requires q.stats.accepted == Inc(p.stats.accepted) && q.stats.completed == p.stats.completed
    requires q.stats.timeouts == p.stats.timeouts && q.stats.cancelled == p.stats.cancelled
    ensures Core(q)
  {
    hide Count, Tally, QueueBytes, GenerationAt;
    QueueBytesSnoc(p.queue, t);
    assert Popped(q) == Popped(p);
  }

  /** The next generation number after the n-th activation. */
  lemma GenerationNext(n: nat)
    ensures NextGeneration(GenerationAt(n)) == GenerationAt(n + 1)
  {
    if n > 0 {
      var m := TWO32 - 1;
      var q := (n - 1) / m;
      assert n - 1 == m * q + (n - 1) % m;
      if (n - 1) % m == m - 1 {
        assert n == m * (q + 1);
        assert n % m == 0;
      } else {
        assert n == m * q + ((n - 1) % m + 1);
        assert n % m == (n - 1) % m + 1;
      }
    }
  }

  lemma ActivateKeeps(p: Port, q: Port, t: Txn, now: Tick)
    requires Core(p) && p.active.None? && p.queue != [] && t == p.queue[0]
    requires q.queue == p.queue[1..] && SameCore(p.(queue := q.queue), q)
    ensures Core(Activated(q, t, now))
  {
    hide Count, Tally, QueueBytes, GenerationAt, NextGeneration, Saturate, Ledger, InOrder, QueueOk;
    ActivateLedger(p, q, t, now);
    ActivateOrder(p, q, t, now);
    assert QueueOk(Activated(q, t, now)) by { ActivateQueue(p, q, t, now); }
  }

  lemma ActivateQueue(p: Port, q: Port, t: Txn, now: Tick)
    requires QueueOk(p) && p.queue != [] && q.queue == p.queue[1..] && q.accepted == p.accepted
    ensures QueueOk(Activated(q, t, now))
  {
    hide QueueBytes, NextGeneration, After;
    QueueBytesTail(p.queue);
  }

  lemma ActivateLedger(p: Port, q: Port, t: Txn, now: Tick)
    requires QueueOk(p) && Ledger(p) && p.active.None? && p.queue != [] && t == p.queue[0]
    requires q.queue == p.queue[1..] && q.accepted == p.accepted && q.notices == p.notices
    ensures Ledger(Activated(q, t, now))
  {
    hide Count, QueueBytes, NextGeneration, After;
    var r := Activated(q, t, now);
    assert r.notices == p.notices && t.serial == Popped(p) && Popped(r) == Popped(p) + 1;
    assert forall s: nat :: (s < Popped(r) && !Holds(r, s)) <==> s < Popped(p);
  }

  lemma ActivateOrder(p: Port, q: Port, t: Txn, now: Tick)
    requires QueueOk(p) && InOrder(p) && p.queue != [] && t == p.queue[0]
    requires q.queue == p.queue[1..] && q.accepted == p.accepted
    requires q.activations == p.activations && q.generation == p.generation
    ensures InOrder(Activated(q, t, now))
  {
    hide QueueBytes, GenerationAt, NextGeneration, After;
    GenerationNext(|p.activations|);
    assert t.serial == Popped(p);
  }

  lemma DispatchKeeps(p: Port, now: Tick)
    requires Core(p) && p.state == Ready && p.active.None?
    ensures var q := Dispatch(p, now);
            && Core(q) && q.stats.illegal == p.stats.illegal
            && (q.active.Some? <==> q.state == Active) && (q.state == Ready || q.state == Active)
            && (q.state == Ready ==> q.queue == [])
    decreases |p.queue|
  {
    hide Core, QueueBytes;
    if p.queue != [] {
      var t, q := p.queue[0], Depth(p.(queue := p.queue[1..]), |p.queue| - 1);
      if Expired(t.queueDeadline, now) {
        var n := Notice(t.(status := TxTimedOut), TxTimedOut, []);
        var r := Notify(q, n.txn, TxTimedOut, []).(stats := q.stats.(timeouts := Inc(q.stats.timeouts)));
        DropHeadKeeps(p, r, n);
        DispatchKeeps(r, now);
      } else {
        ActivateKeeps(p, q, t, now);
      }
    }
  }

  lemma StepWaitingKeeps(p: Port, now: Tick, poll: Poll)
    requires Inv(p) && p.state == Waiting
    ensures Inv(StepWaiting(p, now, poll)) && StepWaiting(p, now, poll).stats.illegal == p.stats.illegal
  {
    hide Core, Expired, After, Inc, Init;
    var q, t := StepWaiting(p, now, poll), p.active.value;
    match poll {
      case None =>
        if Expired(t.responseDeadline, now) {
          FinishKeeps(p, q, Notice(t.(status := TxTimedOut), TxTimedOut, []));
        }
      case Some((kind, generation, data)) =>
        if generation != t.generation {
          SameCoreKeeps(p, q);
        } else {
          AnswerKeeps(p, now, kind, data);
        }
    }
  }

  lemma AnswerKeeps(p: Port, now: Tick, kind: EventKind, data: seq<Byte>)
    requires Inv(p) && p.state == Waiting
    ensures var q := StepWaiting(p, now, Some((kind, p.active.value.generation, data)));
            Inv(q) && q.stats.illegal == p.stats.illegal
  {
    hide Core, Expired, After, Inc, Init;
    var t := p.active.value;
    var q := StepWaiting(p, now, Some((kind, t.generation, data)));
    match kind {
      case Transmitted => TransmittedKeeps(p, q);
      case Response => FinishKeeps(p, q, Notice(t.(transmitted := true, status := TxCompleted), TxCompleted, data));
      case MalformedFrame =>
        FinishKeeps(p, q, Notice(t.(transmitted := true, status := TxMalformed), TxMalformed, data));
      case Failure => FinishKeeps(p, q, Notice(t.(status := TxFailed), TxFailed, []));
    }
  }

  lemma TransmittedKeeps(p: Port, q: Port)
    requires Core(p) && p.active.Some? && q == p.(active := Some(p.active.value.(transmitted := true)))
    ensures Core(q)
  {
    assert forall s: nat :: Holds(q, s) <==> Holds(p, s);
  }

  /** The steps that neither end nor start a transaction. */
  lemma QuietStepKeeps(p: Port, now: Tick, b: Backend)
    requires Inv(p) && p.state != Ready && p.state != Active && p.state != Waiting
    ensures SameCore(p, Step(p, now, b)) && Step(p, now, b).stats.illegal == p.stats.illegal
    ensures Step(p, now, b).state != Active && Step(p, now, b).state != Waiting
    ensures p.queue != [] ==> !QueueIdle(Step(p, now, b).state)
  {
    hide Core, Expired, After, Inc;
    match p.state {
      case Starting =>
      case Recovering =>
      case Reconfiguring =>
      case Stopping =>
      case _ =>
    }
  }

  lemma ActiveStepKeeps(p: Port, now: Tick, b: Backend)
    requires Inv(p) && p.state == Active
    ensures Inv(Step(p, now, b)) && Step(p, now, b).stats.illegal == p.stats.illegal
  {
    hide Core, Expired, After, Inc;
    if b.start {
      SameCoreKeeps(p, Step(p, now, b));
    } else {
      FinishKeeps(p, Step(p, now, b), Notice(p.active.value.(status := TxFailed), TxFailed, []));
    }
  }

  lemma StepKeeps(p: Port, now: Tick, b: Backend)
    requires Inv(p)
    ensures Inv(Step(p, now, b)) && Step(p, now, b).stats.illegal == p.stats.illegal
  {
    hide Core, Dispatch, StepWaiting, StepRecovering, StepReconfiguring, BeginRecovery, Transition;
    match p.state {
      case Ready => DispatchKeeps(p, now);
      case Waiting => StepWaitingKeeps(p, now, b.poll);
      case Active => ActiveStepKeeps(p, now, b);
      case _ =>
        QuietStepKeeps(p, now, b);
        SameCoreKeeps(p, Step(p, now, b));
    }
  }

  lemma CancelActiveKeeps(p: Port, now: Tick)
    requires Inv(p)
    ensures Inv(CancelActive(p, now)) && CancelActive(p, now).stats.illegal == p.stats.illegal
    ensures p.active.Some? ==> CancelActive(p, now).state == Recovering
  {
    hide Core;
    if p.active.Some? {
      FinishKeeps(p, CancelActive(p, now), Notice(Cancelled(p.active.value), TxCancelled, []));
    }
  }

  lemma DetachKeeps(p: Port, now: Tick)
    requires Inv(p)
    ensures var q := Detach(p, now); Inv(q) && q.stats.illegal == p.stats.illegal && q.queue == [] && q.active.None?
  {
    hide Core, Flush;
    FlushKeeps(p);
    CancelActiveKeeps(Flush(p), now);
  }

  lemma ReportFailureKeeps(p: Port, now: Tick)
    requires Inv(p)
    ensures Inv(ReportFailure(p, now)) && ReportFailure(p, now).stats.illegal == p.stats.illegal
  {
    hide Core;
    SameCoreKeeps(p, ReportFailure(p, now));
  }

  lemma DropAllKeeps(p: Port)
    requires Inv(p)
    ensures Core(DropAll(p)) && DropAll(p).queue == [] && DropAll(p).active.None?
    ensures DropAll(p).state == p.state && DropAll(p).stats.illegal == p.stats.illegal
    ensures DropAll(p).current == p.current && DropAll(p).knownGood == p.knownGood && DropAll(p).staged == p.staged
  {
    hide Core, Flush;
    if p.active.Some? {
      var n := Notice(p.active.value.(status := TxCancelled), TxCancelled, []);
      var q := Notify(p, n.txn, TxCancelled, [])
        .(active := None, stats := p.stats.(cancelled := Inc(p.stats.cancelled)));
      FinishKeeps(p, q, n);
      FlushKeeps(q);
    } else {
      FlushKeeps(p);
    }
  }

  lemma ReconfigureKeeps(p: Port, c: Config, now: Tick, timeout: Tick)
    requires Inv(p)
    ensures var q := Reconfigure(p, c, now, timeout); Inv(q) && q.stats.illegal == p.stats.illegal
    ensures Reconfigurable(p, c, timeout) ==> Reconfigure(p, c, now, timeout).state == Reconfiguring
  {
    hide Core, DropAll;
    if Reconfigurable(p, c, timeout) {
      DropAllKeeps(p);
      SameCoreKeeps(DropAll(p), Reconfigure(p, c, now, timeout));
    }
  }

  lemma StopKeeps(p: Port, now: Tick, timeout: Tick)
    requires Inv(p)
    ensures var q := Stop(p, now, timeout); Inv(q) && q.stats.illegal == p.stats.illegal
    ensures Stoppable(p, timeout) ==> Stop(p, now, timeout).state == Stopping
  {
    hide Core, DropAll;
    if Stoppable(p, timeout) {
      DropAllKeeps(p);
      SameCoreKeeps(DropAll(p), Stop(p, now, timeout));
    }
  }

  // ---------------------------------------------------------- whole histories

  datatype Call = CallStart(timeout: Tick) | CallSubmit(request: Request) | CallStep(backend: Backend) | CallCancel
                | CallDetach | CallReport | CallReconfigure(config: Config, timeout: Tick) | CallStop(timeout: Tick)

  /** Any interface call at time `now`, by any client, with any backend behind it. */
  function Apply(p: Port, c: Call, now: Tick): Port {
    match c
    case CallStart(timeout) => Start(p, now, timeout)
    case CallSubmit(r) => Submit(p, r, now)
    case CallStep(b) => Step(p, now, b)
    case CallCancel => CancelActive(p, now)
    case CallDetach => Detach(p, now)
    case CallReport => ReportFailure(p, now)
    case CallReconfigure(config, timeout) => Reconfigure(p, config, now, timeout)
    case CallStop(timeout) => Stop(p, now, timeout)
  }

  predicate BadStart(p: Port, c: Call) {
    c.CallStart? && ValidInterval(c.timeout) && p.state != Disabled && p.state != Failed
  }

  lemma ApplyKeeps(p: Port, c: Call, now: Tick)
    requires Inv(p)
    ensures Inv(Apply(p, c, now))
    ensures Apply(p, c, now).stats.illegal == if BadStart(p, c) then Inc(p.stats.illegal) else p.stats.illegal
  {
    hide Core, Inc, Start, Submit, Step, CancelActive, Detach, ReportFailure, Reconfigure, Stop;
    match c {
      case CallStart(timeout) => StartKeeps(p, now, timeout);
      case CallSubmit(r) => SubmitKeeps(p, r, now);
      case CallStep(b) => StepKeeps(p, now, b);
      case CallCancel => CancelActiveKeeps(p, now);
      case CallDetach => DetachKeeps(p, now);
      case CallReport => ReportFailureKeeps(p, now);
      case CallReconfigure(config, timeout) => ReconfigureKeeps(p, config, now, timeout);
      case CallStop(timeout) => StopKeeps(p, now, timeout);
    }
  }

  /** A port after any sequence of calls since its initialisation. */
  function Reached(config: Config, calls: seq<(Call, Tick)>): Port {
    if calls == [] then Init(config) else
    var n := |calls| - 1;
    Apply(Reached(config, calls[..n]), calls[n].0, calls[n].1)
  }

  function BadStarts(config: Config, calls: seq<(Call, Tick)>): nat {
    if calls == [] then 0 else
    var n := |calls| - 1;
    BadStarts(config, calls[..n]) + if BadStart(Reached(config, calls[..n]), calls[n].0) then 1 else 0
  }

  lemma InitParts(config: Config)
    ensures QueueOk(Init(config)) && InOrder(Init(config)) && Ledger(Init(config)) && Counted(Init(config))
    ensures Init(config).stats.illegal == Saturate(0)
  {
    assert GenerationAt(0) == 0;
    assert forall s :: Count([], s) == 0;
    assert forall st :: Tally([], st) == 0;
    hide GenerationAt, Count, Tally;
  }

  lemma InitHolds(config: Config)
    ensures Inv(Init(config)) && Init(config).stats.illegal == Saturate(0)
  {
    hide QueueOk, InOrder, Ledger, Counted, Saturate;
    InitParts(config);
  }

  /** Every history keeps the invariant, and the illegal transitions counted are exactly the bad starts. */
  lemma {:induction false} HistoryKeeps(config: Config, calls: seq<(Call, Tick)>)
    ensures Inv(Reached(config, calls))
    ensures Reached(config, calls).stats.illegal == Saturate(BadStarts(config, calls))
    decreases |calls|
  {
    hide Inv, Apply, Inc, Saturate, BadStart, Init;
    if calls == [] {
      InitHolds(config);
    } else {
      var n := |calls| - 1;
      var p := Reached(config, calls[..n]);
      HistoryKeeps(config, calls[..n]);
      ApplyKeeps(p, calls[n].0, calls[n].1);
      IncSaturates(BadStarts(config, calls[..n]));
    }
  }

  predicate Queued(p: Port, s: nat) {
    exists i | 0 <= i < |p.queue| :: p.queue[i].serial == s
  }

  /**
   * Exactly once: whatever was called and answered, every accepted transaction
   * is queued, active, or was notified exactly once; nothing else ever was; and
   * the counters say the same.
   */
  lemma ExactlyOnce(config: Config, calls: seq<(Call, Tick)>)
    ensures var p := Reached(config, calls);
            && p.accepted == |p.notices| + |p.queue| + (if p.active.Some? then 1 else 0)
            && (forall s: nat :: Count(p.notices, s) ==
                  if s < p.accepted && !Holds(p, s) && !Queued(p, s) then 1 else 0)
            && p.stats.accepted == Saturate(p.accepted)
            && p.stats.completed == Saturate(Tally(p.notices, TxCompleted))
            && p.stats.timeouts == Saturate(Tally(p.notices, TxTimedOut))
            && p.stats.cancelled == Saturate(Tally(p.notices, TxCancelled))
  {
    hide Saturate, Tally, Count, QueueBytes, GenerationAt, Reached;
    HistoryKeeps(config, calls);
    var p := Reached(config, calls);
    forall s: nat | s < p.accepted ensures Queued(p, s) <==> s >= Popped(p) {
      if s >= Popped(p) {
        assert p.queue[s - Popped(p)].serial == s;
      }
    }
  }

  /** A port that is not in service holds nothing, so initialising it anew loses nothing. */
  lemma IdleIsEmpty(config: Config, calls: seq<(Call, Tick)>)
    requires QueueIdle(Reached(config, calls).state)
    ensures var p := Reached(config, calls); p.queue == [] && p.active == None && |p.notices| == p.accepted
  {
    hide Saturate, Tally, Count, QueueBytes, GenerationAt, BadStarts, Reached;
    HistoryKeeps(config, calls);
  }

  lemma GenerationsDiffer(i: nat, j: nat)
    requires 1 <= i < j < i + TWO32 - 1
    ensures GenerationAt(i) != GenerationAt(j) && GenerationAt(i) != 0
  {
    var m := TWO32 - 1;
    var a, b := i - 1, j - 1;
    var q, r := a / m, b / m;
    assert a == m * q + a % m && b == m * r + b % m;
    assert b - a == m * (r - q) + (b % m - a % m);
  }

  /** Activations happen in acceptance order, each with a generation of its own. */
  lemma ActivationsInOrder(config: Config, calls: seq<(Call, Tick)>, i: nat, j: nat)
    requires i < j < |Reached(config, calls).activations|
    ensures var a := Reached(config, calls).activations;
            && a[i].0 < a[j].0 && a[i].1 != 0
            && (j < i + TWO32 - 1 ==> a[i].1 != a[j].1)
  {
    hide Saturate, Tally, Count, QueueBytes, BadStarts, GenerationAt, Reached;
    HistoryKeeps(config, calls);
    if j < i + TWO32 - 1 {
      GenerationsDiffer(i + 1, j + 1);
    }
    GenerationsDiffer(i + 1, i + 2);
  }

  /**
   * An event of an earlier activation, replayed at any later time, changes neither
   * ledger nor queue nor active transaction.
   */
  lemma StaleEventIgnored(config: Config, calls: seq<(Call, Tick)>, i: nat, now: Tick, b: Backend)
    requires var p := Reached(config, calls);
             && (p.state == Waiting || p.state == Recovering)
             && i + 1 < |p.activations| < i + TWO32
             && b.poll.Some? && b.poll.value.1 == p.activations[i].1
    ensures var p := Reached(config, calls);
            var q := Step(p, now, b);
            && q.notices == p.notices && q.active == p.active && q.queue == p.queue
            && q.stats.stale == Inc(p.stats.stale) && (p.state == Waiting ==> q.state == Waiting)
  {
    hide Saturate, Tally, Count, QueueBytes, BadStarts, GenerationAt, Reached, Expired, After, Inc;
    HistoryKeeps(config, calls);
    GenerationsDiffer(i + 1, |Reached(config, calls).activations|);
  }

  /** What an event of the transaction that is active comes to. */
  lemma EventMeans(p: Port, now: Tick, b: Backend)
    requires Inv(p) && p.state == Waiting && b.poll.Some? && b.poll.value.1 == p.generation
    ensures p.active.Some?
    ensures var q := Step(p, now, b); var t := p.active.value; var data := b.poll.value.2;
      match b.poll.value.0
      case Transmitted => q.notices == p.notices && q.state == Waiting && q.active == Some(t.(transmitted := true))
      case Response =>
        q.notices == p.notices + [Notice(t.(transmitted := true, status := TxCompleted), TxCompleted, data)]
        && q.state == Ready && q.active.None? && q.stats.lastSuccess == now
      case MalformedFrame =>
        q.notices == p.notices + [Notice(t.(transmitted := true, status := TxMalformed), TxMalformed, data)]
        && q.state == Recovering && q.active.None?
      case Failure =>
        q.notices == p.notices + [Notice(t.(status := TxFailed), TxFailed, [])]
        && q.state == Recovering && q.active.None?
  {
    hide Core, Inc, After, Expired;
    ActiveGeneration(p);
  }

  /** A failure of an idle line is taken up exactly by a port that is ready and has nothing to do. */
  lemma ReportMeans(p: Port, now: Tick)
    requires Inv(p)
    ensures var q := ReportFailure(p, now);
      if p.state == Ready && p.queue == []
      then q.state == Recovering && q.attempts == 0 && q.deadline == After(now, RECOVERY_DELAY)
           && q.notices == p.notices && q.stats.backendFailures == Inc(p.stats.backendFailures)
      else q == p
  {
    hide Core, Inc, After;
  }

  /** A transaction that the backend does not start has failed; one that it starts is waited for. */
  lemma StartMeans(p: Port, now: Tick, b: Backend)
    requires Inv(p) && p.state == Active
    ensures p.active.Some?
    ensures var q := Step(p, now, b);
      && (b.start ==> q.state == Waiting && q.active == p.active && q.notices == p.notices)
      && (!b.start ==>
            q.notices == p.notices + [Notice(p.active.value.(status := TxFailed), TxFailed, [])]
            && q.state == Recovering && q.active.None?)
  {
    hide Core, Inc, After;
  }

  /** The response barrier is the generation of the transaction last cut off by a recovery. */
  lemma BarrierMeans(p: Port, c: Call, now: Tick)
    requires Inv(p)
    ensures var q := Apply(p, c, now);
            q.barrier == if p.active.Some? && q.state == Recovering then p.generation else p.barrier
  {
    hide Start, Submit, Step, CancelActive, Detach, ReportFailure, Reconfigure, Stop, Core;
    if p.active.Some? {
      ActiveGeneration(p);
    }
    match c {
      case CallStep(b) => StepBarrier(p, now, b);
      case CallCancel => CancelBarrier(p, now);
      case CallDetach =>
        FlushOnly(p);
        CancelBarrier(Flush(p), now);
        DetachIs(p, now);
      case _ => OtherBarrier(p, c, now);
    }
  }

  lemma DetachIs(p: Port, now: Tick)
    ensures Detach(p, now) == CancelActive(Flush(p), now)
  {
  }

  lemma FlushOnly(p: Port)
    ensures var q := Flush(p); q == p.(queue := q.queue, notices := q.notices, stats := q.stats)
  {
    hide Inc, Saturate;
    FlushAllOnly(p);
  }

  lemma FlushAllOnly(p: Port)
    ensures var q := FlushAll(p); q == p.(queue := q.queue, notices := q.notices, stats := q.stats)
    decreases |p.queue|
  {
    hide Inc;
    if p.queue != [] {
      FlushAllOnly(Notify(p, Cancelled(p.queue[0]), TxCancelled, [])
                    .(queue := p.queue[1..], stats := p.stats.(cancelled := Inc(p.stats.cancelled))));
    }
  }

  lemma CancelBarrier(p: Port, now: Tick)
    requires (p.active.Some? ==> p.active.value.generation == p.generation && (p.state == Active || p.state == Waiting))
    ensures var q := CancelActive(p, now);
            q.barrier == if p.active.Some? && q.state == Recovering then p.generation else p.barrier
  {
    hide Inc, After;
  }

  lemma DispatchBarrier(p: Port, now: Tick)
    requires p.active.None? && p.state == Ready
    ensures Dispatch(p, now).barrier == p.barrier
    decreases |p.queue|
  {
    hide Inc, After, Expired, Saturate;
    if p.queue != [] && Expired(p.queue[0].queueDeadline, now) {
      var q := Depth(p.(queue := p.queue[1..]), |p.queue| - 1);
      DispatchBarrier(Notify(q, p.queue[0].(status := TxTimedOut), TxTimedOut, [])
                      .(stats := q.stats.(timeouts := Inc(q.stats.timeouts))), now);
    }
  }

  lemma StepBarrier(p: Port, now: Tick, b: Backend)
    requires Inv(p) && (p.active.Some? ==> p.active.value.generation == p.generation)
    ensures var q := Step(p, now, b);
            q.barrier == if p.active.Some? && q.state == Recovering then p.generation else p.barrier
  {
    hide Core, Inc, After, Expired, Dispatch;
    if p.state == Ready {
      DispatchBarrier(p, now);
    }
  }

  lemma OtherBarrier(p: Port, c: Call, now: Tick)
    requires Inv(p) && !c.CallStep? && !c.CallCancel? && !c.CallDetach?
    ensures var q := Apply(p, c, now); q.barrier == p.barrier && (p.active.Some? ==> q.state != Recovering)
  {
    hide Core, Inc, After, Admission, Flush;
    DropBarrier(p);
    hide DropAll;
  }

  lemma DropBarrier(p: Port)
    ensures DropAll(p).barrier == p.barrier && DropAll(p).state == p.state
  {
    hide Inc, Flush;
    FlushOnly(p);
    if p.active.Some? {
      FlushOnly(Notify(p, p.active.value.(status := TxCancelled), TxCancelled, [])
                 .(active := None, stats := p.stats.(cancelled := Inc(p.stats.cancelled))));
    }
  }

  /** A completion reports the transaction that is active, in answer to an event of its own generation. */
  lemma CompletionIsCurrent(p: Port, now: Tick, b: Backend)
    requires Inv(p) && p.state == Waiting
    requires Tally(Step(p, now, b).notices, TxCompleted) > Tally(p.notices, TxCompleted)
    ensures p.active.Some? && b.poll.Some? && b.poll.value.0 == Response
    ensures b.poll.value.1 == p.generation
    ensures Step(p, now, b).notices
         == p.notices + [Notice(p.active.value.(transmitted := true, status := TxCompleted), TxCompleted,
                                b.poll.value.2)]
    ensures Step(p, now, b).active.None? && Step(p, now, b).state == Ready
  {
    hide Tally, Core, Inc, Expired, After;
    ActiveGeneration(p);
    var q := Step(p, now, b);
    if |q.notices| > |p.notices| {
      CountSnoc(p.notices, q.notices[|p.notices|], 0, TxCompleted);
    }
  }

  lemma ActiveGeneration(p: Port)
    requires Inv(p) && p.active.Some?
    ensures p.active.value.generation == p.generation
  {
  }
}
