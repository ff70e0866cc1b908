/**
 * The port as the program keeps it: fields updated in place and a ring of queue
 * entries. Every method is proved to do what PortModel says of its old state.
 */
module PortRuntime {
  import opened Base
  import opened Deadline
  import opened Rings
  import opened Model = PortModel
  import opened PortProperties

  class TransactionQueue {
    const entries: array<Txn>
    var head: nat
    var count: nat
    var bytes: nat

    ghost predicate Valid()
      reads this, entries
    {
      && entries.Length == QUEUE_CAPACITY && head < QUEUE_CAPACITY && count <= QUEUE_CAPACITY
      && bytes == QueueBytes(View(entries[..], head, count))
    }

    ghost function Contents(): (q: seq<Txn>)
      requires Valid()
      reads this, entries
      ensures |q| == count
    {
      View(entries[..], head, count)
    }

    constructor (blank: Txn)
      ensures Valid() && Contents() == [] && fresh(entries)
    {
      entries := new Txn[QUEUE_CAPACITY](i => blank);
      head, count, bytes := 0, 0, 0;
    }

    /** An empty queue again. */
    method Clear()
      requires Valid()
      modifies this`head, this`count, this`bytes
      ensures Valid() && Contents() == []
    {
      head, count, bytes := 0, 0, 0;
    }

    /** `queue_push`. */
    method Push(t: Txn) returns (ok: bool)
      requires Valid()
      modifies this`count, this`bytes, entries
      ensures Valid()
      ensures ok <==> |old(Contents())| < QUEUE_CAPACITY
                      && QueueBytes(old(Contents())) + |t.payload| <= QUEUE_BYTES_MAX
      ensures Contents() == if ok then old(Contents()) + [t] else old(Contents())
    {
      hide QueueBytes;
      if count >= QUEUE_CAPACITY || bytes + |t.payload| > QUEUE_BYTES_MAX {
        return false;
      }
      ghost var before := entries[..];
      WrapIsMod(QUEUE_CAPACITY, head, count);
      var tail := (head + count) % QUEUE_CAPACITY;
      entries[tail] := t;
      assert forall i | 0 <= i < count :: Wrap(QUEUE_CAPACITY, head, i) != tail;
      ViewWritten(before, entries[..], head, count, [t]);
      QueueBytesSnoc(View(before, head, count), t);
      count := count + 1;
      bytes := bytes + |t.payload|;
      ok := true;
    }

    /** `queue_pop`. */
    method Pop() returns (t: Option<Txn>)
      requires Valid()
      modifies this`head, this`count, this`bytes
      ensures Valid()
      ensures old(Contents()) == [] ==> t == None && Contents() == []
      ensures old(Contents()) != [] ==> t == Some(old(Contents())[0]) && Contents() == old(Contents())[1..]
    {
      hide QueueBytes;
      if count == 0 {
        return None;
      }
      t := Some(entries[head]);
      ViewDropped(entries[..], head, count, 1);
      QueueBytesTail(View(entries[..], head, count));
      bytes := bytes - |entries[head].payload|;
      head := (head + 1) % QUEUE_CAPACITY;
      count := count - 1;
    }
  }

  class PortRuntime {
    const queue: TransactionQueue
    var state: PortState
    var current: Config
    var staged: Config
    var knownGood: Config
    var active: Option<Txn>
    var nextId: Word
    var generation: Word
    var barrier: Word
    var deadline: Deadline
    var attempts: nat
    var stats: Stats
    var notices: seq<Notice>
    var accepted: nat
    var activations: seq<(nat, Word)>

    ghost predicate Valid()
      reads this, queue, queue.entries
    {
      queue.Valid()
    }

    ghost function Abs(): (p: Port)
      requires Valid()
      reads this, queue, queue.entries
      ensures |p.queue| <= QUEUE_CAPACITY
    {
      Port(state, current, staged, knownGood, queue.Contents(), active, nextId, generation, barrier, deadline,
           attempts, stats, notices, accepted, activations)
    }

    constructor (config: Config, blank: Txn)
      ensures Valid() && Abs() == Init(config) && fresh(queue) && fresh(queue.entries)
    {
      queue := new TransactionQueue(blank);
      state, current, knownGood := Disabled, config, config;
      staged := Init(config).staged;
      active, nextId, generation, barrier := None, 1, 0, 0;
      deadline, attempts, stats := Deadline(0, false), 0, Init(config).stats;
      notices, accepted, activations := [], 0, [];
    }

    /** `port_runtime_init` on a port that was in use: everything starts anew, records included. */
    method Reset(config: Config)
      requires Valid()
      modifies this, queue
      ensures Valid() && Abs() == Init(config)
    {
      ResetConfigs(config);
      ResetTransactions();
      ResetRecords();
      queue.Clear();
    }

    method ResetConfigs(config: Config)
      requires Valid()
      modifies this`state, this`current, this`staged, this`knownGood
      ensures Valid()
      ensures var i := Init(config);
              Abs() == old(Abs()).(state := i.state, current := i.current, staged := i.staged, knownGood := i.knownGood)
    {
      state, current, knownGood := Disabled, config, config;
      staged := Config(0, 0, 0, 0, 0, 0, 0, 0, 0, 0);
    }

    method ResetTransactions()
      requires Valid()
      modifies this`active, this`nextId, this`generation, this`barrier, this`deadline, this`attempts
      ensures Valid()
      ensures Abs() == old(Abs()).(active := None, nextId := 1, generation := 0, barrier := 0,
                                   deadline := Deadline(0, false), attempts := 0)
    {
      active, nextId, generation, barrier := None, 1, 0, 0;
      deadline, attempts := Deadline(0, false), 0;
    }

    method ResetRecords()
      requires Valid()
      modifies this`stats, this`notices, this`accepted, this`activations
      ensures Valid()
      ensures Abs() == old(Abs()).(stats := Stats(0, 0, 0, 0, 0, 0, 0, 0, 0, 0, 0, 0, 0, 0, 0, 0), notices := [],
                                   accepted := 0, activations := [])
    {
      stats := Stats(0, 0, 0, 0, 0, 0, 0, 0, 0, 0, 0, 0, 0, 0, 0, 0);
      notices, accepted, activations := [], 0, [];
    }

    method TransitionTo(next: PortState) returns (ok: bool)
      requires Valid()
      modifies this`state, this`stats
      ensures Valid() && Abs() == Transition(old(Abs()), next) && ok == Allowed(old(state), next)
    {
      if !Allowed(state, next) {
        stats := stats.(illegal := Inc(stats.illegal));
        return false;
      }
      state := next;
      ok := true;
    }

    method Complete(t: Txn, status: Status, response: seq<Byte>)
      requires Valid()
      modifies this`notices
      ensures Valid() && Abs() == Notify(old(Abs()), t, status, response)
    {
      notices := notices + [Notice(t, status, response)];
    }

    method UpdateDepth()
      requires Valid()
      modifies this`stats
      ensures Valid() && Abs() == Depth(old(Abs()), |old(Abs()).queue|)
    {
      stats := stats.(depth := queue.count);
      if stats.depth > stats.highWater {
        stats := stats.(highWater := stats.depth);
      }
    }

    method StartPort(now: Tick, timeout: Tick) returns (ok: bool)
      requires Valid()
      modifies this
      ensures Valid() && Abs() == Start(old(Abs()), now, timeout)
      ensures ok <==> ValidInterval(timeout) && Allowed(old(state), Starting)
    {
      if !ValidInterval(timeout) {
        return false;
      }
      ok := TransitionTo(Starting);
      if ok {
        deadline := After(now, timeout);
      }
    }

    method Build(r: Request, now: Tick) returns (t: Txn)
      requires Valid()
      modifies this`nextId
      ensures Valid() && t == NewTxn(old(Abs()), r, now) && t.payload == r.payload && t.id == old(nextId)
      ensures Abs() == old(Abs()).(nextId := NextId(old(nextId)))
    {
      t := Txn(accepted, nextId, 0, r.ownerKind, r.ownerId, r.metadata, r.operation, now, 0,
               After(now, r.queueTimeout), Deadline(0, false), r.responseTimeout, r.payload, TxQueued, false, false);
      nextId := if nextId == TWO32 - 1 then 0 else nextId + 1;
      if nextId == 0 {
        nextId := 1;
      }
    }

    /** The part of a submission that is reached in states Ready, Active and Waiting. */
    method Enqueue(r: Request, now: Tick) returns (result: SubmitResult, id: Word)
      requires Valid() && RequestValid(r) && (state == Ready || state == Active || state == Waiting)
      modifies this, queue, queue.entries
      ensures Valid() && Abs() == Submit(old(Abs()), r, now)
      ensures result == Admission(old(Abs()), r) && (result == Accepted ==> id == old(nextId))
    {
      hide QueueBytes, Inc, RequestValid, NewTxn, NextId, Depth, Submit, Admission;
      WorkingSubmit(Abs(), r, now);
      id := 0;
      var t := Build(r, now);
      var pushed := queue.Push(t);
      if !pushed {
        stats := stats.(queueFull := Inc(stats.queueFull));
        return QueueFull, id;
      }
      CountAccepted();
      UpdateDepth();
      result, id := Accepted, t.id;
    }

    method CountAccepted()
      requires Valid()
      modifies this`stats, this`accepted
      ensures Valid()
      ensures var p := old(Abs());
              Abs() == p.(accepted := p.accepted + 1, stats := p.stats.(accepted := Inc(p.stats.accepted)))
    {
      hide Inc;
      stats := stats.(accepted := Inc(stats.accepted));
      accepted := accepted + 1;
    }

    method SubmitOperation(r: Request, now: Tick) returns (result: SubmitResult, id: Word)
      requires Valid()
      modifies this, queue, queue.entries
      ensures Valid() && Abs() == Submit(old(Abs()), r, now)
      ensures result == Admission(old(Abs()), r) && (result == Accepted ==> id == old(nextId))
    {
      hide QueueBytes, Inc, RequestValid, NewTxn, NextId, Depth;
      id := 0;
      if !RequestValid(r) {
        stats := stats.(invalid := Inc(stats.invalid));
        result := InvalidRequest;
      } else if state == Disabled || state == Stopping || state == Failed {
        result := PortDisabled;
      } else if state == Recovering || state == Degraded || state == Starting {
        result := PortRecovering;
      } else if state == Reconfiguring {
        result := ReconfiguringNow;
      } else {
        result, id := Enqueue(r, now);
      }
    }

    method FlushQueue()
      requires Valid()
      modifies this, queue
      ensures Valid() && Abs() == Flush(old(Abs()))
    {
      ghost var goal := FlushAll(Abs());
      while queue.count > 0
        invariant Valid() && FlushAll(Abs()) == goal
        decreases queue.count
      {
        var t := queue.Pop();
        Complete(t.value.(status := TxCancelled, cancelled := true), TxCancelled, []);
        stats := stats.(cancelled := Inc(stats.cancelled));
      }
      assert Abs().queue == [];
      UpdateDepth();
    }

    method Recover(now: Tick) returns (ok: bool)
      requires Valid()
      modifies this
      ensures Valid() && Abs() == BeginRecovery(old(Abs()), now) && ok == Allowed(old(state), Recovering)
    {
      if active.Some? {
        barrier := active.value.generation;
        active := None;
      }
      attempts := 0;
      deadline := After(now, RECOVERY_DELAY);
      ok := TransitionTo(Recovering);
    }

    method StepReady(now: Tick)
      requires Valid()
      modifies this, queue
      ensures Valid() && Abs() == Dispatch(old(Abs()), now)
    {
      hide Expired, Dispatch, Activated, Depth;
      ghost var goal := Dispatch(Abs(), now);
      while queue.count > 0
        invariant Valid() && Dispatch(Abs(), now) == goal
        decreases queue.count
      {
        DispatchNext(Abs(), now);
        var t := TakeHead();
        if Expired(t.queueDeadline, now) {
          stats := stats.(timeouts := Inc(stats.timeouts));
          Complete(t.(status := TxTimedOut), TxTimedOut, []);
        } else {
          Activate(t, now);
          return;
        }
      }
      DispatchNext(Abs(), now);
    }

    /** The first entry leaves the queue, and the depth is recorded. */
    method TakeHead() returns (t: Txn)
      requires Valid() && queue.count > 0
      modifies this`stats, queue
      ensures Valid() && queue.count == old(queue.count) - 1
      ensures var p := old(Abs()); t == p.queue[0] && Abs() == Depth(p.(queue := p.queue[1..]), |p.queue| - 1)
    {
      hide Depth;
      var popped := queue.Pop();
      t := popped.value;
      UpdateDepth();
    }

    method Activate(t: Txn, now: Tick)
      requires Valid()
      modifies this
      ensures Valid() && Abs() == Activated(old(Abs()), t, now)
    {
      generation := if generation == TWO32 - 1 then 0 else generation + 1;
      if generation == 0 {
        generation := 1;
      }
      activations := activations + [(t.serial, generation)];
      active := Some(t.(generation := generation, startedAt := now, status := TxActive,
                        responseDeadline := After(now, t.responseTimeout)));
      var _ := TransitionTo(Active);
    }

    method StepWait(now: Tick, poll: Poll)
      requires Valid()
      modifies this
      ensures Valid() && Abs() == StepWaiting(old(Abs()), now, poll)
    {
      hide Expired, After, Inc;
      match poll {
        case Some((kind, eventGeneration, data)) =>
          if active.None? || eventGeneration != active.value.generation {
            stats := stats.(stale := Inc(stats.stale));
            return;
          }
          match kind {
            case Transmitted =>
              active := Some(active.value.(transmitted := true));
            case Response =>
              stats := stats.(completed := Inc(stats.completed), lastSuccess := now);
              Complete(active.value.(transmitted := true, status := TxCompleted), TxCompleted, data);
              active := None;
              var _ := TransitionTo(Ready);
            case MalformedFrame =>
              stats := stats.(invalid := Inc(stats.invalid));
              Complete(active.value.(transmitted := true, status := TxMalformed), TxMalformed, data);
              var _ := Recover(now);
            case Failure =>
              stats := stats.(backendFailures := Inc(stats.backendFailures));
              Complete(active.value.(status := TxFailed), TxFailed, []);
              var _ := Recover(now);
          }
        case None =>
          if active.Some? && Expired(active.value.responseDeadline, now) {
            stats := stats.(timeouts := Inc(stats.timeouts));
            Complete(active.value.(status := TxTimedOut), TxTimedOut, []);
            var _ := Recover(now);
          }
      }
    }

    method StepRecover(now: Tick, b: Backend)
      requires Valid()
      modifies this
      ensures Valid() && Abs() == StepRecovering(old(Abs()), now, b)
    {
      hide Expired, After, Inc;
      if b.poll.Some? {
        stats := stats.(stale := Inc(stats.stale));
      }
      if Expired(deadline, now) {
        if b.recover {
          stats := stats.(recoveries := Inc(stats.recoveries));
          attempts := 0;
          var _ := TransitionTo(Ready);
        } else {
          stats := stats.(recoveryFailures := Inc(stats.recoveryFailures));
          attempts := attempts + 1;
          if attempts >= RECOVERY_MAX_ATTEMPTS {
            var _ := TransitionTo(Degraded);
          } else {
            deadline := After(now, RECOVERY_DELAY);
          }
        }
      }
    }

    method StepReconfigure(now: Tick, b: Backend)
      requires Valid()
      modifies this
      ensures Valid() && Abs() == StepReconfiguring(old(Abs()), now, b)
    {
      hide Expired, After, Inc;
      if !Expired(deadline, now) && b.staged {
        current, knownGood := staged, staged;
        stats := stats.(reconfigurations := Inc(stats.reconfigurations));
        var _ := TransitionTo(Ready);
      } else if b.knownGood {
        stats := stats.(rollbacks := Inc(stats.rollbacks));
        var _ := TransitionTo(Ready);
      } else {
        var _ := TransitionTo(Failed);
      }
    }

    /** `port_runtime_step`; `b` is what the backend answers if it is asked. */
    method StepPort(now: Tick, b: Backend)
      requires Valid()
      modifies this, queue
      ensures Valid() && Abs() == Step(old(Abs()), now, b)
    {
      hide Expired, After, Inc, Dispatch, StepWaiting, StepRecovering, StepReconfiguring;
      match state {
        case Starting =>
          if b.open {
            attempts := 0;
            var _ := TransitionTo(Ready);
          } else if Expired(deadline, now) {
            var _ := Recover(now);
          }
        case Ready => StepReady(now);
        case Active =>
          if b.start || active.None? {
            var _ := TransitionTo(Waiting);
          } else {
            stats := stats.(backendFailures := Inc(stats.backendFailures));
            Complete(active.value.(status := TxFailed), TxFailed, []);
            var _ := Recover(now);
          }
        case Waiting => StepWait(now, b.poll);
        case Recovering => StepRecover(now, b);
        case Reconfiguring => StepReconfigure(now, b);
        case Stopping =>
          if b.stop {
            var _ := TransitionTo(Disabled);
          } else if Expired(deadline, now) {
            var _ := TransitionTo(Failed);
          }
        case _ =>
      }
    }

    method CancelActivePort(now: Tick) returns (ok: bool)
      requires Valid()
      modifies this
      ensures Valid() && Abs() == CancelActive(old(Abs()), now)
      ensures ok <==> old(active).Some? && Allowed(old(state), Recovering)
    {
      hide After, Inc, Transition;
      if active.None? {
        return false;
      }
      stats := stats.(cancelled := Inc(stats.cancelled));
      Complete(active.value.(status := TxCancelled, cancelled := true), TxCancelled, []);
      ok := Recover(now);
    }

    method DetachListener(now: Tick) returns (ok: bool)
      requires Valid()
      modifies this, queue
      ensures Valid() && Abs() == Detach(old(Abs()), now)
      ensures ok <==> old(active).None? || Allowed(old(state), Recovering)
    {
      hide CancelActive, FlushAll;
      FlushOnly(Abs());
      FlushQueue();
      if active.None? {
        DetachIdle(old(Abs()), now);
        return true;
      }
      ok := CancelActivePort(now);
    }

    method ReportIoFailure(now: Tick) returns (ok: bool)
      requires Valid()
      modifies this
      ensures Valid() && Abs() == ReportFailure(old(Abs()), now)
      ensures ok <==> old(state) == Ready && old(active).None? && old(queue.count) == 0
    {
      if state != Ready || active.Some? || queue.count > 0 {
        return false;
      }
      stats := stats.(backendFailures := Inc(stats.backendFailures));
      var _ := Recover(now);
      ok := true;
    }

    method DropEverything()
      requires Valid()
      modifies this, queue
      ensures Valid() && Abs() == DropAll(old(Abs()))
    {
      hide Flush, Inc;
      if active.Some? {
        stats := stats.(cancelled := Inc(stats.cancelled));
        Complete(active.value.(status := TxCancelled), TxCancelled, []);
        active := None;
      }
      FlushQueue();
    }

    method RequestReconfigure(config: Config, now: Tick, timeout: Tick) returns (ok: bool)
      requires Valid()
      modifies this, queue
      ensures Valid() && Abs() == Reconfigure(old(Abs()), config, now, timeout)
      ensures ok <==> Reconfigurable(old(Abs()), config, timeout)
    {
      hide DropAll, After;
      DropAllFrame(Abs());
      if !ConfigValid(config) || timeout == 0 || !ValidInterval(timeout) {
        return false;
      }
      if state != Ready && state != Active && state != Waiting && state != Recovering && state != Degraded {
        return false;
      }
      DropEverything();
      StageConfig(config, After(now, timeout));
      ok := TransitionTo(Reconfiguring);
    }

    /** A configuration is staged, and the one in use is the one to go back to. */
    method StageConfig(config: Config, until: Deadline)
      requires Valid()
      modifies this`knownGood, this`staged, this`deadline
      ensures Valid()
      ensures var p := old(Abs()); Abs() == p.(knownGood := p.current, staged := config, deadline := until)
    {
      knownGood, staged, deadline := current, config, until;
    }

    method RequestStop(now: Tick, timeout: Tick) returns (ok: bool)
      requires Valid()
      modifies this, queue
      ensures Valid() && Abs() == Stop(old(Abs()), now, timeout)
      ensures ok <==> Stoppable(old(Abs()), timeout)
    {
      hide DropAll, After;
      DropAllFrame(Abs());
      if timeout == 0 || !ValidInterval(timeout) || state == Disabled || state == Stopping {
        return false;
      }
      DropEverything();
      deadline := After(now, timeout);
      ok := TransitionTo(Stopping);
    }

    /** Any call of the interface. */
    method Perform(c: Call, now: Tick)
      requires Valid()
      modifies this, queue, queue.entries
      ensures Valid() && Abs() == Apply(old(Abs()), c, now)
    {
      hide Start, Submit, Step, CancelActive, Detach, ReportFailure, Reconfigure, Stop;
      match c {
        case CallStart(timeout) => var _ := StartPort(now, timeout);
        case CallSubmit(r) => var _, _ := SubmitOperation(r, now);
        case CallStep(b) => StepPort(now, b);
        case CallCancel => var _ := CancelActivePort(now);
        case CallDetach => var _ := DetachListener(now);
        case CallReport => var _ := ReportIoFailure(now);
        case CallReconfigure(config, timeout) => var _ := RequestReconfigure(config, now, timeout);
        case CallStop(timeout) => var _ := RequestStop(now, timeout);
      }
    }
  }

  /** One turn of the loop of a step in state Ready. */
  lemma DispatchNext(p: Port, now: Tick)
    ensures p.queue == [] ==> Dispatch(p, now) == p
    ensures p.queue != [] ==>
              var t, q := p.queue[0], Depth(p.(queue := p.queue[1..]), |p.queue| - 1);
              Dispatch(p, now) ==
              if !Expired(t.queueDeadline, now) then Activated(q, t, now)
              else Dispatch(Notify(q, t.(status := TxTimedOut), TxTimedOut, [])
                            .(stats := q.stats.(timeouts := Inc(q.stats.timeouts))), now)
  {
    hide Expired, Depth, Activated, Inc;
  }

  /** A submission to a port that works: taken if the queue has room. */
  lemma WorkingSubmit(p: Port, r: Request, now: Tick)
    requires RequestValid(r) && (p.state == Ready || p.state == Active || p.state == Waiting)
    ensures var full := |p.queue| >= QUEUE_CAPACITY || QueueBytes(p.queue) + |r.payload| > QUEUE_BYTES_MAX;
            var next := NextId(p.nextId);
      && Admission(p, r) == (if full then QueueFull else Accepted)
      && Submit(p, r, now) ==
         if full then p.(nextId := next, stats := p.stats.(queueFull := Inc(p.stats.queueFull)))
         else Depth(p.(nextId := next, queue := p.queue + [NewTxn(p, r, now)], accepted := p.accepted + 1,
                       stats := p.stats.(accepted := Inc(p.stats.accepted))), |p.queue| + 1)
  {
    hide QueueBytes, Inc, RequestValid, NewTxn, NextId, Depth;
  }

  lemma DropAllFrame(p: Port)
    ensures DropAll(p).state == p.state
  {
    FlushOnly(p);
    FlushOnly(p.(active := None));
    if p.active.Some? {
      FlushOnly(Notify(p, p.active.value.(status := TxCancelled), TxCancelled, [])
                   .(active := None, stats := p.stats.(cancelled := Inc(p.stats.cancelled))));
    }
    hide Flush, Inc;
  }

  lemma DetachIdle(p: Port, now: Tick)
    requires p.active.None?
    ensures Detach(p, now) == Flush(p)
  {
    FlushOnly(p);
  }
}
