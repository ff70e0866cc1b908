/**
 * What one serial port does: a ten-state machine over a bounded queue, at most
 * one active transaction, and a backend that may answer anything. The queue is
 * a sequence here; PortRuntime keeps it in a ring and is proved to agree.
 */
module PortModel {
  import opened Base
  import opened Deadline

  const QUEUE_CAPACITY := 8
  const QUEUE_BYTES_MAX := 1024
  const PAYLOAD_MAX := 256
  const RECOVERY_MAX_ATTEMPTS := 3
  const RECOVERY_DELAY: Tick := 5

  datatype PortState = Disabled | Starting | Ready | Active | Waiting | Recovering | Degraded
                     | Reconfiguring | Stopping | Failed

  datatype Status = TxQueued | TxActive | TxCompleted | TxTimedOut | TxCancelled | TxFailed | TxMalformed

  /** direction: 0 send only, 1 receive only, 2 both; policy: 0 none, 1 fixed length, 2 framed by the backend. */
  datatype Operation = Operation(direction: Word, policy: Word, expected: Word)

  /** `serial` numbers accepted transactions and is not part of the program; ids wrap. */
  datatype Txn = Txn(serial: nat, id: Word, generation: Word, ownerKind: Word, ownerId: Word, metadata: seq<Word>,
                     operation: Operation, enqueuedAt: Tick, startedAt: Tick, queueDeadline: Deadline,
                     responseDeadline: Deadline, responseTimeout: Tick, payload: seq<Byte>, status: Status,
                     cancelled: bool, transmitted: bool)

  datatype Config = Config(revision: Word, mode: Word, baud: Word, dataBits: Word, parity: Word, stopBits: Word,
                           specialBaudEnabled: Word, specialBaud: Word, transport: Word, endpointPort: Word)

  predicate ConfigValid(c: Config) {
    && c.mode <= 3 && c.baud > 0 && 5 <= c.dataBits <= 8 && c.parity <= 2
    && (c.stopBits == 1 || c.stopBits == 2) && 1 <= c.endpointPort <= 65535
  }

  predicate OperationValid(o: Operation) {
    && o.direction <= 2 && o.policy <= 2
    && if o.direction == 0 then o.policy == 0 && o.expected == 0
       else if o.policy == 1 then 0 < o.expected <= PAYLOAD_MAX
       else o.policy == 2 && o.expected == 0
  }

  datatype Request = Request(payload: seq<Byte>, ownerKind: Word, ownerId: Word, metadata: seq<Word>,
                             operation: Operation, queueTimeout: Tick, responseTimeout: Tick)

  predicate RequestValid(r: Request) {
    && 0 < |r.payload| <= PAYLOAD_MAX
    && ValidInterval(r.queueTimeout) && r.queueTimeout != 0
    && ValidInterval(r.responseTimeout) && r.responseTimeout != 0
    && OperationValid(r.operation)
  }

  datatype SubmitResult = Accepted | QueueFull | PortDisabled | PortRecovering | InvalidRequest | ReconfiguringNow

  datatype EventKind = Response | MalformedFrame | Failure | Transmitted

  /** What `poll` reports; None stands for a result <= 0 or an event of type none. */
  type Poll = Option<(EventKind, Word, seq<Byte>)>

  /** What the backend would answer in one step; false is a non-zero result. */
  datatype Backend = Backend(open: bool, start: bool, poll: Poll, recover: bool, staged: bool, knownGood: bool,
                             stop: bool)

  /** One call of the completion callback. */
  datatype Notice = Notice(txn: Txn, status: Status, response: seq<Byte>)

  datatype Stats = Stats(accepted: Word, completed: Word, timeouts: Word, cancelled: Word, queueFull: Word,
                         invalid: Word, recoveries: Word, recoveryFailures: Word, stale: Word, backendFailures: Word,
                         reconfigurations: Word, rollbacks: Word, illegal: Word, depth: Word, highWater: Word,
                         lastSuccess: Tick)

  function Inc(w: Word): Word { if w == TWO32 - 1 then w else w + 1 }

  /**
   * The port. The last three fields record what happened: the callbacks made,
   * how many submissions were accepted, and (serial, generation) of each activation.
   */
  datatype Port = Port(state: PortState, current: Config, staged: Config, knownGood: Config, queue: seq<Txn>,
                       active: Option<Txn>, nextId: Word, generation: Word, barrier: Word, deadline: Deadline,
                       attempts: nat, stats: Stats,
                       notices: seq<Notice>, accepted: nat, activations: seq<(nat, Word)>)

  function QueueBytes(q: seq<Txn>): nat {
    if q == [] then 0 else QueueBytes(q[..|q| - 1]) + |q[|q| - 1].payload|
  }

  function Init(c: Config): Port {
    Port(Disabled, c, Config(0, 0, 0, 0, 0, 0, 0, 0, 0, 0), c, [], None, 1, 0, 0, Deadline(0, false), 0,
         Stats(0, 0, 0, 0, 0, 0, 0, 0, 0, 0, 0, 0, 0, 0, 0, 0), [], 0, [])
  }

  predicate Allowed(from: PortState, to: PortState) {
    match from
    case Disabled => to == Starting
    case Starting => to in {Ready, Recovering, Stopping, Failed}
    case Ready => to in {Active, Recovering, Reconfiguring, Stopping}
    case Active => to in {Waiting, Recovering, Reconfiguring, Stopping}
    case Waiting => to in {Ready, Recovering, Reconfiguring, Stopping}
    case Recovering => to in {Ready, Degraded, Reconfiguring, Stopping, Failed}
    case Degraded => to in {Recovering, Reconfiguring, Stopping, Failed}
    case Reconfiguring => to in {Ready, Stopping, Failed}
    case Stopping => to in {Disabled, Failed}
    case Failed => to in {Starting, Stopping, Disabled}
  }

  function Transition(p: Port, to: PortState): Port {
    if Allowed(p.state, to) then p.(state := to)
    else p.(stats := p.stats.(illegal := Inc(p.stats.illegal)))
  }

  function Notify(p: Port, t: Txn, s: Status, response: seq<Byte>): Port {
    p.(notices := p.notices + [Notice(t, s, response)])
  }

  function Start(p: Port, now: Tick, timeout: Tick): Port {
    if !ValidInterval(timeout) then p else
    if !Allowed(p.state, Starting) then Transition(p, Starting) else
    Transition(p, Starting).(deadline := After(now, timeout))
  }

  // --------------------------------------------------------------- the queue

  function Depth(p: Port, n: nat): Port {
    var d := Saturate(n);
    p.(stats := p.stats.(depth := d, highWater := if d > p.stats.highWater then d else p.stats.highWater))
  }

  function Admission(p: Port, r: Request): SubmitResult {
    if !RequestValid(r) then InvalidRequest
    else if p.state in {Disabled, Stopping, Failed} then PortDisabled
    else if p.state in {Recovering, Degraded, Starting} then PortRecovering
    else if p.state == Reconfiguring then ReconfiguringNow
    else if |p.queue| >= QUEUE_CAPACITY || QueueBytes(p.queue) + |r.payload| > QUEUE_BYTES_MAX then QueueFull
    else Accepted
  }

  function NewTxn(p: Port, r: Request, now: Tick): Txn {
    Txn(p.accepted, p.nextId, 0, r.ownerKind, r.ownerId, r.metadata, r.operation, now, 0,
        After(now, r.queueTimeout), Deadline(0, false), r.responseTimeout, r.payload, TxQueued, false, false)
  }

  function NextId(id: Word): Word { if id == TWO32 - 1 then 1 else id + 1 }

  function Submit(p: Port, r: Request, now: Tick): Port {
    var next := NextId(p.nextId);
    match Admission(p, r)
    case InvalidRequest => p.(stats := p.stats.(invalid := Inc(p.stats.invalid)))
    case QueueFull => p.(nextId := next, stats := p.stats.(queueFull := Inc(p.stats.queueFull)))
    case Accepted =>
      Depth(p.(nextId := next, queue := p.queue + [NewTxn(p, r, now)], accepted := p.accepted + 1,
               stats := p.stats.(accepted := Inc(p.stats.accepted))), |p.queue| + 1)
    case _ => p
  }

  function Cancelled(t: Txn): Txn { t.(status := TxCancelled, cancelled := true) }

  function FlushAll(p: Port): Port
    decreases |p.queue|
  {
    if p.queue == [] then p else
    FlushAll(Notify(p, Cancelled(p.queue[0]), TxCancelled, [])
             .(queue := p.queue[1..], stats := p.stats.(cancelled := Inc(p.stats.cancelled))))
  }

  function Flush(p: Port): Port { Depth(FlushAll(p), 0) }

  // ---------------------------------------------------------------- the steps

  function BeginRecovery(p: Port, now: Tick): Port {
    var q := if p.active.Some? then p.(barrier := p.active.value.generation, active := None) else p;
    Transition(q.(attempts := 0, deadline := After(now, RECOVERY_DELAY)), Recovering)
  }

  function NextGeneration(g: Word): Word { if g == TWO32 - 1 then 1 else g + 1 }

  function Activated(p: Port, t: Txn, now: Tick): Port {
    var g := NextGeneration(p.generation);
    Transition(p.(generation := g, activations := p.activations + [(t.serial, g)],
                  active := Some(t.(generation := g, startedAt := now, status := TxActive,
                                    responseDeadline := After(now, t.responseTimeout)))), Active)
  }

  /** The loop of a step in state Ready: queued transactions whose time is over are dropped, the next one starts. */
  function Dispatch(p: Port, now: Tick): Port
    decreases |p.queue|
  {
    if p.queue == [] then p else
    var t, q := p.queue[0], Depth(p.(queue := p.queue[1..]), |p.queue| - 1);
    if Expired(t.queueDeadline, now) then
      Dispatch(Notify(q, t.(status := TxTimedOut), TxTimedOut, [])
               .(stats := q.stats.(timeouts := Inc(q.stats.timeouts))), now)
    else Activated(q, t, now)
  }

  function StepWaiting(p: Port, now: Tick, poll: Poll): Port {
    match poll
    case Some((kind, generation, data)) =>
      if p.active.None? || generation != p.active.value.generation then
        p.(stats := p.stats.(stale := Inc(p.stats.stale)))
      else
        var t := p.active.value;
        (match kind
         case Transmitted => p.(active := Some(t.(transmitted := true)))
         case Response =>
           Transition(Notify(p, t.(transmitted := true, status := TxCompleted), TxCompleted, data)
             .(active := None, stats := p.stats.(completed := Inc(p.stats.completed), lastSuccess := now)), Ready)
         case MalformedFrame =>
           BeginRecovery(Notify(p, t.(transmitted := true, status := TxMalformed), TxMalformed, data)
             .(stats := p.stats.(invalid := Inc(p.stats.invalid))), now)
         case Failure =>
           BeginRecovery(Notify(p, t.(status := TxFailed), TxFailed, [])
             .(stats := p.stats.(backendFailures := Inc(p.stats.backendFailures))), now))
    case None =>
      if p.active.Some? && Expired(p.active.value.responseDeadline, now) then
        BeginRecovery(Notify(p, p.active.value.(status := TxTimedOut), TxTimedOut, [])
          .(stats := p.stats.(timeouts := Inc(p.stats.timeouts))), now)
      else p
  }

  function StepRecovering(p: Port, now: Tick, b: Backend): Port {
    var q := if b.poll.Some? then p.(stats := p.stats.(stale := Inc(p.stats.stale))) else p;
    if !Expired(q.deadline, now) then q
    else if b.recover then
      Transition(q.(attempts := 0, stats := q.stats.(recoveries := Inc(q.stats.recoveries))), Ready)
    else
      var r := q.(attempts := q.attempts + 1, stats := q.stats.(recoveryFailures := Inc(q.stats.recoveryFailures)));
      if r.attempts >= RECOVERY_MAX_ATTEMPTS then Transition(r, Degraded)
      else r.(deadline := After(now, RECOVERY_DELAY))
  }

  function RolledBack(p: Port): Port {
    Transition(p.(stats := p.stats.(rollbacks := Inc(p.stats.rollbacks))), Ready)
  }

  function StepReconfiguring(p: Port, now: Tick, b: Backend): Port {
    if Expired(p.deadline, now) then (if b.knownGood then RolledBack(p) else Transition(p, Failed))
    else if b.staged then
      Transition(p.(current := p.staged, knownGood := p.staged,
                    stats := p.stats.(reconfigurations := Inc(p.stats.reconfigurations))), Ready)
    else if b.knownGood then RolledBack(p)
    else Transition(p, Failed)
  }

  function Step(p: Port, now: Tick, b: Backend): Port {
    match p.state
    case Starting =>
      if b.open then Transition(p.(attempts := 0), Ready)
      else if Expired(p.deadline, now) then BeginRecovery(p, now) else p
    case Ready => Dispatch(p, now)
    case Active =>
      if b.start || p.active.None? then Transition(p, Waiting)
      else BeginRecovery(Notify(p, p.active.value.(status := TxFailed), TxFailed, [])
             .(stats := p.stats.(backendFailures := Inc(p.stats.backendFailures))), now)
    case Waiting => StepWaiting(p, now, b.poll)
    case Recovering => StepRecovering(p, now, b)
    case Reconfiguring => StepReconfiguring(p, now, b)
    case Stopping =>
      if b.stop then Transition(p, Disabled) else if Expired(p.deadline, now) then Transition(p, Failed) else p
    case _ => p
  }

  // ------------------------------------------------------------ other requests

  function CancelActive(p: Port, now: Tick): Port {
    if p.active.None? then p else
    BeginRecovery(Notify(p, Cancelled(p.active.value), TxCancelled, [])
      .(stats := p.stats.(cancelled := Inc(p.stats.cancelled))), now)
  }

  function Detach(p: Port, now: Tick): Port { CancelActive(Flush(p), now) }

  function ReportFailure(p: Port, now: Tick): Port {
    if p.state != Ready || p.active.Some? || p.queue != [] then p
    else BeginRecovery(p.(stats := p.stats.(backendFailures := Inc(p.stats.backendFailures))), now)
  }

  /** The common start of reconfigure and stop: the active transaction, then the queue. */
  function DropAll(p: Port): Port {
    Flush(if p.active.None? then p else
          Notify(p, p.active.value.(status := TxCancelled), TxCancelled, [])
            .(active := None, stats := p.stats.(cancelled := Inc(p.stats.cancelled))))
  }

  predicate Reconfigurable(p: Port, c: Config, timeout: Tick) {
    && ConfigValid(c) && timeout != 0 && ValidInterval(timeout)
    && p.state in {Ready, Active, Waiting, Recovering, Degraded}
  }

  function Reconfigure(p: Port, c: Config, now: Tick, timeout: Tick): Port {
    if !Reconfigurable(p, c, timeout) then p else
    var q := DropAll(p);
    Transition(q.(knownGood := q.current, staged := c, deadline := After(now, timeout)), Reconfiguring)
  }

  predicate Stoppable(p: Port, timeout: Tick) {
    timeout != 0 && ValidInterval(timeout) && p.state != Disabled && p.state != Stopping
  }

  function Stop(p: Port, now: Tick, timeout: Tick): Port {
    if !Stoppable(p, timeout) then p else
    Transition(DropAll(p).(deadline := After(now, timeout)), Stopping)
  }
}
