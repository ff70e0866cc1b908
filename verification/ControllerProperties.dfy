/**
 * Who owns a listener, over every run of the controller: no listener is started
 * on a port that owns one, a ready port owns one and has a working runtime, and
 * a refused reconfiguration changes nothing that matters.
 */
module ControllerProperties {
  import opened Base
  import opened Deadline
  import Port = PortModel
  import Ports = PortProperties
  import opened GatewayController

  // ------------------------------------------------- the listener from outside

  /** Whether a listener runs after these calls, and whether none was started over a running one. */
  datatype Listening = Listening(running: bool, proper: bool)

  function Heard(log: seq<ListenerOp>): Listening
    decreases |log|
  {
    if log == [] then Listening(false, true) else
    var l := Heard(log[..|log| - 1]);
    match log[|log| - 1]
    case Started(ok) => Listening(l.running || ok, l.proper && !l.running)
    case Stopped(ok) => Listening(l.running && !ok, l.proper)
  }

  lemma HeardMore(log: seq<ListenerOp>, op: ListenerOp)
    ensures Heard(log + [op]) ==
            match op
            case Started(ok) => Listening(Heard(log).running || ok, Heard(log).proper && !Heard(log).running)
            case Stopped(ok) => Listening(Heard(log).running && !ok, Heard(log).proper)
  {
    assert (log + [op])[..|log|] == log;
  }

  ghost predicate Tracked(p: Controlled) {
    Heard(p.log) == Listening(p.owned, true)
  }

  // ----------------------------------------------------------- the invariants

  /** The runtime a lifecycle goes with. */
  predicate Fits(p: Controlled) {
    var s := p.runtime.state;
    match p.lifecycle
    case Disabled => s == Port.Disabled
    case Starting => s == Port.Starting || s == Port.Recovering
    case Ready => Running(s)
    case Reconfiguring => s == Port.Reconfiguring || (p.rebind && (Running(s) || s == Port.Degraded))
    case RollingBack => s == Port.Reconfiguring
    case Stopping => s == Port.Stopping
    case Degraded => s == Port.Degraded
    case Failed => true
    case NetworkWait => Running(s) || s == Port.Degraded
  }

  /** The runtime's books and the record of the listener are in order. */
  ghost predicate Books(p: Controlled) {
    Ports.Inv(p.runtime) && Tracked(p)
  }

  /** A listener that would not stop is known of, and keeps its port from coming back by itself. */
  predicate OwnedWhere(p: Controlled) {
    !p.pendingDisable
    && (p.lifecycle == Ready || p.lifecycle == Degraded || p.lifecycle == Failed
        || (p.lifecycle == Stopping && p.lastError != NoError))
  }

  /** What every call keeps, shutdown and whatever follows it included. */
  ghost predicate InUse(p: Controlled) {
    && Books(p) && Fits(p)
    && (p.owned ==> OwnedWhere(p)) && (p.lifecycle == Ready ==> p.owned)
    && (p.runtime.state == Port.Stopping ==> p.lifecycle == Stopping)
    && (p.pendingDisable ==> p.lifecycle == Stopping || p.lifecycle == Failed)
  }

  // -------------------------------------------------------- the runtime's part

  lemma {:induction false} DispatchStates(r: Port.Port, now: Tick)
    requires r.state == Port.Ready
    ensures var s := Port.Dispatch(r, now).state; s == Port.Ready || s == Port.Active
    decreases |r.queue|
  {
    hide Expired, After, Port.Inc, Port.Depth;
    if r.queue != [] {
      var t, q := r.queue[0], Port.Depth(r.(queue := r.queue[1..]), |r.queue| - 1);
      DepthKeepsState(r.(queue := r.queue[1..]), |r.queue| - 1);
      if Expired(t.queueDeadline, now) {
        DispatchStates(Port.Notify(q, t.(status := Port.TxTimedOut), Port.TxTimedOut, [])
                       .(stats := q.stats.(timeouts := Port.Inc(q.stats.timeouts))), now);
      }
    }
  }

  lemma DepthKeepsState(r: Port.Port, n: nat)
    ensures Port.Depth(r, n).state == r.state && Port.Depth(r, n).queue == r.queue
            && Port.Depth(r, n).active == r.active
  {
  }

  /** Where one step of a runtime leads. */
  lemma StepStates(r: Port.Port, now: Tick, b: Port.Backend)
    ensures var s := Port.Step(r, now, b).state;
      match r.state
      case Ready => s == Port.Ready || s == Port.Active
      case Active => s == Port.Waiting || s == Port.Recovering
      case Waiting => s == Port.Waiting || s == Port.Ready || s == Port.Recovering
      case Recovering => s == Port.Recovering || s == Port.Ready || s == Port.Degraded
      case Starting => s == Port.Starting || s == Port.Ready || s == Port.Recovering
      case Reconfiguring => s == Port.Ready || s == Port.Failed
      case Stopping => s == Port.Stopping || s == Port.Disabled || s == Port.Failed
      case _ => s == r.state
  {
    hide Expired, After, Port.Inc, Port.Dispatch;
    if r.state == Port.Ready {
      DispatchStates(r, now);
    }
  }

  /** A permitted call other than a step leaves the state, or starts recovery of a running port. */
  lemma PermittedStates(r: Port.Port, c: Ports.Call, now: Tick)
    requires Ports.Inv(r) && Permitted(c) && !c.CallStep?
    ensures var s := Ports.Apply(r, c, now).state; s == r.state || (s == Port.Recovering && Running(r.state))
  {
    hide Expired, After, Port.Inc, Port.FlushAll, Ports.Core, Port.RequestValid, Port.NewTxn;
    if c.CallDetach? {
      FlushState(r);
    }
  }

  lemma FlushState(r: Port.Port)
    ensures Port.Flush(r).state == r.state && Port.Flush(r).active == r.active && Port.Flush(r).current == r.current
  {
    FlushAllState(r);
    hide Port.FlushAll;
  }

  lemma {:induction false} FlushAllState(r: Port.Port)
    ensures var q := Port.FlushAll(r); q.state == r.state && q.active == r.active && q.current == r.current
    decreases |r.queue|
  {
    hide Port.Inc;
    if r.queue != [] {
      FlushAllState(Port.Notify(r, Port.Cancelled(r.queue[0]), Port.TxCancelled, [])
                    .(queue := r.queue[1..], stats := r.stats.(cancelled := Port.Inc(r.stats.cancelled))));
    }
  }

  predicate AtWork(s: Port.PortState) { Running(s) || s == Port.Degraded }

  predicate Ending(s: Port.PortState) { s == Port.Stopping || s == Port.Disabled || s == Port.Failed }

  /** Where the listener's calls and steps of the runtime may lead from `s`. */
  predicate Follows(s: Port.PortState, t: Port.PortState) {
    && (AtWork(s) ==> AtWork(t)) && (s == Port.Degraded ==> t == Port.Degraded)
    && (Ending(s) ==> Ending(t)) && (s != Port.Stopping ==> t != Port.Stopping)
  }

  lemma {:induction false} ListenKeeps(r: Port.Port, calls: seq<Ports.Call>, now: Tick)
    requires Ports.Inv(r)
    ensures Ports.Inv(Listen(r, calls, now)) && Follows(r.state, Listen(r, calls, now).state)
    decreases |calls|
  {
    if calls != [] {
      if Permitted(calls[0]) {
        Ports.ApplyKeeps(r, calls[0], now);
        PermittedFollows(r, calls[0], now);
        var n := Ports.Apply(r, calls[0], now);
        ListenKeeps(n, calls[1..], now);
        FollowsOn(r.state, n.state, Listen(n, calls[1..], now).state);
      } else {
        ListenKeeps(r, calls[1..], now);
      }
    } else {
      FollowsItself(r.state);
    }
    hide Ports.Inv, Ports.Apply, Follows;
  }

  lemma PermittedFollows(r: Port.Port, c: Ports.Call, now: Tick)
    requires Ports.Inv(r) && Permitted(c)
    ensures Follows(r.state, Ports.Apply(r, c, now).state)
  {
    if c.CallStep? {
      StepFollows(r, now, c.backend);
      assert Ports.Apply(r, c, now) == Port.Step(r, now, c.backend);
    } else {
      PermittedStates(r, c, now);
    }
    hide Ports.Inv, Port.Start, Port.Submit, Port.Step, Port.CancelActive, Port.Detach, Port.ReportFailure,
         Port.Reconfigure, Port.Stop;
  }

  // ---------------------------------------------------------- one port, one call

  lemma StartBooks(p: Controlled, ok: bool)
    requires Books(p) && !p.owned
    ensures Books(StartAt(p, ok)) && StartAt(p, ok).owned == ok
  {
    HeardMore(p.log, Started(ok));
    hide Heard, Ports.Inv;
  }

  lemma StopBooks(p: Controlled, ok: bool)
    requires Books(p)
    ensures Books(StopListener(p, ok))
    ensures StopListener(p, ok) == p.(owned := p.owned && !ok, log := StopListener(p, ok).log)
  {
    HeardMore(p.log, Stopped(ok));
    hide Heard, Ports.Inv;
  }

  /** The books look only at the runtime and the record of the listener. */
  lemma SameBooks(p: Controlled, q: Controlled)
    requires Books(p) && q.log == p.log && q.owned == p.owned && Ports.Inv(q.runtime)
    ensures Books(q)
  {
    hide Heard, Ports.Inv;
  }

  lemma RuntimeOf(p: Controlled)
    requires Books(p)
    ensures Ports.Inv(p.runtime)
  {
    hide Heard, Ports.Inv;
  }

  /** The runtime after a step. */
  lemma RuntimeStates(p: Controlled, now: Tick, a: Answers)
    requires Ports.Inv(p.runtime)
    ensures var r := StepRuntime(p, now, a); Ports.Inv(r) && Follows(p.runtime.state, r.state)
    ensures !p.owned ==> StepRuntime(p, now, a) == Port.Step(p.runtime, now, a.backend)
  {
    var l := if p.owned then Listen(p.runtime, a.calls, now) else p.runtime;
    ListenKeeps(p.runtime, a.calls, now);
    FollowsItself(p.runtime.state);
    Ports.StepKeeps(l, now, a.backend);
    StepFollows(l, now, a.backend);
    FollowsOn(p.runtime.state, l.state, Port.Step(l, now, a.backend).state);
    hide Ports.Inv, Port.Step, Listen, Follows;
  }

  lemma FollowsItself(s: Port.PortState)
    ensures Follows(s, s)
  {
  }

  lemma FollowsOn(s: Port.PortState, t: Port.PortState, u: Port.PortState)
    requires Follows(s, t) && Follows(t, u)
    ensures Follows(s, u)
  {
  }

  lemma StepFollows(r: Port.Port, now: Tick, b: Port.Backend)
    ensures Follows(r.state, Port.Step(r, now, b).state)
  {
    StepStates(r, now, b);
    hide Port.Step;
  }

  /** Enough of the port's invariant to take a lifecycle step once the runtime has moved. */
  ghost predicate Moved(p: Controlled) {
    && Books(p)
    && (p.owned ==> OwnedWhere(p)) && (p.lifecycle == Ready ==> p.owned)
    && (p.pendingDisable ==> p.lifecycle == Stopping || p.lifecycle == Failed)
    && (p.runtime.state == Port.Stopping ==> p.lifecycle == Stopping)
    && var s := p.runtime.state;
       match p.lifecycle
       case Disabled => s == Port.Disabled
       case Starting => s == Port.Starting || s == Port.Recovering || s == Port.Ready || s == Port.Degraded
       case Ready => AtWork(s)
       case Reconfiguring => s == Port.Ready || s == Port.Failed || (p.rebind && AtWork(s))
       case RollingBack => s == Port.Ready || s == Port.Failed
       case Stopping => Ending(s)
       case Degraded => s == Port.Degraded
       case Failed => true
       case NetworkWait => AtWork(s)
  }

  lemma MoveKeeps(p: Controlled, now: Tick, a: Answers)
    requires InUse(p)
    ensures Moved(p.(runtime := StepRuntime(p, now, a)))
  {
    hide Ports.Inv, StepRuntime, Books, Port.Step;
    RuntimeOf(p);
    RuntimeStates(p, now, a);
    StepStates(p.runtime, now, a.backend);
    SameBooks(p, p.(runtime := StepRuntime(p, now, a)));
  }

  lemma StartListenerKeeps(p: Controlled, now: Tick, ok: bool)
    requires Books(p) && !p.owned && !p.pendingDisable && p.runtime.state == Port.Ready
    ensures InUse(StartListener(p, now, ok))
  {
    RuntimeOf(p);
    var r := StartListener(p, now, ok);
    if p.networkWait {
      SameBooks(p, r);
    } else if ok {
      StartBooks(p, ok);
      SameBooks(StartAt(p, ok), r);
    } else {
      NoListener(p, now);
    }
    hide Ports.Inv, Books, RequestStop, Port.Stoppable;
  }

  lemma NoListener(p: Controlled, now: Tick)
    requires Books(p) && !p.owned && !p.pendingDisable && p.runtime.state == Port.Ready && !p.networkWait
    ensures InUse(StartListener(p, now, false))
  {
    hide Ports.Inv, Books, Port.Stop;
    RuntimeOf(p);
    var r := StartListener(p, now, false);
    StartBooks(p, false);
    Ports.StopKeeps(p.runtime, now, TIMEOUT);
    SameBooks(StartAt(p, false), r);
  }

  lemma ReconfiguredKeeps(p: Controlled, now: Tick, ok: bool)
    requires Moved(p) && p.lifecycle == Reconfiguring && !p.rebind && p.runtime.state == Port.Ready
    ensures InUse(Reconfigured(p, now, ok))
  {
    if p.runtime.current.revision != p.staged.revision {
      NotAdopted(p, now, ok);
    } else if p.networkWait {
      AdoptedWaiting(p, now, ok);
    } else {
      ReadyOrRollback(p, now, ok);
    }
    hide Moved, InUse, Reconfigured;
  }

  lemma NotAdopted(p: Controlled, now: Tick, ok: bool)
    requires Moved(p) && p.lifecycle == Reconfiguring && !p.rebind && p.runtime.state == Port.Ready
    requires p.runtime.current.revision != p.staged.revision
    ensures InUse(Reconfigured(p, now, ok))
  {
    hide Ports.Inv, Books, Port.Stop, Port.Stoppable;
    RuntimeOf(p);
    var q := p.(lastError := ReconfigureFailed);
    SameBooks(p, q);
    StartListenerKeeps(q, now, ok);
    assert Reconfigured(p, now, ok) == StartListener(q, now, ok);
  }

  lemma AdoptedWaiting(p: Controlled, now: Tick, ok: bool)
    requires Moved(p) && p.lifecycle == Reconfiguring && !p.rebind && p.runtime.state == Port.Ready
    requires p.runtime.current.revision == p.staged.revision && p.networkWait
    ensures InUse(Reconfigured(p, now, ok))
  {
    hide Ports.Inv, Books, StartListener;
    RuntimeOf(p);
    SameBooks(p, Reconfigured(p, now, ok));
  }

  lemma ReadyOrRollback(p: Controlled, now: Tick, ok: bool)
    requires Moved(p) && p.lifecycle == Reconfiguring && !p.rebind && p.runtime.state == Port.Ready
    requires p.runtime.current.revision == p.staged.revision && !p.networkWait
    ensures InUse(Reconfigured(p, now, ok))
  {
    hide Ports.Inv, Books, StartListener, Resettle, CanReconfigure;
    RuntimeOf(p);
    var r := Reconfigured(p, now, ok);
    StartBooks(p, ok);
    var q := StartAt(p, false).(lastError := ListenerStart);
    ResettledState(q, p.knownGood, now);
    assert CanReconfigure(q, p.knownGood) == CanReconfigure(p, p.knownGood) by { SameRuntime(p, q, p.knownGood); }
    SameBooks(StartAt(p, ok), r);
  }

  lemma RebindKeeps(p: Controlled, a: Answers)
    requires Moved(p) && p.lifecycle == Reconfiguring && p.rebind
    ensures InUse(StepRebind(p, a))
  {
    hide Ports.Inv, Books, AdoptRevision;
    if p.runtime.state == Port.Ready && !p.networkWait {
      RebindStarts(p, a);
      hide StepRebind, InUse, Moved;
    } else {
      RuntimeOf(p);
      SameBooks(p, StepRebind(p, a));
    }
  }

  lemma RebindStarts(p: Controlled, a: Answers)
    requires Moved(p) && p.lifecycle == Reconfiguring && p.rebind && p.runtime.state == Port.Ready && !p.networkWait
    ensures InUse(StepRebind(p, a))
  {
    hide Ports.Inv, Books, AdoptRevision;
    RuntimeOf(p);
    var r := StepRebind(p, a);
    var q := p.(rebind := false);
    SameBooks(p, q);
    StartBooks(q, a.start);
    if a.start {
      RevisionKeeps(p.runtime, p.staged.revision);
      SameBooks(StartAt(q, true), r);
    } else {
      StartBooks(StartAt(q, false), a.again);
      SameBooks(StartAt(StartAt(q, false), a.again), r);
    }
  }

  lemma RevisionKeeps(r: Port.Port, revision: Word)
    requires Ports.Inv(r)
    ensures Ports.Inv(AdoptRevision(r, revision)) && AdoptRevision(r, revision).state == r.state
  {
    Ports.SameCoreKeeps(r, AdoptRevision(r, revision));
    hide Ports.Core;
  }

  lemma RollingBackKeeps(p: Controlled, a: Answers)
    requires Moved(p) && p.lifecycle == RollingBack
    ensures InUse(StepRollingBack(p, a))
  {
    hide Ports.Inv, Books, StartAt;
    RuntimeOf(p);
    var r := StepRollingBack(p, a);
    if p.runtime.state == Port.Ready && !p.networkWait {
      StartBooks(p, a.start);
      StartFrame(p, a.start);
      SameBooks(StartAt(p, a.start), r);
    } else {
      SameBooks(p, r);
    }
  }

  lemma StartFrame(p: Controlled, ok: bool)
    ensures var q := StartAt(p, ok); q == p.(owned := q.owned, log := q.log)
  {
  }

  lemma StoppingKeeps(p: Controlled)
    requires Moved(p) && p.lifecycle == Stopping
    ensures InUse(StepStopping(p))
  {
    hide Ports.Inv, Books;
    RuntimeOf(p);
    SameBooks(p, StepStopping(p));
  }

  lemma LifecycleKeeps(p: Controlled, now: Tick, a: Answers)
    requires Moved(p)
    ensures InUse(StepLifecycle(p, now, a))
  {
    hide Ports.Inv, Books, StartListener, StepRebind, Reconfigured, StepRollingBack, StepStopping;
    RuntimeOf(p);
    var r := StepLifecycle(p, now, a);
    match p.lifecycle {
      case Starting =>
        if p.runtime.state == Port.Ready {
          StartListenerKeeps(p, now, a.start);
        } else {
          SameBooks(p, r);
        }
      case Reconfiguring =>
        if p.rebind {
          RebindKeeps(p, a);
        } else if p.runtime.state == Port.Ready {
          ReconfiguredKeeps(p, now, a.start);
        } else {
          SameBooks(p, r);
        }
      case RollingBack => RollingBackKeeps(p, a);
      case Stopping => StoppingKeeps(p);
      case _ => SameBooks(p, r);
    }
  }

  lemma StepPortKeeps(p: Controlled, now: Tick, a: Answers)
    requires InUse(p)
    ensures InUse(StepPort(p, now, a))
  {
    MoveKeeps(p, now, a);
    LifecycleKeeps(p.(runtime := StepRuntime(p, now, a)), now, a);
    hide InUse, Moved, StepRuntime, StepLifecycle;
  }

  lemma StartPortKeeps(p: Controlled, now: Tick)
    requires InUse(p)
    ensures InUse(StartPort(p, now))
  {
    hide Ports.Inv, Books, Port.Start;
    RuntimeOf(p);
    Ports.StartKeeps(p.runtime, now, TIMEOUT);
    StartState(p.runtime, now);
    SameBooks(p, StartPort(p, now));
  }

  lemma StartState(r: Port.Port, now: Tick)
    ensures Port.Start(r, now, TIMEOUT).state == if Port.Allowed(r.state, Port.Starting) then Port.Starting else r.state
  {
    hide After, Port.Inc;
  }

  /** A port that may be reconfigured has a runtime that can be stopped, detached and reconfigured. */
  lemma ReadyToChange(p: Controlled, c: PortConfig, bindOk: string -> bool)
    requires InUse(p) && (p.lifecycle == Ready || p.lifecycle == NetworkWait)
    ensures Port.Stoppable(p.runtime, TIMEOUT) && !DetachFails(p.runtime)
    ensures ValidateOne(c, bindOk) == NoError && c.enabled != 0 ==> CanReconfigure(p, c)
  {
    ActiveIsRunning(p);
    if ValidateOne(c, bindOk) == NoError && c.enabled != 0 {
      CoreIsValid(c, bindOk);
    }
    hide Books, CoreConfig, ValidateOne, Port.ConfigValid;
  }

  lemma ActiveIsRunning(p: Controlled)
    requires Books(p)
    ensures p.runtime.active.Some? ==> p.runtime.state == Port.Active || p.runtime.state == Port.Waiting
  {
    hide Heard, Ports.Core;
  }

  /** Whatever passes the validation of an enabled port is a configuration its runtime takes. */
  lemma CoreIsValid(c: PortConfig, bindOk: string -> bool)
    requires ValidateOne(c, bindOk) == NoError && c.enabled != 0
    ensures Port.ConfigValid(CoreConfig(c))
  {
    if c.specialBaudEnabled == 0 {
      assert forall b | b in BAUDS :: 0 < b < TWO32;
    }
  }

  const TRANSPORTS: seq<Transport> := [ModbusTcp, ModbusUdp, RtuUdp, RawTcp, RawUdp, UnknownTransport]

  /**
   * The serial side gets what a valid configuration says: its framing, its
   * endpoint and transport, and as its speed the special one exactly if that is
   * enabled, whole.
   */
  lemma CoreMeans(c: PortConfig, bindOk: string -> bool)
    requires ValidateOne(c, bindOk) == NoError
    ensures var k := CoreConfig(c);
      && k.mode == c.mode && k.dataBits == c.dataBits && k.parity == c.parity && k.stopBits == c.stopBits
      && k.revision == c.revision && k.endpointPort == c.endpoint
      && k.transport < |TRANSPORTS| && TRANSPORTS[k.transport] == c.transport
      && k.specialBaudEnabled == c.specialBaudEnabled
      && (c.specialBaudEnabled == 0 ==> k.baud == c.baud)
      && (c.specialBaudEnabled == 1 ==> k.baud == k.specialBaud == c.specialBaud)
  {
    if c.specialBaudEnabled == 0 {
      assert forall b | b in BAUDS :: 0 < b < TWO32;
    }
  }

  lemma DetachStates(r: Port.Port, now: Tick)
    requires Ports.Inv(r)
    ensures Port.Detach(r, now).state == r.state || (Port.Detach(r, now).state == Port.Recovering && Running(r.state))
  {
    PermittedStates(r, Ports.CallDetach, now);
    hide Port.Detach, Ports.Inv;
  }

  lemma DisableKeeps(p: Controlled, c: PortConfig, now: Tick, stop: bool)
    requires InUse(p) && (p.lifecycle == Ready || p.lifecycle == Disabled || p.lifecycle == NetworkWait)
    ensures InUse(Disable(p, c, now, stop).0)
    ensures Disable(p, c, now, stop).1 == -1 <==> p.owned && !stop
  {
    hide Ports.Inv, Books, Port.Stop, StopListener;
    RuntimeOf(p);
    StopBooks(p, stop);
    Ports.StopKeeps(p.runtime, now, TIMEOUT);
    var r := Disable(p, c, now, stop).0;
    if p.lifecycle == Disabled {
      SameBooks(p, r);
    } else {
      ReadyToChange(p, c, s => true);
      SameBooks(StopListener(p, stop), r);
    }
  }

  lemma EnableKeeps(p: Controlled, c: PortConfig, now: Tick)
    requires InUse(p) && p.lifecycle == Disabled
    ensures InUse(Enable(p, c, now).0) && Enable(p, c, now).1 == 0
  {
    hide Ports.Inv, Books, Port.Start, Port.Init, CoreConfig;
    RuntimeOf(p);
    Ports.InitHolds(CoreConfig(c));
    InitState(CoreConfig(c));
    Ports.StartKeeps(Port.Init(CoreConfig(c)), now, TIMEOUT);
    StartState(Port.Init(CoreConfig(c)), now);
    SameBooks(p, Enable(p, c, now).0);
  }

  lemma InitState(c: Port.Config)
    ensures Port.Init(c).state == Port.Disabled
  {
  }

  lemma RebindingKeeps(p: Controlled, c: PortConfig, now: Tick, stop: bool)
    requires InUse(p) && (p.lifecycle == Ready || p.lifecycle == NetworkWait)
    ensures InUse(Rebind(p, c, now, stop).0)
    ensures Rebind(p, c, now, stop).1 == -1 <==> p.owned && !stop
  {
    hide Ports.Inv, Books, Port.Detach, StopListener, DetachFails;
    RuntimeOf(p);
    StopBooks(p, stop);
    Ports.DetachKeeps(p.runtime, now);
    DetachStates(p.runtime, now);
    ReadyToChange(p, c, s => true);
    SameBooks(StopListener(p, stop), Rebind(p, c, now, stop).0);
  }

  lemma ChangeKeeps(p: Controlled, c: PortConfig, bindOk: string -> bool, now: Tick, stop: bool, again: bool)
    requires InUse(p) && (p.lifecycle == Ready || p.lifecycle == NetworkWait)
    requires ValidateOne(c, bindOk) == NoError && c.enabled != 0
    ensures InUse(Change(p, c, now, stop, again).0)
    ensures Change(p, c, now, stop, again).1 == -1 <==> p.owned && !stop
  {
    hide Ports.Inv, Books, StopListener, ValidateOne, CanReconfigure, Resettle;
    RuntimeOf(p);
    StopBooks(p, stop);
    ReadyToChange(p, c, bindOk);
    var q := StopListener(p, stop).(staged := c, lastError := NoError);
    ResettledState(q, c, now);
    assert CanReconfigure(q, c) by { SameRuntime(p, q, c); }
    SameBooks(StopListener(p, stop), Change(p, c, now, stop, again).0);
  }

  lemma SameRuntime(p: Controlled, q: Controlled, c: PortConfig)
    requires q.runtime == p.runtime
    ensures CanReconfigure(q, c) == CanReconfigure(p, c)
  {
  }

  lemma ResettledState(p: Controlled, c: PortConfig, now: Tick)
    requires Ports.Inv(p.runtime)
    ensures var q := Resettle(p, c, now);
      && q == p.(runtime := q.runtime) && Ports.Inv(q.runtime)
      && (q.runtime.state == if CanReconfigure(p, c) then Port.Reconfiguring else p.runtime.state)
  {
    if !CanReconfigure(p, c) {
      RefusesReconfigure(p.runtime, CoreConfig(c), now);
    }
    Ports.ReconfigureKeeps(p.runtime, CoreConfig(c), now, TIMEOUT);
    hide Ports.Inv, Port.Reconfigure, CoreConfig, Port.Reconfigurable;
  }

  lemma RefusesReconfigure(r: Port.Port, c: Port.Config, now: Tick)
    requires !Port.Reconfigurable(r, c, TIMEOUT)
    ensures Port.Reconfigure(r, c, now, TIMEOUT) == r
  {
  }

  lemma AwaitKeeps(p: Controlled, wait: bool, now: Tick, stop: bool)
    requires InUse(p)
    ensures InUse(AwaitNetwork(p, wait, now, stop).0)
    ensures AwaitNetwork(p, wait, now, stop).1 == -1 <==> wait && p.lifecycle == Ready && !stop
  {
    hide Ports.Inv, Books, Port.Detach, StopListener, DetachFails;
    RuntimeOf(p);
    var q := p.(networkWait := wait);
    SameBooks(p, q);
    StopBooks(q, stop);
    if wait && p.lifecycle == Ready {
      Ports.DetachKeeps(p.runtime, now);
      DetachStates(p.runtime, now);
      ReadyToChange(p, p.current, s => true);
      SameBooks(StopListener(q, stop), AwaitNetwork(p, wait, now, stop).0);
    }
  }

  /** Shutting down, at any time and again. */
  lemma ShutKeeps(p: Controlled, now: Tick, stop: bool)
    requires InUse(p)
    ensures InUse(ShutPort(p, now, stop))
  {
    hide Ports.Inv, Books, Port.Stop, StopListener;
    RuntimeOf(p);
    StopBooks(p, stop);
    Ports.StopKeeps(p.runtime, now, TIMEOUT);
    SameBooks(StopListener(p, stop), ShutPort(p, now, stop));
  }

  // ------------------------------------------------------------- whole histories

  ghost predicate AllInUse(g: Gateway) { forall k | 0 <= k < PORT_COUNT :: InUse(g[k]) }

  lemma CallKeeps(g: Gateway, c: Call, bindOk: string -> bool, now: Tick)
    requires AllInUse(g)
    ensures AllInUse(ApplyCall(g, c, bindOk, now).0)
  {
    hide InUse, StartPort, StepPort, ReconfigurePort, AwaitNetwork, ShutPort, AnswersFor;
    match c {
      case StartAll => forall k | 0 <= k < PORT_COUNT { StartPortKeeps(g[k], now); }
      case StepAll(s) => forall k | 0 <= k < PORT_COUNT { StepPortKeeps(g[k], now, AnswersFor(s, k)); }
      case Reconfigure(i, config, stop, again) =>
        if i < PORT_COUNT && Acceptable(Replacement(g, i, config), i, bindOk) {
          ReconfigureKeeps(g[i], config, bindOk, now, stop, again);
        }
      case WaitForNetwork(i, wait, stop) => if i < PORT_COUNT { AwaitKeeps(g[i], wait, now, stop); }
      case Shutdown(stops) => forall k | 0 <= k < PORT_COUNT { ShutKeeps(g[k], now, k < |stops| && stops[k]); }
    }
  }

  /** A validated configuration is refused only for the port's lifecycle or a listener that would not stop. */
  lemma ReconfigureKeeps(p: Controlled, c: PortConfig, bindOk: string -> bool, now: Tick, stop: bool, again: bool)
    requires InUse(p) && ValidateOne(c, bindOk) == NoError
    ensures InUse(ReconfigurePort(p, c, now, stop, again).0)
    ensures ReconfigurePort(p, c, now, stop, again).1 == -1 <==>
            (p.lifecycle != Ready && p.lifecycle != Disabled && p.lifecycle != NetworkWait) || (p.owned && !stop)
  {
    hide Books, Fits, ValidateOne, Disable, Enable, Rebind, Change;
    if p.lifecycle == Ready || p.lifecycle == Disabled || p.lifecycle == NetworkWait {
      if c.enabled == 0 {
        DisableKeeps(p, c, now, stop);
      } else if p.lifecycle == Disabled {
        EnableKeeps(p, c, now);
      } else if OnlyRebinds(p, c) {
        RebindingKeeps(p, c, now, stop);
      } else {
        ChangeKeeps(p, c, bindOk, now, stop, again);
      }
    }
  }

  /** The controller after calls; a refused call changes what it changes. */
  function Run(g: Gateway, cs: seq<(Call, Tick)>, bindOk: string -> bool): Gateway
    decreases |cs|
  {
    if cs == [] then g else Run(ApplyCall(g, cs[0].0, bindOk, cs[0].1).0, cs[1..], bindOk)
  }

  lemma {:induction false} RunKeeps(g: Gateway, cs: seq<(Call, Tick)>, bindOk: string -> bool)
    requires AllInUse(g)
    ensures AllInUse(Run(g, cs, bindOk))
    decreases |cs|
  {
    hide InUse, ApplyCall;
    if cs != [] {
      CallKeeps(g, cs[0].0, bindOk, cs[0].1);
      RunKeeps(ApplyCall(g, cs[0].0, bindOk, cs[0].1).0, cs[1..], bindOk);
    }
  }

  lemma InitPortInUse(c: PortConfig, e: Error)
    ensures InUse(InitPort(c, e))
  {
    Ports.InitHolds(CoreConfig(c));
    InitState(CoreConfig(c));
    assert Heard([]) == Listening(false, true);
    hide Ports.Inv, Port.Init, CoreConfig;
  }

  lemma InitAllInUse(cs: seq<PortConfig>, bindOk: string -> bool)
    requires |cs| == PORT_COUNT
    ensures AllInUse(InitAll(cs, bindOk))
  {
    hide InUse, InitPort, Verdict;
    forall k | 0 <= k < PORT_COUNT {
      InitPortInUse(cs[k], Verdict(cs, k, PORT_COUNT, bindOk));
    }
  }

  /**
   * Listener ownership, over every run, reuse after shutdown included: on no port
   * is a listener started while one runs, a port knows whether its listener runs,
   * and a ready port has one and a working runtime.
   */
  lemma ListenersAreOwned(cs: seq<PortConfig>, calls: seq<(Call, Tick)>, bindOk: string -> bool, k: nat)
    requires |cs| == PORT_COUNT && k < PORT_COUNT
    ensures var p := Run(InitAll(cs, bindOk), calls, bindOk)[k];
      && Heard(p.log) == Listening(p.owned, true)
      && (p.lifecycle == Ready ==> p.owned && Running(p.runtime.state))
  {
    InitAllInUse(cs, bindOk);
    RunKeeps(InitAll(cs, bindOk), calls, bindOk);
    hide Run, InitAll, Ports.Inv, Heard;
  }

  /**
   * A reconfiguration that is refused, in any run, leaves lifecycle, listener,
   * configuration and runtime as they were, and it is refused exactly for an
   * unacceptable configuration, a lifecycle that takes none, or a listener that
   * would not stop.
   */
  lemma RefusalChangesNothing(cs: seq<PortConfig>, calls: seq<(Call, Tick)>, i: nat, c: PortConfig,
                              bindOk: string -> bool, now: Tick, stop: bool, again: bool)
    requires |cs| == PORT_COUNT && i < PORT_COUNT
    ensures var g := Run(InitAll(cs, bindOk), calls, bindOk);
            var (h, r) := ApplyCall(g, Reconfigure(i, c, stop, again), bindOk, now);
      && (r == -1 <==> !Acceptable(Replacement(g, i, c), i, bindOk)
                       || (g[i].lifecycle != Ready && g[i].lifecycle != Disabled && g[i].lifecycle != NetworkWait)
                       || (g[i].owned && !stop))
      && (r == -1 ==> forall k | 0 <= k < PORT_COUNT ::
            h[k].lifecycle == g[k].lifecycle && h[k].owned == g[k].owned && h[k].current == g[k].current
            && h[k].runtime == g[k].runtime)
  {
    InitAllInUse(cs, bindOk);
    RunKeeps(InitAll(cs, bindOk), calls, bindOk);
    RefusedCall(Run(InitAll(cs, bindOk), calls, bindOk), i, c, bindOk, now, stop, again);
    hide Run, InitAll, InUse, ApplyCall, Acceptable, Replacement;
  }

  lemma RefusedCall(g: Gateway, i: nat, c: PortConfig, bindOk: string -> bool, now: Tick, stop: bool, again: bool)
    requires AllInUse(g) && i < PORT_COUNT
    ensures var (h, r) := ApplyCall(g, Reconfigure(i, c, stop, again), bindOk, now);
      && (r == -1 <==> !Acceptable(Replacement(g, i, c), i, bindOk)
                       || (g[i].lifecycle != Ready && g[i].lifecycle != Disabled && g[i].lifecycle != NetworkWait)
                       || (g[i].owned && !stop))
      && (r == -1 ==> forall k | 0 <= k < PORT_COUNT ::
            h[k].lifecycle == g[k].lifecycle && h[k].owned == g[k].owned && h[k].current == g[k].current
            && h[k].runtime == g[k].runtime)
  {
    hide InUse, ReconfigurePort, ValidateOne, Clash;
    if Acceptable(Replacement(g, i, c), i, bindOk) {
      ReconfigureKeeps(g[i], c, bindOk, now, stop, again);
      if ReconfigurePort(g[i], c, now, stop, again).1 == -1 {
        RefusedPort(g[i], c, bindOk, now, stop, again);
      }
    }
  }

  lemma RefusedPort(p: Controlled, c: PortConfig, bindOk: string -> bool, now: Tick, stop: bool, again: bool)
    requires InUse(p) && ValidateOne(c, bindOk) == NoError && ReconfigurePort(p, c, now, stop, again).1 == -1
    ensures var q := ReconfigurePort(p, c, now, stop, again).0;
      q.lifecycle == p.lifecycle && q.owned == p.owned && q.current == p.current && q.runtime == p.runtime
  {
    hide InUse, Port.Stop, Port.Start, Port.Reconfigure, Port.Detach, ValidateOne, CanReconfigure, DetachFails,
         Port.Stoppable;
    ReconfigureKeeps(p, c, bindOk, now, stop, again);
  }
}
