/**
 * Which configuration a port really carries: whether the serial side of a port
 * runs with the configuration its controller reports, and the two ways in which
 * a refusal of the serial side goes unnoticed.
 */
module ControllerConfigs {
  import opened Base
  import opened Deadline
  import Port = PortModel
  import Ports = PortProperties
  import opened GatewayController
  import opened ControllerProperties

  ghost predicate Carries(p: Controlled, c: PortConfig) { p.runtime.current == CoreConfig(c) }

  /** In use, and never yet shut down: no flag or listener is left over. */
  ghost predicate FirstUse(p: Controlled) {
    InUse(p) && FlagsOk(p)
  }

  ghost predicate FlagsOk(p: Controlled) {
    && (p.rebind ==> p.lifecycle == Reconfiguring && AtWork(p.runtime.state))
    && (p.owned ==> p.lifecycle == Ready || p.lifecycle == Degraded)
  }

  /** The serial side runs what the controller reports, or is on its way there. */
  ghost predicate InStep(p: Controlled) {
    && (p.lifecycle != Disabled || p.current.enabled != 0 ==> p.knownGood == p.current)
    && (p.rebind ==> OnlyRebinds(p, p.staged))
    && (p.pendingDisable ==> p.staged.enabled == 0)
    && match p.lifecycle
       case Disabled => p.current.enabled != 0 ==> Carries(p, p.current)
       case Starting => Carries(p, p.current)
       case Ready => Carries(p, p.current)
       case Degraded => Carries(p, p.current)
       case NetworkWait => Carries(p, p.current)
       case Reconfiguring => Carries(p, p.current) && (!p.rebind ==> p.runtime.staged == CoreConfig(p.staged))
       case RollingBack => p.runtime.staged == CoreConfig(p.current)
       case Stopping => p.pendingDisable || p.lastError != NoError
       case Failed => true
  }

  /** The serial side refuses the configuration asked for but takes the one before. */
  predicate Refused(r: Port.Port, now: Tick, b: Port.Backend) {
    r.state == Port.Reconfiguring && b.knownGood && (Expired(r.deadline, now) || !b.staged)
  }

  /** What goes unnoticed: a refusal under an unchanged revision, or of the old configuration while rolling back. */
  ghost predicate Slips(p: Controlled, now: Tick, a: Answers) {
    && Refused(p.runtime, now, a.backend) && (p.networkWait || a.start)
    && match p.lifecycle
       case Reconfiguring => p.staged.revision == p.current.revision && CoreConfig(p.staged) != CoreConfig(p.current)
       case RollingBack => !Carries(p, p.current)
       case _ => false
  }

  // ----------------------------------------------- what a runtime is configured with

  predicate SameSetup(r: Port.Port, s: Port.Port) {
    s.current == r.current && s.staged == r.staged && s.knownGood == r.knownGood
  }

  lemma {:induction false} DispatchSetup(r: Port.Port, now: Tick)
    ensures SameSetup(r, Port.Dispatch(r, now))
    decreases |r.queue|
  {
    hide Expired, After, Port.Inc, Port.Depth;
    if r.queue != [] {
      var t, q := r.queue[0], Port.Depth(r.(queue := r.queue[1..]), |r.queue| - 1);
      DepthSetup(r.(queue := r.queue[1..]), |r.queue| - 1);
      if Expired(t.queueDeadline, now) {
        DispatchSetup(Port.Notify(q, t.(status := Port.TxTimedOut), Port.TxTimedOut, [])
                      .(stats := q.stats.(timeouts := Port.Inc(q.stats.timeouts))), now);
      }
    }
  }

  lemma DepthSetup(r: Port.Port, n: nat)
    ensures SameSetup(r, Port.Depth(r, n)) && Port.Depth(r, n).queue == r.queue
  {
  }

  lemma {:induction false} FlushSetup(r: Port.Port)
    ensures SameSetup(r, Port.FlushAll(r))
    decreases |r.queue|
  {
    hide Port.Inc;
    if r.queue != [] {
      FlushSetup(Port.Notify(r, Port.Cancelled(r.queue[0]), Port.TxCancelled, [])
                 .(queue := r.queue[1..], stats := r.stats.(cancelled := Port.Inc(r.stats.cancelled))));
    }
  }

  /** Only a step while reconfiguring changes what a runtime is configured with. */
  lemma StepSetup(r: Port.Port, now: Tick, b: Port.Backend)
    ensures var s := Port.Step(r, now, b);
      && s.staged == r.staged
      && (r.state != Port.Reconfiguring ==> SameSetup(r, s))
      && (r.state == Port.Reconfiguring && s.state == Port.Ready ==>
            if Refused(r, now, b) then s.current == r.current else s.current == r.staged)
  {
    if r.state == Port.Reconfiguring {
      ReconfiguringSetup(r, now, b);
    } else if r.state == Port.Waiting {
      WaitingSetup(r, now, b.poll);
    } else {
      DispatchSetup(r, now);
    }
    hide Expired, After, Port.Inc, Port.Dispatch, Port.StepReconfiguring, Port.StepWaiting, Refused;
  }

  lemma ReconfiguringSetup(r: Port.Port, now: Tick, b: Port.Backend)
    requires r.state == Port.Reconfiguring
    ensures var s := Port.StepReconfiguring(r, now, b);
      && s.staged == r.staged
      && (s.state == Port.Ready ==> if Refused(r, now, b) then s.current == r.current else s.current == r.staged)
  {
    hide Expired, Port.Inc;
  }

  lemma WaitingSetup(r: Port.Port, now: Tick, poll: Port.Poll)
    ensures SameSetup(r, Port.StepWaiting(r, now, poll))
  {
    hide Expired, After, Port.Inc;
  }

  lemma PermittedSetup(r: Port.Port, c: Ports.Call, now: Tick)
    requires Permitted(c) && !c.CallStep?
    ensures SameSetup(r, Ports.Apply(r, c, now))
  {
    hide Expired, After, Port.Inc, Port.FlushAll, Port.RequestValid, Port.NewTxn;
    FlushSetup(r);
  }

  lemma {:induction false} ListenSetup(r: Port.Port, calls: seq<Ports.Call>, now: Tick)
    requires Ports.Inv(r) && AtWork(r.state)
    ensures SameSetup(r, Listen(r, calls, now))
    decreases |calls|
  {
    if calls != [] {
      var n := if Permitted(calls[0]) then Ports.Apply(r, calls[0], now) else r;
      ListenKeeps(r, [calls[0]], now);
      assert [calls[0]][1..] == [];
      assert Listen(r, [calls[0]], now) == n;
      if Permitted(calls[0]) {
        if calls[0].CallStep? {
          StepSetup(r, now, calls[0].backend);
          assert n == Port.Step(r, now, calls[0].backend);
        } else {
          PermittedSetup(r, calls[0], now);
        }
      }
      ListenSetup(n, calls[1..], now);
    }
    hide Ports.Inv, Port.Start, Port.Submit, Port.Step, Port.CancelActive, Port.Detach, Port.ReportFailure,
         Port.Reconfigure, Port.Stop;
  }

  lemma RuntimeSetup(p: Controlled, now: Tick, a: Answers)
    requires FirstUse(p)
    ensures var r := StepRuntime(p, now, a);
      && r.staged == p.runtime.staged
      && (p.runtime.state != Port.Reconfiguring ==> SameSetup(p.runtime, r))
      && (p.runtime.state == Port.Reconfiguring && r.state == Port.Ready ==>
            if Refused(p.runtime, now, a.backend) then r.current == p.runtime.current
            else r.current == p.runtime.staged)
  {
    RuntimeOf(p);
    var l := if p.owned then Listen(p.runtime, a.calls, now) else p.runtime;
    if p.owned {
      ListenSetup(p.runtime, a.calls, now);
      ListenKeeps(p.runtime, a.calls, now);
    }
    StepSetup(l, now, a.backend);
    hide Ports.Inv, Books, Port.Step, Listen, Refused;
  }

  // --------------------------------------------------------------- each call

  lemma RebindCarries(p: Controlled, a: Answers)
    requires InStep(p) && p.lifecycle == Reconfiguring && p.rebind
    ensures InStep(StepRebind(p, a))
  {
    assert CoreConfig(p.staged) == CoreConfig(p.current).(revision := p.staged.revision);
    hide CoreConfig;
  }

  lemma RevisionOf(c: PortConfig)
    ensures CoreConfig(c).revision == c.revision
  {
  }

  /** The serial side answered with `current` as its configuration. */
  lemma ReconfiguredCarries(p: Controlled, now: Tick, ok: bool)
    requires p.lifecycle == Reconfiguring && !p.rebind && !p.pendingDisable && p.knownGood == p.current
    requires Carries(p, p.current) || Carries(p, p.staged)
    ensures InStep(Reconfigured(p, now, ok)) <==>
            (p.runtime.current.revision == p.staged.revision && (p.networkWait || ok) ==> Carries(p, p.staged))
            && (p.runtime.current.revision != p.staged.revision && (p.networkWait || ok) ==> Carries(p, p.current))
  {
    RevisionOf(p.staged);
    RevisionOf(p.current);
    if CanReconfigure(p, p.knownGood) {
      ResettledStaged(p.runtime, CoreConfig(p.knownGood), now);
    }
    hide CoreConfig, Port.Stop, Port.Stoppable, Port.Reconfigure, Port.Reconfigurable;
  }

  lemma ResettledStaged(r: Port.Port, c: Port.Config, now: Tick)
    requires Port.Reconfigurable(r, c, TIMEOUT)
    ensures Port.Reconfigure(r, c, now, TIMEOUT).staged == c
            && Port.Reconfigure(r, c, now, TIMEOUT).current == r.current
  {
    DropSetup(r);
    hide Port.DropAll;
  }

  lemma DropSetup(r: Port.Port)
    ensures SameSetup(r, Port.DropAll(r))
  {
    FlushSetup(r);
    FlushSetup(if r.active.None? then r else
               Port.Notify(r, r.active.value.(status := Port.TxCancelled), Port.TxCancelled, [])
               .(active := None, stats := r.stats.(cancelled := Port.Inc(r.stats.cancelled))));
    hide Port.FlushAll, Port.Inc;
  }

  lemma ReconfiguringStays(p: Controlled, now: Tick, a: Answers)
    requires FirstUse(p) && InStep(p) && p.lifecycle == Reconfiguring
    ensures InStep(StepPort(p, now, a)) <==> !Slips(p, now, a)
  {
    hide CoreConfig, StepRuntime, Books, Refused, StepRebind, Reconfigured;
    var q := p.(runtime := StepRuntime(p, now, a));
    RuntimeSetup(p, now, a);
    MoveKeeps(p, now, a);
    RevisionOf(p.staged);
    RevisionOf(p.current);
    if p.rebind {
      AtWorkIsNotRefused(p.runtime, now, a.backend);
      RebindCarries(q, a);
    } else if q.runtime.state == Port.Ready {
      ReconfiguredCarries(q, now, a.start);
    } else {
      NotReadyIsNotRefused(p, now, a);
    }
  }

  lemma AtWorkIsNotRefused(r: Port.Port, now: Tick, b: Port.Backend)
    requires AtWork(r.state)
    ensures !Refused(r, now, b)
  {
    hide Expired;
  }

  lemma NotReadyIsNotRefused(p: Controlled, now: Tick, a: Answers)
    requires p.runtime.state == Port.Reconfiguring && !p.owned && StepRuntime(p, now, a).state != Port.Ready
    ensures !Refused(p.runtime, now, a.backend)
  {
    hide Expired;
  }

  lemma RollingBackStays(p: Controlled, now: Tick, a: Answers)
    requires FirstUse(p) && InStep(p) && p.lifecycle == RollingBack
    ensures InStep(StepPort(p, now, a)) <==> !Slips(p, now, a)
  {
    hide CoreConfig, StepRuntime, Books, Refused;
    RuntimeSetup(p, now, a);
    MoveKeeps(p, now, a);
    if StepRuntime(p, now, a).state != Port.Ready {
      NotReadyIsNotRefused(p, now, a);
    }
  }

  lemma OthersStay(p: Controlled, now: Tick, a: Answers)
    requires FirstUse(p) && InStep(p) && p.lifecycle != Reconfiguring && p.lifecycle != RollingBack
    ensures InStep(StepPort(p, now, a))
  {
    hide CoreConfig, StepRuntime, Books, Refused, Port.Stop, Port.Stoppable;
    RuntimeSetup(p, now, a);
    MoveKeeps(p, now, a);
  }

  /**
   * One step of a port whose serial side is in step: it stays in step exactly
   * when no refusal of the serial side slips by.
   */
  lemma StepStaysInStep(p: Controlled, now: Tick, a: Answers)
    requires FirstUse(p) && InStep(p)
    ensures InStep(StepPort(p, now, a)) <==> !Slips(p, now, a)
  {
    match p.lifecycle {
      case Reconfiguring => ReconfiguringStays(p, now, a);
      case RollingBack => RollingBackStays(p, now, a);
      case _ => OthersStay(p, now, a);
    }
    hide FirstUse, InStep, StepPort, Refused;
  }

  /** Taking a configuration keeps the serial side in step, whatever is asked. */
  lemma ReconfigureStays(p: Controlled, c: PortConfig, bindOk: string -> bool, now: Tick, stop: bool, again: bool)
    requires FirstUse(p) && InStep(p) && ValidateOne(c, bindOk) == NoError
    ensures InStep(ReconfigurePort(p, c, now, stop, again).0)
  {
    hide Disable, Enable, Rebind, Change, FirstUse, ValidateOne;
    if p.lifecycle == Ready || p.lifecycle == Disabled || p.lifecycle == NetworkWait {
      if c.enabled == 0 {
        DisableStays(p, c, now, stop);
      } else if p.lifecycle == Disabled {
        EnableStays(p, c, now);
      } else if OnlyRebinds(p, c) {
        RebindStays(p, c, now, stop);
      } else {
        ChangeStays(p, c, bindOk, now, stop, again);
      }
    }
  }

  lemma DisableStays(p: Controlled, c: PortConfig, now: Tick, stop: bool)
    requires FirstUse(p) && InStep(p) && c.enabled == 0
    requires p.lifecycle == Ready || p.lifecycle == Disabled || p.lifecycle == NetworkWait
    ensures InStep(Disable(p, c, now, stop).0)
  {
    ReadyOrDisabled(p, c);
    hide CoreConfig, Books, Port.Stop, Port.Stoppable;
  }

  lemma ReadyOrDisabled(p: Controlled, c: PortConfig)
    requires FirstUse(p) && (p.lifecycle == Ready || p.lifecycle == Disabled || p.lifecycle == NetworkWait)
    ensures p.lifecycle != Disabled ==> Port.Stoppable(p.runtime, TIMEOUT) && !DetachFails(p.runtime)
  {
    if p.lifecycle != Disabled {
      ReadyToChange(p, c, s => true);
    }
    hide InUse;
  }

  lemma EnableStays(p: Controlled, c: PortConfig, now: Tick)
    requires FirstUse(p) && InStep(p) && p.lifecycle == Disabled
    ensures InStep(Enable(p, c, now).0)
  {
    StartSetup(Port.Init(CoreConfig(c)), now);
    hide CoreConfig, Books, Port.Start;
  }

  lemma StartSetup(r: Port.Port, now: Tick)
    ensures SameSetup(r, Port.Start(r, now, TIMEOUT))
  {
    hide After, Port.Inc;
  }

  lemma RebindStays(p: Controlled, c: PortConfig, now: Tick, stop: bool)
    requires FirstUse(p) && InStep(p) && (p.lifecycle == Ready || p.lifecycle == NetworkWait) && OnlyRebinds(p, c)
    ensures InStep(Rebind(p, c, now, stop).0)
  {
    ReadyOrDisabled(p, c);
    DetachSetup(p.runtime, now);
    hide CoreConfig, Books, Port.Detach, DetachFails;
  }

  lemma DetachSetup(r: Port.Port, now: Tick)
    ensures SameSetup(r, Port.Detach(r, now))
  {
    PermittedSetup(r, Ports.CallDetach, now);
    hide Port.Detach;
  }

  lemma ChangeStays(p: Controlled, c: PortConfig, bindOk: string -> bool, now: Tick, stop: bool, again: bool)
    requires FirstUse(p) && InStep(p) && (p.lifecycle == Ready || p.lifecycle == NetworkWait)
    requires ValidateOne(c, bindOk) == NoError && c.enabled != 0
    ensures InStep(Change(p, c, now, stop, again).0)
  {
    ReadyToChange(p, c, bindOk);
    ResettledStaged(p.runtime, CoreConfig(c), now);
    hide CoreConfig, Books, Port.Reconfigure, Port.Reconfigurable, ValidateOne, Port.Stoppable, DetachFails;
  }

  lemma AwaitStays(p: Controlled, wait: bool, now: Tick, stop: bool)
    requires FirstUse(p) && InStep(p)
    ensures InStep(AwaitNetwork(p, wait, now, stop).0)
  {
    if p.lifecycle == Ready {
      ReadyOrDisabled(p, p.current);
    }
    DetachSetup(p.runtime, now);
    hide CoreConfig, Books, Port.Detach, DetachFails;
  }

  lemma StartStays(p: Controlled, now: Tick)
    requires FirstUse(p) && InStep(p)
    ensures InStep(StartPort(p, now))
  {
    StartSetup(p.runtime, now);
    hide CoreConfig, Books, Port.Start;
  }

  // ------------------------------------------------------------ whole histories

  ghost predicate AllFirstUse(g: Gateway) { forall k | 0 <= k < PORT_COUNT :: FirstUse(g[k]) }

  ghost predicate AllInStep(g: Gateway) { forall k | 0 <= k < PORT_COUNT :: InStep(g[k]) }

  /** No refusal slips by in this call. */
  ghost predicate Noticed(g: Gateway, c: Call, now: Tick) {
    c.StepAll? ==> forall k | 0 <= k < PORT_COUNT :: !Slips(g[k], now, AnswersFor(c.answers, k))
  }

  lemma CallFirstUse(g: Gateway, c: Call, bindOk: string -> bool, now: Tick)
    requires AllFirstUse(g) && !c.Shutdown?
    ensures AllFirstUse(ApplyCall(g, c, bindOk, now).0)
  {
    hide InUse, StartPort, StepPort, ReconfigurePort, AwaitNetwork, AnswersFor;
    var h := ApplyCall(g, c, bindOk, now).0;
    forall k | 0 <= k < PORT_COUNT ensures FirstUse(h[k]) {
      match c {
        case StartAll => StartFirstUse(g[k], now);
        case StepAll(s) => StepFirstUse(g[k], now, AnswersFor(s, k));
        case Reconfigure(i, config, stop, again) =>
          if i < PORT_COUNT && Acceptable(Replacement(g, i, config), i, bindOk) {
            ReconfigureFirstUse(g[i], config, bindOk, now, stop, again);
          }
        case WaitForNetwork(i, wait, stop) => if i < PORT_COUNT { AwaitFirstUse(g[i], wait, now, stop); }
      }
    }
  }

  lemma StartFirstUse(p: Controlled, now: Tick)
    requires FirstUse(p)
    ensures FirstUse(StartPort(p, now))
  {
    StartPortKeeps(p, now);
    StartState(p.runtime, now);
    hide Books, Port.Start;
  }

  lemma StepFirstUse(p: Controlled, now: Tick, a: Answers)
    requires FirstUse(p)
    ensures FirstUse(StepPort(p, now, a))
  {
    hide Books, StepRuntime, Port.Stop, Port.Stoppable, AdoptRevision, Port.Reconfigure, CanReconfigure;
    StepPortKeeps(p, now, a);
    MoveKeeps(p, now, a);
  }

  lemma ReconfigureFirstUse(p: Controlled, c: PortConfig, bindOk: string -> bool, now: Tick, stop: bool, again: bool)
    requires FirstUse(p) && ValidateOne(c, bindOk) == NoError
    ensures FirstUse(ReconfigurePort(p, c, now, stop, again).0)
  {
    ReconfigureKeeps(p, c, bindOk, now, stop, again);
    if p.lifecycle == Ready || p.lifecycle == Disabled || p.lifecycle == NetworkWait {
      if c.enabled == 0 {
        DisableFlags(p, c, now, stop);
      } else if p.lifecycle == Disabled {
        EnableFlags(p, c, now);
      } else if OnlyRebinds(p, c) {
        RebindFlags(p, c, now, stop);
      } else {
        ChangeFlags(p, c, bindOk, now, stop, again);
      }
    }
    hide InUse, ValidateOne, Disable, Enable, Rebind, Change, OnlyRebinds;
  }

  lemma DisableFlags(p: Controlled, c: PortConfig, now: Tick, stop: bool)
    requires FlagsOk(p) && (p.lifecycle == Ready || p.lifecycle == Disabled || p.lifecycle == NetworkWait)
    ensures FlagsOk(Disable(p, c, now, stop).0)
  {
    hide Port.Stop, Port.Stoppable;
  }

  lemma EnableFlags(p: Controlled, c: PortConfig, now: Tick)
    requires FlagsOk(p) && p.lifecycle == Disabled
    ensures FlagsOk(Enable(p, c, now).0)
  {
    hide Port.Start, Port.Init, CoreConfig;
  }

  lemma RebindFlags(p: Controlled, c: PortConfig, now: Tick, stop: bool)
    requires FirstUse(p) && (p.lifecycle == Ready || p.lifecycle == NetworkWait)
    ensures FlagsOk(Rebind(p, c, now, stop).0)
  {
    RuntimeOf(p);
    ReadyOrDisabled(p, c);
    DetachStates(p.runtime, now);
    hide Books, Port.Detach, DetachFails, Ports.Inv;
  }

  lemma ChangeFlags(p: Controlled, c: PortConfig, bindOk: string -> bool, now: Tick, stop: bool, again: bool)
    requires FirstUse(p) && (p.lifecycle == Ready || p.lifecycle == NetworkWait)
    requires ValidateOne(c, bindOk) == NoError && c.enabled != 0
    ensures FlagsOk(Change(p, c, now, stop, again).0)
  {
    ReadyToChange(p, c, bindOk);
    hide Books, Port.Reconfigure, CanReconfigure, CoreConfig, ValidateOne;
  }

  lemma AwaitFirstUse(p: Controlled, wait: bool, now: Tick, stop: bool)
    requires FirstUse(p)
    ensures FirstUse(AwaitNetwork(p, wait, now, stop).0)
  {
    AwaitKeeps(p, wait, now, stop);
    RuntimeOf(p);
    hide Books, Port.Detach, DetachFails, Ports.Inv;
  }

  lemma CallStays(g: Gateway, c: Call, bindOk: string -> bool, now: Tick)
    requires AllFirstUse(g) && AllInStep(g) && !c.Shutdown?
    ensures AllInStep(ApplyCall(g, c, bindOk, now).0) <==> Noticed(g, c, now)
  {
    hide FirstUse, InStep, StartPort, StepPort, ReconfigurePort, AwaitNetwork, AnswersFor, Slips;
    match c {
      case StartAll => forall k | 0 <= k < PORT_COUNT { StartStays(g[k], now); }
      case StepAll(s) =>
        var h := ApplyCall(g, c, bindOk, now).0;
        forall k | 0 <= k < PORT_COUNT ensures InStep(h[k]) <==> !Slips(g[k], now, AnswersFor(s, k)) {
          StepStaysInStep(g[k], now, AnswersFor(s, k));
        }
      case Reconfigure(i, config, stop, again) =>
        if i < PORT_COUNT && Acceptable(Replacement(g, i, config), i, bindOk) {
          ReconfigureStays(g[i], config, bindOk, now, stop, again);
        }
      case WaitForNetwork(i, wait, stop) => if i < PORT_COUNT { AwaitStays(g[i], wait, now, stop); }
    }
  }

  ghost predicate AllNoticed(g: Gateway, cs: seq<(Call, Tick)>, bindOk: string -> bool)
    decreases |cs|
  {
    cs == [] ||
    (!cs[0].0.Shutdown? && Noticed(g, cs[0].0, cs[0].1)
     && AllNoticed(ApplyCall(g, cs[0].0, bindOk, cs[0].1).0, cs[1..], bindOk))
  }

  lemma {:induction false} RunStays(g: Gateway, cs: seq<(Call, Tick)>, bindOk: string -> bool)
    requires AllFirstUse(g) && AllInStep(g) && AllNoticed(g, cs, bindOk)
    ensures AllInStep(Run(g, cs, bindOk))
    decreases |cs|
  {
    hide FirstUse, InStep, ApplyCall, Noticed;
    if cs != [] {
      CallFirstUse(g, cs[0].0, bindOk, cs[0].1);
      CallStays(g, cs[0].0, bindOk, cs[0].1);
      RunStays(ApplyCall(g, cs[0].0, bindOk, cs[0].1).0, cs[1..], bindOk);
    }
  }

  /**
   * Over every run before shutdown in which no refusal slips by, the serial side
   * of a ready port runs with the configuration the controller reports for it.
   */
  lemma ReadyRunsItsConfig(cs: seq<PortConfig>, calls: seq<(Call, Tick)>, bindOk: string -> bool, k: nat)
    requires |cs| == PORT_COUNT && AllNoticed(InitAll(cs, bindOk), calls, bindOk) && k < PORT_COUNT
    ensures var p := Run(InitAll(cs, bindOk), calls, bindOk)[k];
            p.lifecycle == Ready ==> p.runtime.current == CoreConfig(p.current)
  {
    var g := InitAll(cs, bindOk);
    InitAllInUse(cs, bindOk);
    forall j | 0 <= j < PORT_COUNT ensures FirstUse(g[j]) && InStep(g[j]) {
      InitStays(cs[j], Verdict(cs, j, PORT_COUNT, bindOk));
    }
    RunStays(g, calls, bindOk);
    hide Run, InitPort, AllNoticed, CoreConfig, Verdict;
  }

  // -------------------------------------------------- what a caller can see to

  /** Every configuration comes with a revision of its own, and no rollback of the serial side is refused. */
  ghost predicate Careful(g: Gateway, c: Call, now: Tick) {
    && !c.Shutdown?
    && (c.Reconfigure? && c.index < PORT_COUNT ==> c.config.revision != g[c.index].current.revision)
    && (c.StepAll? ==> forall k | 0 <= k < PORT_COUNT && g[k].lifecycle == RollingBack ::
          !Refused(g[k].runtime, now, AnswersFor(c.answers, k).backend))
  }

  ghost predicate AllCareful(g: Gateway, cs: seq<(Call, Tick)>, bindOk: string -> bool)
    decreases |cs|
  {
    cs == [] ||
    (Careful(g, cs[0].0, cs[0].1) && AllCareful(ApplyCall(g, cs[0].0, bindOk, cs[0].1).0, cs[1..], bindOk))
  }

  /** A configuration on its way to the serial side has a revision of its own. */
  predicate NewRevision(p: Controlled) {
    p.lifecycle == Reconfiguring && !p.rebind ==> p.staged.revision != p.current.revision
  }

  ghost predicate AllNew(g: Gateway) { forall k | 0 <= k < PORT_COUNT :: NewRevision(g[k]) }

  lemma StepIsNew(p: Controlled, now: Tick, a: Answers)
    requires NewRevision(p)
    ensures NewRevision(StepPort(p, now, a))
  {
    hide StepRuntime, Port.Stop, Port.Stoppable, Port.Reconfigure, CanReconfigure, AdoptRevision;
  }

  lemma ReconfigureIsNew(p: Controlled, c: PortConfig, now: Tick, stop: bool, again: bool)
    requires NewRevision(p) && c.revision != p.current.revision
    ensures NewRevision(ReconfigurePort(p, c, now, stop, again).0)
  {
    hide Disable, Enable, Rebind, Change;
    DisableIsNew(p, c, now, stop);
    RebindIsNew(p, c, now, stop);
    ChangeIsNew(p, c, now, stop, again);
    EnableIsNew(p, c, now);
  }

  lemma DisableIsNew(p: Controlled, c: PortConfig, now: Tick, stop: bool)
    requires NewRevision(p)
    ensures NewRevision(Disable(p, c, now, stop).0) || p.lifecycle == Reconfiguring
  {
    hide Port.Stop, Port.Stoppable;
  }

  lemma EnableIsNew(p: Controlled, c: PortConfig, now: Tick)
    requires NewRevision(p)
    ensures NewRevision(Enable(p, c, now).0) || p.lifecycle == Reconfiguring
  {
    hide Port.Start, Port.Init, CoreConfig;
  }

  lemma RebindIsNew(p: Controlled, c: PortConfig, now: Tick, stop: bool)
    requires NewRevision(p)
    ensures NewRevision(Rebind(p, c, now, stop).0) || p.lifecycle == Reconfiguring
  {
    hide Port.Detach, DetachFails;
  }

  lemma ChangeIsNew(p: Controlled, c: PortConfig, now: Tick, stop: bool, again: bool)
    requires NewRevision(p) && c.revision != p.current.revision
    ensures NewRevision(Change(p, c, now, stop, again).0)
  {
    hide Port.Reconfigure, CanReconfigure, CoreConfig;
  }

  lemma CarefulCall(g: Gateway, c: Call, bindOk: string -> bool, now: Tick)
    requires AllFirstUse(g) && AllNew(g) && Careful(g, c, now)
    ensures Noticed(g, c, now) && AllNew(ApplyCall(g, c, bindOk, now).0)
  {
    hide StartPort, StepPort, ReconfigurePort, AwaitNetwork, AnswersFor, NewRevision, Refused, Acceptable, FirstUse;
    var h := ApplyCall(g, c, bindOk, now).0;
    forall k | 0 <= k < PORT_COUNT ensures NewRevision(h[k]) {
      match c {
        case StartAll => assert NewRevision(StartPort(g[k], now)) by { StartIsNew(g[k], now); }
        case StepAll(s) => StepIsNew(g[k], now, AnswersFor(s, k));
        case Reconfigure(i, config, stop, again) => if i == k { ReconfigureIsNew(g[k], config, now, stop, again); }
        case WaitForNetwork(i, wait, stop) => if i == k { AwaitIsNew(g[k], wait, now, stop); }
      }
    }
    if c.StepAll? {
      forall k | 0 <= k < PORT_COUNT ensures !Slips(g[k], now, AnswersFor(c.answers, k)) {
        FlagsOf(g[k]);
        NewIsNoticed(g[k], now, AnswersFor(c.answers, k));
      }
    }
  }

  lemma FlagsOf(p: Controlled)
    requires FirstUse(p)
    ensures FlagsOk(p)
  {
    hide InUse;
  }

  lemma NewIsNoticed(p: Controlled, now: Tick, a: Answers)
    requires NewRevision(p) && (p.lifecycle == RollingBack ==> !Refused(p.runtime, now, a.backend))
    requires p.rebind ==> AtWork(p.runtime.state)
    ensures !Slips(p, now, a)
  {
    hide CoreConfig, Expired;
  }

  lemma StartIsNew(p: Controlled, now: Tick)
    requires NewRevision(p)
    ensures NewRevision(StartPort(p, now))
  {
    hide Port.Start;
  }

  lemma AwaitIsNew(p: Controlled, wait: bool, now: Tick, stop: bool)
    requires NewRevision(p)
    ensures NewRevision(AwaitNetwork(p, wait, now, stop).0)
  {
    hide Port.Detach, DetachFails;
  }

  lemma {:induction false} CarefulRun(g: Gateway, cs: seq<(Call, Tick)>, bindOk: string -> bool)
    requires AllFirstUse(g) && AllNew(g) && AllCareful(g, cs, bindOk)
    ensures AllNoticed(g, cs, bindOk)
    decreases |cs|
  {
    hide FirstUse, NewRevision, ApplyCall, Noticed;
    if cs != [] {
      CarefulCall(g, cs[0].0, bindOk, cs[0].1);
      CallFirstUse(g, cs[0].0, bindOk, cs[0].1);
      CarefulRun(ApplyCall(g, cs[0].0, bindOk, cs[0].1).0, cs[1..], bindOk);
    }
    hide Refused;
  }

  /**
   * What a caller can see to: if every configuration comes with a revision other
   * than the port's own, and the serial side never refuses the configuration it is
   * rolled back to, a ready port runs what the controller reports.
   */
  lemma CarefulRunsItsConfig(cs: seq<PortConfig>, calls: seq<(Call, Tick)>, bindOk: string -> bool, k: nat)
    requires |cs| == PORT_COUNT && AllCareful(InitAll(cs, bindOk), calls, bindOk) && k < PORT_COUNT
    ensures var p := Run(InitAll(cs, bindOk), calls, bindOk)[k];
            p.lifecycle == Ready ==> p.runtime.current == CoreConfig(p.current)
  {
    InitAllFirst(cs, bindOk);
    CarefulRun(InitAll(cs, bindOk), calls, bindOk);
    ReadyRunsItsConfig(cs, calls, bindOk, k);
    hide Run, InitAll, AllNoticed, AllCareful, CoreConfig;
  }

  lemma InitAllFirst(cs: seq<PortConfig>, bindOk: string -> bool)
    requires |cs| == PORT_COUNT
    ensures AllFirstUse(InitAll(cs, bindOk)) && AllNew(InitAll(cs, bindOk))
  {
    InitAllInUse(cs, bindOk);
    hide InUse, Acceptable;
  }

  lemma InitStays(c: PortConfig, e: Error)
    ensures InStep(InitPort(c, e))
  {
    hide CoreConfig;
  }
}
