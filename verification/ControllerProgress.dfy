/**
 * That a reconfiguration of a port takes effect, in time that does not wrap: with
 * a serial side and a listener that do what they are asked, the port carries the
 * new configuration; where one refuses, it is back on the old one.
 */
module ControllerProgress {
  import opened Base
  import opened Deadline
  import opened GatewayController
  import Ports = PortProperties

  /** The port is in service with the configuration, over a serial side that has it. */
  ghost predicate Serves(p: Controlled, c: PortConfig) {
    && p.lifecycle == Ready && p.owned && p.current == c && p.knownGood == c
    && p.runtime.state == Port.Ready && p.runtime.current == CoreConfig(c)
  }

  /** The serial side is to change: what it is told, and until when it has to answer. */
  ghost predicate Told(r: Port.Port, was: Port.Config, core: Port.Config, at: nat) {
    && r.state == Port.Reconfiguring && r.active.None? && r.queue == [] && r.staged == core && r.current == was
    && r.knownGood == was && r.deadline == After(Tick32(at), TIMEOUT)
  }

  lemma ReconfigureTells(r: Port.Port, core: Port.Config, at: nat)
    requires Ports.Inv(r) && Port.Reconfigurable(r, core, TIMEOUT)
    ensures Told(Port.Reconfigure(r, core, Tick32(at), TIMEOUT), r.current, core, at)
    ensures Ports.Inv(Port.Reconfigure(r, core, Tick32(at), TIMEOUT))
  {
    Ports.DropAllKeeps(r);
    Ports.ReconfigureKeeps(r, core, Tick32(at), TIMEOUT);
    hide Port.DropAll, Ports.Inv, After, Tick32;
  }

  /** Its step while the time it has is not over. */
  lemma ToldStep(r: Port.Port, was: Port.Config, core: Port.Config, at: nat, now: nat, b: Port.Backend)
    requires Told(r, was, core, at) && at <= now < at + 1000
    ensures var n := Port.Step(r, Tick32(now), b);
      && (b.staged ==> n.state == Port.Ready && n.current == core)
      && (!b.staged && b.knownGood ==> n.state == Port.Ready && n.current == was)
      && (!b.staged && !b.knownGood ==> n.state == Port.Failed)
      && n.active.None? && n.queue == [] && n.staged == core
  {
    ExpiredIsPassed(at, TIMEOUT, now);
    hide Expired, After, Tick32;
  }

  // --------------------------------------------------- another serial set-up

  /** A port that can take a configuration for its serial side: what asking it to does. */
  lemma ChangeBegins(p: Controlled, c: PortConfig, at: nat, again: bool)
    requires Ports.Inv(p.runtime) && p.lifecycle == Ready && p.owned && !p.rebind && c.enabled != 0
    requires !OnlyRebinds(p, c) && CanReconfigure(p, c)
    ensures var (q, r) := ReconfigurePort(p, c, Tick32(at), true, again);
      && r == 0 && q.lifecycle == Reconfiguring && !q.owned && !q.rebind && q.staged == c && q.current == p.current
      && q.knownGood == p.knownGood && q.networkWait == p.networkWait
      && Told(q.runtime, p.runtime.current, CoreConfig(c), at) && Ports.Inv(q.runtime)
  {
    ReconfigureTells(p.runtime, CoreConfig(c), at);
    hide Port.Reconfigure, Port.Reconfigurable, Ports.Inv, Tick32, CoreConfig, Told, OnlyRebinds;
  }

  /** The port waits for its serial side to change. */
  ghost predicate Changing(q: Controlled, was: Port.Config, at: nat) {
    && q.lifecycle == Reconfiguring && !q.owned && !q.rebind && !q.networkWait
    && Told(q.runtime, was, CoreConfig(q.staged), at)
  }

  /** The serial side takes it in time, and the listener starts: the port serves with the new configuration. */
  lemma ChangeTakesEffect(q: Controlled, was: Port.Config, at: nat, now: nat, a: Answers)
    requires Changing(q, was, at) && at <= now < at + 1000 && a.backend.staged && a.start
    ensures var n := StepPort(q, Tick32(now), a);
            Serves(n, q.staged) && n.lastError == NoError && n.log == q.log + [Started(true)]
  {
    ToldStep(q.runtime, was, CoreConfig(q.staged), at, now, a.backend);
    hide Port.Step, Tick32, CoreConfig, Told, Port.Reconfigure;
    CoreRevision(q.staged);
  }

  lemma CoreRevision(c: PortConfig)
    ensures CoreConfig(c).revision == c.revision
  {
  }

  /** The serial side refuses it and goes back: the port serves as before, if the old revision is another. */
  lemma ChangeIsRefused(q: Controlled, was: Port.Config, at: nat, now: nat, a: Answers)
    requires Changing(q, was, at) && at <= now < at + 1000 && !a.backend.staged && a.backend.knownGood && a.start
    requires was == CoreConfig(q.current) && q.current == q.knownGood && q.current.revision != q.staged.revision
    ensures var n := StepPort(q, Tick32(now), a); Serves(n, q.current) && n.log == q.log + [Started(true)]
  {
    ToldStep(q.runtime, was, CoreConfig(q.staged), at, now, a.backend);
    CoreRevision(q.current);
    hide Port.Step, Tick32, CoreConfig, Told, Port.Reconfigure;
  }

  /** The serial side takes it and the listener does not start: the serial side is told to go back. */
  lemma ListenerRefuses(q: Controlled, was: Port.Config, at: nat, now: nat, a: Answers)
    requires Changing(q, was, at) && Ports.Inv(q.runtime) && at <= now < at + 1000 && a.backend.staged && !a.start
    requires Port.ConfigValid(CoreConfig(q.knownGood))
    ensures var n := StepPort(q, Tick32(now), a);
      && n.lifecycle == RollingBack && !n.owned && n.lastError == ListenerStart && !n.networkWait
      && n.current == q.current && n.knownGood == q.knownGood
      && Told(n.runtime, CoreConfig(q.staged), CoreConfig(q.knownGood), now)
  {
    ToldStep(q.runtime, was, CoreConfig(q.staged), at, now, a.backend);
    CoreRevision(q.staged);
    Ports.StepKeeps(q.runtime, Tick32(now), a.backend);
    var r := Port.Step(q.runtime, Tick32(now), a.backend);
    assert TIMEOUT != 0 && ValidInterval(TIMEOUT);
    assert Port.Reconfigurable(r, CoreConfig(q.knownGood), TIMEOUT);
    ReconfigureTells(r, CoreConfig(q.knownGood), now);
    hide Port.Step, Tick32, CoreConfig, Told, Port.Reconfigure, Port.ConfigValid, Ports.Inv;
  }

  /** It goes back in time, and the listener starts where it was: the port serves as before. */
  lemma GoesBack(q: Controlled, was: Port.Config, at: nat, now: nat, a: Answers)
    requires q.lifecycle == RollingBack && !q.owned && !q.networkWait && q.current == q.knownGood
    requires Told(q.runtime, was, CoreConfig(q.knownGood), at) && at <= now < at + 1000 && a.backend.staged && a.start
    ensures var n := StepPort(q, Tick32(now), a); Serves(n, q.current) && n.log == q.log + [Started(true)]
  {
    ToldStep(q.runtime, was, CoreConfig(q.knownGood), at, now, a.backend);
    hide Port.Step, Tick32, CoreConfig, Told, Port.Reconfigure;
  }

  // ------------------------------------------------------------- another address

  /** The port waits to start its listener at another address; its serial side has nothing under way. */
  ghost predicate Rebinding(q: Controlled) {
    && q.lifecycle == Reconfiguring && !q.owned && q.rebind && !q.networkWait
    && q.runtime.state == Port.Ready && q.runtime.queue == [] && q.runtime.current == CoreConfig(q.current)
  }

  /** Only the address changes: the listener is stopped, and the serial side is left as it is once it is idle. */
  lemma RebindBegins(p: Controlled, c: PortConfig, at: nat, again: bool)
    requires Ports.Inv(p.runtime) && Serves(p, p.current) && !p.networkWait && c.enabled != 0 && OnlyRebinds(p, c)
    requires p.runtime.active.None?
    ensures var (q, r) := ReconfigurePort(p, c, Tick32(at), true, again);
      r == 0 && Rebinding(q) && q.staged == c && q.current == p.current && q.log == p.log + [Stopped(true)]
  {
    Ports.FlushKeeps(p.runtime);
    hide Port.Flush, Ports.Inv, Tick32, CoreConfig, OnlyRebinds;
  }

  /** The listener starts at the new address, or else again at the old one. */
  lemma RebindTakesEffect(q: Controlled, now: Tick, a: Answers)
    requires Rebinding(q)
    ensures var n := StepPort(q, now, a);
      && (a.start && OnlyRebinds(q, q.staged) ==> Serves(n, q.staged) && n.log == q.log + [Started(true)])
      && (!a.start && a.again ==>
            n.lifecycle == Ready && n.owned && n.current == q.current && n.runtime.current == CoreConfig(q.current)
            && n.lastError == ListenerStart && n.log == q.log + [Started(false), Started(true)])
      && (!a.start && !a.again ==> n.lifecycle == Failed && !n.owned && n.lastError == ListenerStart)
  {
    assert Port.Step(q.runtime, now, a.backend) == q.runtime;
    hide Port.Step;
  }

  // ------------------------------------------------------------------ on and off

  /** A port that is off is to come up. */
  ghost predicate ComingUp(q: Controlled, at: nat) {
    && q.lifecycle == Starting && !q.owned && !q.networkWait && q.current == q.knownGood
    && q.runtime.state == Port.Starting && q.runtime.current == CoreConfig(q.current)
    && q.runtime.queue == [] && q.runtime.active.None? && q.runtime.deadline == After(Tick32(at), TIMEOUT)
  }

  /** Starting the controller brings up a port that is enabled and off, and no other. */
  lemma StartBegins(p: Controlled, at: nat)
    requires p.lifecycle == Disabled && p.runtime.state == Port.Disabled && !p.owned && !p.networkWait
    requires p.runtime.queue == [] && p.runtime.active.None? && p.current == p.knownGood
    requires p.runtime.current == CoreConfig(p.current)
    ensures if p.current.enabled != 0 then ComingUp(StartPort(p, Tick32(at)), at) else StartPort(p, Tick32(at)) == p
  {
    hide CoreConfig, Tick32, After;
  }

  /** A ready port that is to wait for the network stops its listener and drops what its runtime holds. */
  lemma WaitBegins(p: Controlled, now: Tick)
    requires Ports.Inv(p.runtime) && p.lifecycle == Ready && p.owned
    ensures var (q, r) := AwaitNetwork(p, true, now, true);
      && r == 0 && q.lifecycle == NetworkWait && q.networkWait && !q.owned && q.log == p.log + [Stopped(true)]
      && q.runtime.queue == [] && q.runtime.active.None? && q.current == p.current
    ensures var (q, r) := AwaitNetwork(p, true, now, false);
      r == -1 && q.owned && q.lifecycle == Ready && q.runtime == p.runtime
    ensures AwaitNetwork(p, false, now, false) == (p.(networkWait := false), 0)
  {
    Ports.DetachKeeps(p.runtime, now);
    DetachWorks(p.runtime);
    hide Port.Detach, Ports.Inv;
  }

  lemma DetachWorks(r: Port.Port)
    requires Ports.Inv(r)
    ensures !DetachFails(r)
  {
    hide Ports.Core;
  }

  /** Shutting down stops the listener and tells the serial side to stop, unless it is off or stopping. */
  lemma ShutBegins(p: Controlled, at: nat, stop: bool)
    requires Ports.Inv(p.runtime)
    ensures var q := ShutPort(p, Tick32(at), stop);
      && q.owned == (p.owned && !stop) && q.log == (if p.owned then p.log + [Stopped(stop)] else p.log)
      && (p.runtime.state != Port.Disabled && p.runtime.state != Port.Stopping ==>
            q.lifecycle == Stopping && q.runtime.state == Port.Stopping && q.runtime.queue == []
            && q.runtime.active.None? && q.runtime.deadline == After(Tick32(at), TIMEOUT))
      && (p.runtime.state == Port.Disabled || p.runtime.state == Port.Stopping ==>
            q.runtime == p.runtime && q.lifecycle == p.lifecycle)
  {
    Ports.DropAllKeeps(p.runtime);
    hide Port.DropAll, Ports.Inv, After, Tick32;
  }

  lemma EnableBegins(p: Controlled, c: PortConfig, at: nat, stop: bool, again: bool)
    requires p.lifecycle == Disabled && !p.owned && !p.networkWait && c.enabled != 0
    ensures var (q, r) := ReconfigurePort(p, c, Tick32(at), stop, again); r == 0 && ComingUp(q, at) && q.current == c
  {
    hide CoreConfig, Tick32, After;
  }

  /** It opens and its listener starts: the port serves. It does not open in time: its serial side recovers. */
  lemma ComesUp(q: Controlled, at: nat, now: nat, a: Answers)
    requires ComingUp(q, at) && at <= now < at + TIMEOUT + TWO31
    ensures var n := StepPort(q, Tick32(now), a);
      && (a.backend.open && a.start ==> Serves(n, q.current) && n.lastError == NoError)
      && (a.backend.open && !a.start ==> n.lifecycle == Stopping && !n.owned && n.lastError == ListenerStart)
      && (!a.backend.open && now < at + 1000 ==> ComingUp(n, at))
      && (!a.backend.open && now >= at + 1000 ==> n.lifecycle == Starting && n.runtime.state == Port.Recovering)
  {
    ExpiredIsPassed(at, TIMEOUT, now);
    hide Expired, After, Tick32, CoreConfig;
  }

  /** A serial side given up on stops its port: one that is coming up fails, one in service is degraded. */
  lemma GivenUp(q: Controlled, now: Tick, a: Answers)
    requires var r := StepRuntime(q, now, a); r.state == Port.Degraded || r.state == Port.Failed
    ensures var n := StepPort(q, now, a);
      && (q.lifecycle == Starting ==> n.lifecycle == Failed && n.lastError == BackendStart)
      && (q.lifecycle == Ready ==> n.lifecycle == Degraded)
      && (q.lifecycle == Reconfiguring && q.rebind ==> n.lifecycle == Failed && n.lastError == ReconfigureFailed)
  {
    hide StepRuntime;
  }

  /** A port that is to go off, with the configuration that says so. */
  ghost predicate GoingOff(q: Controlled, c: PortConfig, at: nat) {
    && q.lifecycle == Stopping && !q.owned && q.pendingDisable && q.staged == c
    && q.runtime.state == Port.Stopping && q.runtime.queue == [] && q.runtime.active.None?
    && q.runtime.deadline == After(Tick32(at), TIMEOUT)
  }

  lemma DisableBegins(p: Controlled, c: PortConfig, at: nat, again: bool)
    requires Ports.Inv(p.runtime) && p.lifecycle == Ready && p.owned && c.enabled == 0
    requires p.runtime.state != Port.Disabled && p.runtime.state != Port.Stopping
    ensures var (q, r) := ReconfigurePort(p, c, Tick32(at), true, again);
      r == 0 && GoingOff(q, c, at) && q.log == p.log + [Stopped(true)]
  {
    Ports.DropAllKeeps(p.runtime);
    hide Port.DropAll, Ports.Inv, After, Tick32;
  }

  /** Once its serial side has stopped the port is off with that configuration; if that takes too long it has failed. */
  lemma GoesOff(q: Controlled, c: PortConfig, at: nat, now: nat, a: Answers)
    requires GoingOff(q, c, at) && at <= now < at + TIMEOUT + TWO31
    ensures var n := StepPort(q, Tick32(now), a);
      && (a.backend.stop ==>
            n.lifecycle == Disabled && !n.owned && n.current == c && n.knownGood == c && !n.pendingDisable
            && n.runtime.state == Port.Disabled)
      && (!a.backend.stop && now < at + 1000 ==> GoingOff(n, c, at))
      && (!a.backend.stop && now >= at + 1000 ==> n.lifecycle == Failed && n.lastError == StopFailed)
  {
    ExpiredIsPassed(at, TIMEOUT, now);
    hide Expired, After, Tick32, CoreConfig;
  }
}
