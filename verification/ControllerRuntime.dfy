/**
 * The controller as the program keeps it: eight port records, each over its port
 * runtime, updated in place, and the validation loops over a whole configuration.
 */
module ControllerRuntime {
  import opened Base
  import opened Deadline
  import Port = PortModel
  import Runtime = PortRuntime
  import Ports = PortProperties
  import opened GatewayController

  class PortController {
    const unit: Runtime.PortRuntime
    var current: PortConfig
    var staged: PortConfig
    var knownGood: PortConfig
    var lifecycle: Lifecycle
    var lastError: Error
    var owned: bool
    var pendingDisable: bool
    var rebind: bool
    var networkWait: bool
    /** Record for the proofs. */
    var log: seq<ListenerOp>

    /** What a port's record and its runtime are made of. */
    ghost const Repr: set<object>

    ghost predicate Valid()
      reads Repr
    {
      Repr == {this, unit, unit.queue, unit.queue.entries} && unit.Valid()
    }

    ghost function Abs(): Controlled
      requires Valid()
      reads Repr
    {
      Controlled(current, staged, knownGood, unit.Abs(), lifecycle, lastError, owned, pendingDisable, rebind,
                 networkWait, log)
    }

    /** A port as `gateway_controller_init` leaves it. */
    constructor (c: PortConfig, e: Error, blank: Port.Txn)
      ensures Valid() && Abs() == InitPort(c, e)
      ensures fresh(Repr)
    {
      var u := new Runtime.PortRuntime(CoreConfig(c), blank);
      unit := u;
      current, staged, knownGood := c, NO_CONFIG, c;
      lifecycle, lastError := if e == NoError then Disabled else Failed, e;
      owned, pendingDisable, rebind, networkWait, log := false, false, false, false, [];
      Repr := {this, u, u.queue, u.queue.entries};
    }

    /** `transport_start_at`; `ok` is the listener's answer. */
    method StartListenerAt(ok: bool)
      requires Valid()
      modifies this`owned, this`log
      ensures Valid()
      ensures Abs() == StartAt(old(Abs()), ok)
    {
      log := log + [Started(ok)];
      if ok {
        owned := true;
      }
    }

    /** `transport_stop`. */
    method StopOwned(ok: bool) returns (stopped: bool)
      requires Valid()
      modifies this`owned, this`log
      ensures Valid()
      ensures Abs() == StopListener(old(Abs()), ok) && (stopped <==> !old(owned) || ok)
    {
      if !owned {
        return true;
      }
      log := log + [Stopped(ok)];
      owned := !ok;
      stopped := ok;
    }

    method Enter(l: Lifecycle, e: Error)
      requires Valid()
      modifies this`lifecycle, this`lastError
      ensures Valid()
      ensures Abs() == old(Abs()).(lifecycle := l, lastError := e)
    {
      lifecycle, lastError := l, e;
    }

    method AdoptStaged()
      requires Valid()
      modifies this`current, this`knownGood
      ensures Valid()
      ensures Abs() == Adopt(old(Abs()))
    {
      current, knownGood := staged, staged;
    }

    /** One port of `gateway_controller_start`. */
    method StartRecord(now: Tick)
      requires Valid()
      modifies this, unit, unit.queue, unit.queue.entries
      ensures Valid()
      ensures Abs() == StartPort(old(Abs()), now)
    {
      hide Port.Start;
      if lifecycle != Disabled || current.enabled == 0 {
        return;
      }
      var started := unit.StartPort(now, TIMEOUT);
      if started {
        lifecycle := Starting;
      } else {
        Enter(Failed, BackendStart);
      }
    }

    /** `start_listener_or_fail`. */
    method StartListenerOrFail(now: Tick, ok: bool)
      requires Valid()
      modifies this, unit, unit.queue, unit.queue.entries
      ensures Valid()
      ensures Abs() == StartListener(old(Abs()), now, ok)
    {
      hide Port.Stop, Port.Stoppable;
      if networkWait {
        lifecycle := NetworkWait;
        return;
      }
      StartListenerAt(ok);
      if ok {
        Enter(Ready, NoError);
        return;
      }
      var stopping := unit.RequestStop(now, TIMEOUT);
      Enter(if stopping then Stopping else Failed, ListenerStart);
    }

    /** The step of a listener that moves to another address. */
    method StepRebinding(a: Answers)
      requires Valid()
      modifies this, unit, unit.queue, unit.queue.entries
      ensures Valid()
      ensures Abs() == StepRebind(old(Abs()), a)
    {
      hide AdoptRevision;
      if unit.state == Port.Ready {
        rebind := false;
        if networkWait {
          lifecycle := NetworkWait;
        } else {
          FinishRebind(a);
        }
      } else if unit.state == Port.Failed || unit.state == Port.Degraded {
        rebind := false;
        Enter(Failed, ReconfigureFailed);
      }
    }

    /** The runtime's configurations get another revision. */
    method SetRevision(revision: Word)
      requires Valid()
      modifies unit`current, unit`knownGood
      ensures Valid() && Abs() == old(Abs()).(runtime := AdoptRevision(old(Abs()).runtime, revision))
    {
      unit.current, unit.knownGood := unit.current.(revision := revision), unit.knownGood.(revision := revision);
    }

    method FinishRebind(a: Answers)
      requires Valid()
      modifies this, unit, unit.queue, unit.queue.entries
      ensures Valid()
      ensures var q := old(Abs());
        Abs() == if a.start then
                   Adopt(StartAt(q, true)).(runtime := AdoptRevision(q.runtime, q.staged.revision),
                                            lifecycle := Ready, lastError := NoError)
                 else
                   StartAt(StartAt(q, false), a.again).(lastError := ListenerStart,
                                                        lifecycle := if a.again then Ready else Failed)
    {
      hide AdoptRevision;
      StartListenerAt(a.start);
      if a.start {
        AdoptStaged();
        SetRevision(staged.revision);
        Enter(Ready, NoError);
      } else {
        StartListenerAt(a.again);
        Enter(if a.again then Ready else Failed, ListenerStart);
      }
    }

    method StepReconfigured(now: Tick, ok: bool)
      requires Valid()
      modifies this, unit, unit.queue, unit.queue.entries
      ensures Valid()
      ensures Abs() == Reconfigured(old(Abs()), now, ok)
    {
      hide StartListener, Port.Reconfigure, Port.Reconfigurable, CoreConfig;
      if unit.current.revision != staged.revision {
        lastError := ReconfigureFailed;
        StartListenerOrFail(now, ok);
      } else if networkWait {
        AdoptStaged();
        Enter(NetworkWait, NoError);
      } else {
        StartListenerAt(ok);
        if ok {
          AdoptStaged();
          Enter(Ready, NoError);
        } else {
          RollBack(now);
        }
      }
    }

    /** The new listener would not start: the serial side goes back to the configuration known to be good. */
    method RollBack(now: Tick)
      requires Valid()
      modifies this, unit, unit.queue, unit.queue.entries
      ensures Valid()
      ensures var p := old(Abs());
              Abs() == Resettle(p.(lastError := ListenerStart), p.knownGood, now)
                       .(lifecycle := if CanReconfigure(p, p.knownGood) then RollingBack else Failed)
    {
      hide Port.Reconfigure, Port.Reconfigurable, CoreConfig;
      var able := unit.RequestReconfigure(CoreConfig(knownGood), now, TIMEOUT);
      Enter(if able then RollingBack else Failed, ListenerStart);
    }

    method StepLifecycleRecord(now: Tick, a: Answers)
      requires Valid()
      modifies this, unit, unit.queue, unit.queue.entries
      ensures Valid()
      ensures Abs() == StepLifecycle(old(Abs()), now, a)
    {
      hide StartListener, StepReconfiguring, StepRollingBack, StepStopping;
      match lifecycle {
        case Starting =>
          if unit.state == Port.Ready {
            StartListenerOrFail(now, a.start);
          } else if unit.state == Port.Degraded || unit.state == Port.Failed {
            Enter(Failed, BackendStart);
          }
        case Ready =>
          if unit.state == Port.Degraded || unit.state == Port.Failed {
            lifecycle := Degraded;
          }
        case Reconfiguring => StepReconfiguringRecord(now, a);
        case RollingBack => StepRollback(a);
        case Stopping => StepStop();
        case _ =>
      }
    }

    method StepReconfiguringRecord(now: Tick, a: Answers)
      requires Valid()
      modifies this, unit, unit.queue, unit.queue.entries
      ensures Valid()
      ensures Abs() == StepReconfiguring(old(Abs()), now, a)
    {
      hide StepRebind, Reconfigured;
      if rebind {
        StepRebinding(a);
      } else if unit.state == Port.Ready {
        StepReconfigured(now, a.start);
      } else if unit.state == Port.Failed {
        Enter(Failed, RollbackFailed);
      }
    }

    method StepRollback(a: Answers)
      requires Valid()
      modifies this, unit, unit.queue, unit.queue.entries
      ensures Valid()
      ensures Abs() == StepRollingBack(old(Abs()), a)
    {
      if unit.state == Port.Ready {
        if networkWait {
          lifecycle := NetworkWait;
        } else {
          StartListenerAt(a.start);
          lifecycle := if a.start then Ready else Failed;
        }
      } else if unit.state == Port.Failed {
        lifecycle := Failed;
      }
    }

    method StepStop()
      requires Valid()
      modifies this, unit, unit.queue, unit.queue.entries
      ensures Valid()
      ensures Abs() == StepStopping(old(Abs()))
    {
      if unit.state == Port.Disabled {
        if pendingDisable {
          AdoptStaged();
          lifecycle := Disabled;
        } else {
          lifecycle := if lastError == NoError then Disabled else Failed;
        }
        pendingDisable := false;
      } else if unit.state == Port.Failed {
        Enter(Failed, StopFailed);
      }
    }

    /** The listener's turn: it makes calls of the runtime. */
    method ListenerTurn(calls: seq<Ports.Call>, now: Tick)
      requires Valid()
      modifies unit, unit.queue, unit.queue.entries
      ensures Valid() && Abs() == old(Abs()).(runtime := Listen(old(Abs()).runtime, calls, now))
    {
      hide Ports.Apply;
      ghost var goal := Listen(unit.Abs(), calls, now);
      for i := 0 to |calls|
        invariant Valid() && Listen(unit.Abs(), calls[i..], now) == goal
      {
        if Permitted(calls[i]) {
          unit.Perform(calls[i], now);
        }
        assert calls[i..][1..] == calls[i + 1..];
      }
    }

    /** `step_port`. */
    method StepRecord(now: Tick, a: Answers)
      requires Valid()
      modifies this, unit, unit.queue, unit.queue.entries
      ensures Valid()
      ensures Abs() == StepPort(old(Abs()), now, a)
    {
      hide StepLifecycle, Listen, Port.Step;
      if owned {
        ListenerTurn(a.calls, now);
      }
      unit.StepPort(now, a.backend);
      StepLifecycleRecord(now, a);
    }

    /** `gateway_controller_reconfigure` for this port, the whole configuration having been found acceptable. */
    method ReconfigureRecord(c: PortConfig, now: Tick, stop: bool, again: bool) returns (r: int)
      requires Valid()
      modifies this, unit, unit.queue, unit.queue.entries
      ensures Valid()
      ensures (Abs(), r) == ReconfigurePort(old(Abs()), c, now, stop, again)
    {
      hide Disable, Enable, Rebind, Change;
      if lifecycle != Ready && lifecycle != Disabled && lifecycle != NetworkWait {
        return -1;
      }
      if c.enabled == 0 {
        r := DisableRecord(c, now, stop);
      } else if lifecycle == Disabled {
        r := EnableRecord(c, now);
      } else if c.(bind := current.bind, revision := current.revision, bindPolicy := current.bindPolicy) == current {
        r := RebindRecord(c, now, stop);
      } else {
        r := ChangeRecord(c, now, stop, again);
      }
    }

    method DisableRecord(c: PortConfig, now: Tick, stop: bool) returns (r: int)
      requires Valid()
      modifies this, unit, unit.queue, unit.queue.entries
      ensures Valid()
      ensures (Abs(), r) == Disable(old(Abs()), c, now, stop)
    {
      hide Port.Stop, Port.Stoppable;
      if lifecycle == Disabled {
        current := c;
        return 0;
      }
      var stopped := StopOwned(stop);
      if !stopped {
        lastError := StopFailed;
        return -1;
      }
      r := BeginDisable(c, now);
    }

    method BeginDisable(c: PortConfig, now: Tick) returns (r: int)
      requires Valid()
      modifies this, unit, unit.queue, unit.queue.entries
      ensures Valid()
      ensures var q := old(Abs());
              var s := RequestStop(q.(staged := c, pendingDisable := true, lastError := NoError), now);
              (Abs(), r) == if Port.Stoppable(q.runtime, TIMEOUT) then (s.(lifecycle := Stopping), 0) else (s, -1)
    {
      hide Port.Stop, Port.Stoppable;
      staged, pendingDisable, lastError := c, true, NoError;
      var stopping := unit.RequestStop(now, TIMEOUT);
      if !stopping {
        return -1;
      }
      lifecycle := Stopping;
      r := 0;
    }

    method EnableRecord(c: PortConfig, now: Tick) returns (r: int)
      requires Valid()
      modifies this, unit, unit.queue, unit.queue.entries
      ensures Valid()
      ensures (Abs(), r) == Enable(old(Abs()), c, now)
    {
      hide Port.Start, CoreConfig;
      current, knownGood := c, c;
      var started := StartAfresh(CoreConfig(c), now);
      if !started {
        return -1;
      }
      lifecycle := Starting;
      r := 0;
    }

    /** The runtime is initialised anew and started. */
    method StartAfresh(c: Port.Config, now: Tick) returns (ok: bool)
      requires Valid()
      modifies unit, unit.queue, unit.queue.entries
      ensures Valid() && ok
      ensures Abs() == old(Abs()).(runtime := Port.Start(Port.Init(c), now, TIMEOUT))
    {
      hide Port.Start;
      unit.Reset(c);
      ok := unit.StartPort(now, TIMEOUT);
    }

    method RebindRecord(c: PortConfig, now: Tick, stop: bool) returns (r: int)
      requires Valid()
      modifies this, unit, unit.queue, unit.queue.entries
      ensures Valid()
      ensures (Abs(), r) == Rebind(old(Abs()), c, now, stop)
    {
      hide Port.Detach;
      var stopped := StopOwned(stop);
      if !stopped {
        lastError := StopFailed;
        return -1;
      }
      var detached := unit.DetachListener(now);
      if !detached {
        lifecycle := Failed;
        return -1;
      }
      staged, rebind, lifecycle := c, true, Reconfiguring;
      r := 0;
    }

    method ChangeRecord(c: PortConfig, now: Tick, stop: bool, again: bool) returns (r: int)
      requires Valid()
      modifies this, unit, unit.queue, unit.queue.entries
      ensures Valid()
      ensures (Abs(), r) == Change(old(Abs()), c, now, stop, again)
    {
      hide Port.Reconfigure, Port.Reconfigurable, CoreConfig;
      var stopped := StopOwned(stop);
      if !stopped {
        lastError := StopFailed;
        return -1;
      }
      r := BeginChange(c, now, again);
    }

    /** The listener has stopped: the serial side is asked to change. */
    method BeginChange(c: PortConfig, now: Tick, again: bool) returns (r: int)
      requires Valid()
      modifies this, unit, unit.queue, unit.queue.entries
      ensures Valid()
      ensures var q := old(Abs());
              var s := Resettle(q.(staged := c, lastError := NoError), c, now);
              (Abs(), r) == if CanReconfigure(q, c) then (s.(lifecycle := Reconfiguring), 0)
                            else (StartAt(s, again), -1)
    {
      hide Port.Reconfigure, Port.Reconfigurable, CoreConfig;
      staged, lastError := c, NoError;
      var able := unit.RequestReconfigure(CoreConfig(c), now, TIMEOUT);
      if !able {
        StartListenerAt(again);
        return -1;
      }
      lifecycle := Reconfiguring;
      r := 0;
    }

    /** `gateway_controller_network_wait`. */
    method AwaitRecord(wait: bool, now: Tick, stop: bool) returns (r: int)
      requires Valid()
      modifies this, unit, unit.queue, unit.queue.entries
      ensures Valid()
      ensures (Abs(), r) == AwaitNetwork(old(Abs()), wait, now, stop)
    {
      hide Port.Detach;
      networkWait := wait;
      if !wait || lifecycle != Ready {
        return 0;
      }
      var stopped := StopOwned(stop);
      if !stopped {
        return -1;
      }
      var detached := unit.DetachListener(now);
      if !detached {
        return -1;
      }
      lifecycle := NetworkWait;
      r := 0;
    }

    /** One port of `gateway_controller_shutdown`. */
    method ShutRecord(now: Tick, stop: bool)
      requires Valid()
      modifies this, unit, unit.queue, unit.queue.entries
      ensures Valid()
      ensures Abs() == ShutPort(old(Abs()), now, stop)
    {
      hide Port.Stop, Port.Stoppable;
      var stopped := StopOwned(stop);
      lastError := if stopped then NoError else StopFailed;
      if unit.state != Port.Disabled && unit.state != Port.Stopping {
        var stopping := unit.RequestStop(now, TIMEOUT);
        Enter(if stopping then Stopping else Failed, if stopping then lastError else StopFailed);
      }
    }
  }

  /** The eight ports. Their footprints are disjoint for good. */
  class Controller {
    const ports: seq<PortController>
    /** The port the next step begins with. */
    var next: nat

    ghost const Repr: set<object>

    ghost predicate Valid()
      reads Repr
    {
      && this in Repr && |ports| == PORT_COUNT && next < PORT_COUNT
      && (forall i | 0 <= i < PORT_COUNT :: ports[i].Repr <= Repr && this !in ports[i].Repr && ports[i].Valid())
      && forall i, j | 0 <= i < PORT_COUNT && 0 <= j < PORT_COUNT && i != j :: ports[i].Repr !! ports[j].Repr
    }

    ghost function Abs(): Gateway
      requires Valid()
      reads Repr
    {
      seq(PORT_COUNT, i requires 0 <= i < PORT_COUNT && Valid() reads Repr => ports[i].Abs())
    }

    /** `gateway_controller_init`. */
    constructor (cs: seq<PortConfig>, bindOk: string -> bool, blank: Port.Txn)
      requires |cs| == PORT_COUNT
      ensures Valid() && Abs() == InitAll(cs, bindOk) && fresh(Repr)
    {
      hide PortController.Valid, PortController.Abs, Verdict, InitPort;
      var errors, _ := ValidateAll(cs, bindOk);
      var ps: seq<PortController> := [];
      ghost var all: set<object> := {};
      for i := 0 to PORT_COUNT
        invariant |ps| == i && fresh(all) && errors.Length == PORT_COUNT && fresh(errors)
        invariant forall k | 0 <= k < i :: ps[k].Valid() && ps[k].Repr <= all
        invariant forall k, j | 0 <= k < i && 0 <= j < i && k != j :: ps[k].Repr !! ps[j].Repr
        invariant forall k | 0 <= k < i :: ps[k].Abs() == InitPort(cs[k], Verdict(cs, k, PORT_COUNT, bindOk))
        invariant forall k | 0 <= k < PORT_COUNT :: errors[k] == Verdict(cs, k, PORT_COUNT, bindOk)
      {
        var p := new PortController(cs[i], errors[i], blank);
        assert p.Repr !! all;
        all := all + p.Repr;
        ps := ps + [p];
      }
      ports, next, Repr := ps, 0, all + {this};
    }

    /** One port has had a turn: the others are as they were. */
    twostate lemma Turn(i: nat)
      requires i < PORT_COUNT && old(Valid()) && ports[i].Valid()
      requires forall o: object | o in Repr && o !in ports[i].Repr :: unchanged(o)
      ensures Valid() && Abs() == old(Abs())[i := ports[i].Abs()]
    {
      hide PortController.Valid, PortController.Abs;
      forall k | 0 <= k < PORT_COUNT && k != i
        ensures ports[k].Valid() && ports[k].Abs() == old(ports[k].Abs())
      {
        assert forall o: object | o in ports[k].Repr :: o in Repr && o !in ports[i].Repr;
      }
    }

    method StartOne(i: nat, now: Tick)
      requires Valid() && i < PORT_COUNT
      modifies ports[i].Repr
      ensures Valid() && Abs() == old(Abs())[i := StartPort(old(Abs())[i], now)]
    {
      hide StartPort, PortController.Abs;
      ports[i].StartRecord(now);
      Turn(i);
    }

    method StepOne(i: nat, a: Answers, now: Tick)
      requires Valid() && i < PORT_COUNT
      modifies ports[i].Repr
      ensures Valid() && Abs() == old(Abs())[i := StepPort(old(Abs())[i], now, a)]
    {
      hide StepPort, PortController.Abs;
      ports[i].StepRecord(now, a);
      Turn(i);
    }

    method ShutOne(i: nat, stop: bool, now: Tick)
      requires Valid() && i < PORT_COUNT
      modifies ports[i].Repr
      ensures Valid() && Abs() == old(Abs())[i := ShutPort(old(Abs())[i], now, stop)]
    {
      hide ShutPort, PortController.Abs;
      ports[i].ShutRecord(now, stop);
      Turn(i);
    }

    lemma PortCount()
      requires Valid()
      ensures |ports| == PORT_COUNT && next < PORT_COUNT && this in Repr
      ensures forall i | 0 <= i < PORT_COUNT :: ports[i].Repr <= Repr && this !in ports[i].Repr
    {
    }

    /** `gateway_controller_start`. */
    method StartPorts(bindOk: string -> bool, now: Tick)
      requires Valid()
      modifies Repr
      ensures Valid() && Abs() == ApplyCall(old(Abs()), StartAll, bindOk, now).0
    {
      hide StartPort, Controller.Abs, Controller.Valid;
      PortCount();
      ghost var g := Abs();
      for i := 0 to PORT_COUNT
        invariant Valid()
        invariant forall k | 0 <= k < PORT_COUNT :: Abs()[k] == if k < i then StartPort(g[k], now) else g[k]
      {
        StartOne(i, now);
      }
    }

    /** `gateway_controller_step`. */
    method StepPorts(answers: seq<Answers>, bindOk: string -> bool, now: Tick)
      requires Valid()
      modifies Repr
      ensures Valid() && Abs() == ApplyCall(old(Abs()), StepAll(answers), bindOk, now).0
    {
      hide StepPort, Controller.Abs, Controller.Valid;
      PortCount();
      ghost var g := Abs();
      for n := 0 to PORT_COUNT
        invariant Valid() && next < PORT_COUNT
        invariant forall k | 0 <= k < PORT_COUNT ::
          Abs()[k] == if Turns(next, k) < n then StepPort(g[k], now, AnswersFor(answers, k)) else g[k]
      {
        var i := (next + n) % PORT_COUNT;
        assert Turns(next, i) == n && forall k | 0 <= k < PORT_COUNT && k != i :: Turns(next, k) != n;
        StepOne(i, AnswersFor(answers, i), now);
      }
      Rotate();
    }

    /** The next step begins one port further on. */
    method Rotate()
      requires Valid()
      modifies this`next
      ensures Valid() && Abs() == old(Abs())
    {
      hide PortController.Valid, PortController.Abs;
      next := (next + 1) % PORT_COUNT;
    }

    /** `gateway_controller_shutdown`. */
    method ShutPorts(stops: seq<bool>, bindOk: string -> bool, now: Tick)
      requires Valid()
      modifies Repr
      ensures Valid() && Abs() == ApplyCall(old(Abs()), Shutdown(stops), bindOk, now).0
    {
      hide ShutPort, Controller.Abs, Controller.Valid;
      PortCount();
      ghost var g := Abs();
      for i := 0 to PORT_COUNT
        invariant Valid()
        invariant forall k | 0 <= k < PORT_COUNT ::
          Abs()[k] == if k < i then ShutPort(g[k], now, k < |stops| && stops[k]) else g[k]
      {
        ShutOne(i, i < |stops| && stops[i], now);
      }
    }

    /** The configuration a port carries. */
    method Current(i: nat) returns (c: PortConfig)
      requires Valid() && i < PORT_COUNT
      ensures c == Abs()[i].current
    {
      c := ports[i].current;
    }

    /** `validate_replacement`. */
    method AcceptableHere(index: nat, c: PortConfig, bindOk: string -> bool) returns (ok: bool)
      requires Valid() && index < PORT_COUNT
      ensures ok <==> Acceptable(Replacement(Abs(), index, c), index, bindOk)
    {
      hide Acceptable, Controller.Abs, Controller.Valid, Verdict;
      var all: seq<PortConfig> := [];
      for i := 0 to PORT_COUNT
        invariant |all| == i && forall k | 0 <= k < i :: all[k] == Abs()[k].current
      {
        var p := Current(i);
        all := all + [p];
      }
      all := all[index := c];
      assert all == Replacement(Abs(), index, c);
      var errors, _ := ValidateAll(all, bindOk);
      ok := errors[index] == NoError;
    }

    /** `gateway_controller_reconfigure`. */
    method ReconfigureAt(index: nat, c: PortConfig, stop: bool, again: bool, bindOk: string -> bool, now: Tick)
      returns (r: int)
      requires Valid()
      modifies Repr
      ensures Valid()
      ensures (Abs(), r) == ApplyCall(old(Abs()), Reconfigure(index, c, stop, again), bindOk, now)
    {
      hide Acceptable, ReconfigurePort, Replacement, PortController.Abs;
      if index >= PORT_COUNT {
        return -1;
      }
      var ok := AcceptableHere(index, c, bindOk);
      if !ok {
        return -1;
      }
      r := ports[index].ReconfigureRecord(c, now, stop, again);
      Turn(index);
    }

    /** `gateway_controller_network_wait`. */
    method AwaitAt(index: nat, wait: bool, stop: bool, bindOk: string -> bool, now: Tick) returns (r: int)
      requires Valid()
      modifies Repr
      ensures Valid()
      ensures (Abs(), r) == ApplyCall(old(Abs()), WaitForNetwork(index, wait, stop), bindOk, now)
    {
      hide AwaitNetwork, PortController.Abs;
      if index >= PORT_COUNT {
        return -1;
      }
      r := ports[index].AwaitRecord(wait, now, stop);
      Turn(index);
    }
  }

  /** How many ports have their turn before port `k` in a step that begins with port `next`. */
  function Turns(next: nat, k: nat): int {
    if k >= next then k - next else k + PORT_COUNT - next
  }

  /** How far port `k` has been compared when the loops have come to row `i`, column `j`. */
  function Compared(k: nat, i: nat, j: nat): nat {
    if k < i then PORT_COUNT else if k == i then j else if k < j then i + 1 else i
  }

  /**
   * `gateway_configuration_validate`: every port gets the error of its last clash,
   * else its own; it is left without one exactly when it is acceptable.
   */
  method ValidateAll(ports: seq<PortConfig>, bindOk: string -> bool) returns (errors: array<Error>, failures: nat)
    requires |ports| == PORT_COUNT
    ensures errors.Length == PORT_COUNT && fresh(errors)
    ensures forall k | 0 <= k < PORT_COUNT :: errors[k] == Verdict(ports, k, PORT_COUNT, bindOk)
    ensures forall k | 0 <= k < PORT_COUNT :: errors[k] == NoError <==> Acceptable(ports, k, bindOk)
    ensures failures == |Failing(ports, PORT_COUNT, bindOk)|
  {
    hide ValidateOne, Clash, Verdict, Acceptable;
    errors := new Error[PORT_COUNT](i => NoError);
    for i := 0 to PORT_COUNT
      invariant forall k | 0 <= k < i :: errors[k] == Verdict(ports, k, 0, bindOk)
    {
      errors[i] := ValidateOne(ports[i], bindOk);
      AloneVerdict(ports, i, bindOk);
    }
    ComparePairs(errors, ports, bindOk);
    forall k | 0 <= k < PORT_COUNT ensures errors[k] == NoError <==> Acceptable(ports, k, bindOk) {
      VerdictIsAcceptance(ports, k, bindOk);
    }
    failures := CountFailures(errors, ports, bindOk);
  }

  /** The ports below `n` that are not acceptable. */
  ghost function Failing(ports: seq<PortConfig>, n: nat, bindOk: string -> bool): set<int>
    requires n <= |ports|
  {
    set k | 0 <= k < n && !Acceptable(ports, k, bindOk)
  }

  lemma FailingNext(ports: seq<PortConfig>, n: nat, bindOk: string -> bool)
    requires n < |ports|
    ensures |Failing(ports, n + 1, bindOk)|
            == |Failing(ports, n, bindOk)| + if Acceptable(ports, n, bindOk) then 0 else 1
  {
    hide Acceptable;
    var f := Failing(ports, n, bindOk);
    assert Failing(ports, n + 1, bindOk) == if Acceptable(ports, n, bindOk) then f else f + {n};
    assert n !in f;
  }

  method CountFailures(errors: array<Error>, ports: seq<PortConfig>, bindOk: string -> bool) returns (failures: nat)
    requires |ports| == errors.Length == PORT_COUNT
    requires forall k | 0 <= k < PORT_COUNT :: errors[k] == NoError <==> Acceptable(ports, k, bindOk)
    ensures failures == |Failing(ports, PORT_COUNT, bindOk)|
  {
    hide Acceptable, Failing;
    failures := 0;
    NoneFailing(ports, bindOk);
    for i := 0 to PORT_COUNT
      invariant failures == |Failing(ports, i, bindOk)|
    {
      FailingNext(ports, i, bindOk);
      if errors[i] != NoError {
        failures := failures + 1;
      }
    }
  }

  lemma NoneFailing(ports: seq<PortConfig>, bindOk: string -> bool)
    ensures Failing(ports, 0, bindOk) == {}
  {
  }

  /** The nested loops over all pairs. */
  method ComparePairs(errors: array<Error>, ports: seq<PortConfig>, bindOk: string -> bool)
    requires |ports| == errors.Length == PORT_COUNT
    requires forall k | 0 <= k < PORT_COUNT :: errors[k] == Verdict(ports, k, 0, bindOk)
    modifies errors
    ensures forall k | 0 <= k < PORT_COUNT :: errors[k] == Verdict(ports, k, PORT_COUNT, bindOk)
  {
    hide Verdict, Clash, SameEndpoint;
    for i := 0 to PORT_COUNT
      invariant forall k | 0 <= k < PORT_COUNT ::
                  errors[k] == Verdict(ports, k, if k < i then PORT_COUNT else i, bindOk)
    {
      SelfVerdict(ports, i, bindOk);
      for j := i + 1 to PORT_COUNT
        invariant forall k | 0 <= k < PORT_COUNT :: errors[k] == Verdict(ports, k, Compared(k, i, j), bindOk)
      {
        Mark(errors, ports, i, j, bindOk);
      }
    }
  }

  lemma AloneVerdict(ports: seq<PortConfig>, k: nat, bindOk: string -> bool)
    requires k < |ports|
    ensures Verdict(ports, k, 0, bindOk) == ValidateOne(ports[k], bindOk)
  {
    hide ValidateOne;
  }

  lemma SelfVerdict(ports: seq<PortConfig>, k: nat, bindOk: string -> bool)
    requires k < |ports|
    ensures Verdict(ports, k, k + 1, bindOk) == Verdict(ports, k, k, bindOk)
  {
    hide ValidateOne, Clash;
  }

  /** Comparing port `k` with port `j` as well. */
  lemma NextVerdict(ports: seq<PortConfig>, k: nat, j: nat, bindOk: string -> bool)
    requires k < |ports| && j < |ports| && k != j
    ensures Verdict(ports, k, j + 1, bindOk) ==
            if !Clash(ports[k], ports[j]) then Verdict(ports, k, j, bindOk)
            else if SameEndpoint(ports[k], ports[j]) then DuplicateEndpoint else DuplicateUart
  {
    hide ValidateOne, Clash, SameEndpoint;
  }

  /** The inner body of the loops: both ports of a clashing pair get an error. */
  method Mark(errors: array<Error>, ports: seq<PortConfig>, i: nat, j: nat, bindOk: string -> bool)
    requires errors.Length == |ports| && i < j < |ports|
    requires errors[i] == Verdict(ports, i, j, bindOk) && errors[j] == Verdict(ports, j, i, bindOk)
    modifies errors
    ensures errors[i] == Verdict(ports, i, j + 1, bindOk) && errors[j] == Verdict(ports, j, i + 1, bindOk)
    ensures forall k | 0 <= k < |ports| && k != i && k != j :: errors[k] == old(errors[k])
  {
    hide Verdict;
    NextVerdict(ports, i, j, bindOk);
    NextVerdict(ports, j, i, bindOk);
    if ports[i].enabled != 0 && ports[j].enabled != 0 {
      if ports[i].uart == ports[j].uart {
        errors[i], errors[j] := DuplicateUart, DuplicateUart;
      }
      if SameEndpoint(ports[i], ports[j]) {
        errors[i], errors[j] := DuplicateEndpoint, DuplicateEndpoint;
      }
    }
  }
}
