/**
 * The program's objects driven through any history: what is proved of the models
 * holds of the records, their ports and their clients, all the way down.
 */
module WholeRuns {
  import opened Base
  import opened Deadline
  import Port = PortModel
  import Ports = PortProperties
  import Control = GatewayController
  import Listeners = ControllerProperties
  import Machine = ControllerRuntime
  import Store = ConfigStore
  import Tx = ConfigTransaction
  import TxClaims = TransactionProperties
  import Process = TransactionRuntime
  import Net = NetworkOwner
  import NetClaims = OwnerProperties
  import NetProcess = OwnerRuntime
  import Manage = NetworkManager
  import ManageProcess = ManagerRuntime

  // ------------------------------------------------------------- the controller

  method Perform(m: Machine.Controller, c: Control.Call, bindOk: string -> bool, now: Tick)
    requires m.Valid()
    modifies m.Repr
    ensures m.Valid() && m.Abs() == Control.ApplyCall(old(m.Abs()), c, bindOk, now).0
  {
    hide Control.ApplyCall, Machine.Controller.Abs, Machine.Controller.Valid;
    match c {
      case StartAll => m.StartPorts(bindOk, now);
      case StepAll(s) => m.StepPorts(s, bindOk, now);
      case Reconfigure(i, config, stop, again) => var _ := m.ReconfigureAt(i, config, stop, again, bindOk, now);
      case WaitForNetwork(i, wait, stop) => var _ := m.AwaitAt(i, wait, stop, bindOk, now);
      case Shutdown(stops) => m.ShutPorts(stops, bindOk, now);
    }
  }

  /**
   * Any calls of a controller: a ready port owns its listener and its runtime
   * works, no listener was started over another, and the runtime of every port has
   * notified each accepted transaction exactly once or still holds it.
   */
  method RunController(cs: seq<Control.PortConfig>, calls: seq<(Control.Call, Tick)>, bindOk: string -> bool,
                       blank: Port.Txn)
    returns (m: Machine.Controller)
    requires |cs| == Control.PORT_COUNT
    ensures m.Valid() && m.Abs() == Listeners.Run(Control.InitAll(cs, bindOk), calls, bindOk)
    ensures forall k | 0 <= k < Control.PORT_COUNT ::
              var p := m.ports[k];
              && p.Valid() && Listeners.Heard(p.log) == Listeners.Listening(p.owned, true)
              && (p.lifecycle == Control.Ready ==> p.owned && Control.Running(p.unit.state))
              && Ports.Ledger(p.unit.Abs())
  {
    hide Control.ApplyCall, Control.InitAll, Machine.Controller.Abs, Machine.Controller.Valid;
    m := new Machine.Controller(cs, bindOk, blank);
    ghost var goal := Listeners.Run(m.Abs(), calls, bindOk);
    for i := 0 to |calls|
      invariant m.Valid() && fresh(m.Repr) && Listeners.Run(m.Abs(), calls[i..], bindOk) == goal
    {
      assert calls[i..][1..] == calls[i + 1..];
      Perform(m, calls[i].0, bindOk, calls[i].1);
    }
    assert m.Abs() == goal;
    Listeners.InitAllInUse(cs, bindOk);
    Listeners.RunKeeps(Control.InitAll(cs, bindOk), calls, bindOk);
    ControllerHolds(m);
  }

  lemma ControllerHolds(m: Machine.Controller)
    requires m.Valid() && Listeners.AllInUse(m.Abs())
    ensures |m.ports| == Control.PORT_COUNT
    ensures forall k | 0 <= k < Control.PORT_COUNT ::
              var p := m.ports[k];
              && p.Valid() && Listeners.Heard(p.log) == Listeners.Listening(p.owned, true)
              && (p.lifecycle == Control.Ready ==> p.owned && Control.Running(p.unit.state))
              && Ports.Ledger(p.unit.Abs())
  {
    hide Ports.Ledger, Listeners.Heard;
    forall k | 0 <= k < Control.PORT_COUNT
      ensures var p := m.ports[k];
              && p.Valid() && Listeners.Heard(p.log) == Listeners.Listening(p.owned, true)
              && (p.lifecycle == Control.Ready ==> p.owned && Control.Running(p.unit.state))
              && Ports.Ledger(p.unit.Abs())
    {
      assert m.Abs()[k] == m.ports[k].Abs();
      assert Listeners.InUse(m.Abs()[k]);
    }
  }

  // ------------------------------------------------------------- the application

  method React(app: Process.Application, e: Tx.Event, r: Tx.Rules, now: Tick)
    requires app.Valid()
    modifies app.Repr
    ensures app.Valid() && app.Abs() == Tx.React(old(app.Abs()), e, r, now)
  {
    hide Tx.Request, Tx.StepTx, Control.ApplyCall, Machine.Controller.Abs, Machine.Controller.Valid;
    match e {
      case Requested(c, answers) =>
        if !app.shuttingDown {
          var _ := app.RequestConfiguration(c, answers, r);
        }
      case PortsStepped(turns) => app.StepController(turns, r, now);
      case TxStepped(answers) => app.StepTransaction(answers, r, now);
      case ShutDown(stops) => app.BeginShutdown(stops, r, now);
    }
  }

  /** The ports of the application are those of a controller, whatever the transaction does. */
  lemma {:induction false} PortsStayInUse(a: Tx.App, es: seq<(Tx.Event, Tick)>, r: Tx.Rules)
    requires Listeners.AllInUse(a.gateway)
    ensures Listeners.AllInUse(Tx.Run(a, es, r).gateway)
    decreases |es|
  {
    hide Listeners.AllInUse, Tx.React;
    if es != [] {
      ReactInUse(a, es[0].0, r, es[0].1);
      PortsStayInUse(Tx.React(a, es[0].0, r, es[0].1), es[1..], r);
    }
  }

  lemma ReactInUse(a: Tx.App, e: Tx.Event, r: Tx.Rules, now: Tick)
    requires Listeners.AllInUse(a.gateway)
    ensures Listeners.AllInUse(Tx.React(a, e, r, now).gateway)
  {
    hide Listeners.AllInUse, Control.ApplyCall, Store.StagePoints, Store.StageResult, Store.Promote, Store.Select,
         Tx.ValidSaved, Tx.Literal, Tx.Terminal;
    match e {
      case Requested(c, answers) =>
      case PortsStepped(s) => Listeners.CallKeeps(a.gateway, Control.StepAll(s), r.bindOk, now);
      case TxStepped(answers) =>
        if a.tx.index < Control.PORT_COUNT {
          var want := Tx.Desired(a.tx)[a.tx.index];
          Listeners.CallKeeps(a.gateway, Control.Reconfigure(a.tx.index, want, answers.stop, answers.again), r.bindOk,
                              now);
        }
      case ShutDown(stops) => Listeners.CallKeeps(a.gateway, Control.Shutdown(stops), r.bindOk, now);
    }
  }

  /**
   * Any life of the application over its files and its eight ports: at every point
   * the directory went through since a candidate was taken up, a start loads what
   * it would have loaded then or the candidate; success means the candidate, on
   * disk and in force; and the ports keep what a controller's ports keep.
   */
  method RunApplication(ports: Store.Ports, f: Store.Files, s: Store.Saved, source: Store.Source,
                        es: seq<(Tx.Event, Tick)>, r: Tx.Rules, blank: Port.Txn)
    returns (app: Process.Application)
    requires Store.Faithful(r.codec)
    ensures app.Valid() && app.Abs() == Tx.Run(Tx.InitApp(Control.InitAll(ports, r.bindOk), f, s, source, r), es, r)
    ensures forall p | p in app.directory.points ::
              Store.Startup(p, r.codec) == app.before || Store.Startup(p, r.codec) == app.goal
    ensures app.tx.state == Tx.Succeeded || app.tx.state == Tx.Uncertain ==>
              Store.Startup(app.directory.Now(), r.codec) == app.goal == app.selected
    ensures app.controller.Valid() && forall k | 0 <= k < Control.PORT_COUNT ::
              var p := app.controller.ports[k];
              && p.Valid() && Listeners.Heard(p.log) == Listeners.Listening(p.owned, true)
              && (p.lifecycle == Control.Ready ==> p.owned && Control.Running(p.unit.state))
              && Ports.Ledger(p.unit.Abs())
  {
    hide Tx.React, Control.InitAll, Process.Application.Abs, Process.Application.Valid, Tx.InitApp, Store.Faithful,
         Store.Startup;
    app := new Process.Application(ports, f, s, source, r, blank);
    ghost var goal := Tx.Run(app.Abs(), es, r);
    for i := 0 to |es|
      invariant app.Valid() && fresh(app.Repr) && Tx.Run(app.Abs(), es[i..], r) == goal
    {
      assert es[i..][1..] == es[i + 1..];
      React(app, es[i].0, r, es[i].1);
    }
    assert app.Abs() == goal;
    ghost var g := Control.InitAll(ports, r.bindOk);
    TxClaims.StartupLoadsOldOrNew(g, f, s, source, es, r);
    Listeners.InitAllInUse(ports, r.bindOk);
    PortsStayInUse(Tx.InitApp(g, f, s, source, r), es, r) by { StartsWith(g, f, s, source, r); }
    ApplicationHolds(app);
  }

  lemma StartsWith(g: Control.Gateway, f: Store.Files, s: Store.Saved, source: Store.Source, r: Tx.Rules)
    ensures Tx.InitApp(g, f, s, source, r).gateway == g
  {
  }

  lemma ApplicationHolds(app: Process.Application)
    requires app.Valid() && Listeners.AllInUse(app.Abs().gateway)
    ensures app.controller.Valid() && |app.controller.ports| == Control.PORT_COUNT
    ensures app.Abs().files == app.directory.Now() && app.Abs().points == app.directory.points
    ensures app.Abs().tx == app.tx && app.Abs().selected == app.selected
    ensures app.Abs().before == app.before && app.Abs().goal == app.goal
    ensures forall k | 0 <= k < Control.PORT_COUNT ::
              var p := app.controller.ports[k];
              && p.Valid() && Listeners.Heard(p.log) == Listeners.Listening(p.owned, true)
              && (p.lifecycle == Control.Ready ==> p.owned && Control.Running(p.unit.state))
              && Ports.Ledger(p.unit.Abs())
  {
    hide Machine.Controller.Valid, Machine.Controller.Abs, Listeners.AllInUse;
    ControllerHolds(app.controller);
  }

  // ------------------------------------------------------------ the network owner

  method OwnerReact(o: NetProcess.OwnerRecord, e: Net.OwnerEvent, k: Net.Checks, now: nat)
    requires o.Valid()
    modifies o.Repr
    ensures o.Valid() && o.Abs() == Net.OwnerReact(old(o.Abs()), e, k, now)
  {
    hide Net.OwnerStep, Net.TakePolicy, Net.StopOwner, NetProcess.OwnerRecord.Abs, NetProcess.OwnerRecord.Valid;
    match e {
      case PolicySet(p, cancel) => var _ := o.PolicyRecord(p, cancel, k, now);
      case StepOnce(a) => o.StepRecord(a, k, now);
      case Stopped(cancel) => o.Stop(cancel, now);
    }
  }

  /**
   * Any timely life of the owner over its two LANs and their DHCP clients: when the
   * record says settled, what was observed is, in the fields a write can change,
   * the network wanted now by its policy and by the leases its clients hold, none
   * of which has expired; and it never asked for a write out of turn.
   */
  method RunOwner(seed: Word, es: seq<(nat, Net.OwnerEvent)>, k: Net.Checks) returns (o: NetProcess.OwnerRecord)
    requires NetClaims.AllTimely(Net.InitOwner(seed), es, k)
    ensures o.Valid() && o.Abs() == Net.OwnerRun(Net.InitOwner(seed), es, k)
    ensures NetClaims.Watched(o.log).serial && (o.job <==> NetClaims.Watched(o.log).writer.Some?)
    ensures o.settled ==>
      var wanted := Net.Target(o.policy, o.observed, o.first.client.Abs(), o.second.client.Abs(), k);
      && !o.job && wanted.Some? && Net.Same(o.observed, wanted.value.0)
      && (o.first.client.valid ==> o.last < o.first.clock.Expiry())
      && (o.second.client.valid ==> o.last < o.second.clock.Expiry())
  {
    hide Net.OwnerReact, NetProcess.OwnerRecord.Abs, NetProcess.OwnerRecord.Valid, Net.InitOwner, NetClaims.AllTimely,
         NetClaims.Watched;
    o := new NetProcess.OwnerRecord(seed);
    ghost var goal := Net.OwnerRun(o.Abs(), es, k);
    for i := 0 to |es|
      invariant o.Valid() && fresh(o.Repr) && Net.OwnerRun(o.Abs(), es[i..], k) == goal
    {
      assert es[i..][1..] == es[i + 1..];
      OwnerReact(o, es[i].1, k, es[i].0);
    }
    assert o.Abs() == goal;
    NetClaims.WritersAreSerial(seed, es, k);
    if goal.settled {
      NetClaims.SettledIsConverged(seed, es, k);
    }
    OwnerHolds(o, k);
  }

  lemma OwnerHolds(o: NetProcess.OwnerRecord, k: Net.Checks)
    requires o.Valid()
    ensures var a := o.Abs();
      && a.log == o.log && a.job == o.job && a.settled == o.settled && a.last == o.last && a.observed == o.observed
      && a.first.client == o.first.client.Abs() && a.second.client == o.second.client.Abs()
      && a.first.clock == o.first.clock && a.second.clock == o.second.clock
      && a.first.client.valid == o.first.client.valid && a.second.client.valid == o.second.client.valid
      && Net.TargetNow(a, k) == Net.Target(o.policy, o.observed, o.first.client.Abs(), o.second.client.Abs(), k)
  {
    hide Net.Target;
  }

  // ---------------------------------------------------------- the network manager

  method ManagerReact(m: ManageProcess.ManagerRecord, e: Manage.Event, now: Tick)
    modifies m
    ensures m.Abs() == Manage.React(old(m.Abs()), e, now)
  {
    hide Manage.Step, Manage.ApplySettings;
    match e {
      case Apply(valid, p) => var _ := m.ApplyCandidate(valid, now, p);
      case Confirmation => var _ := m.ConfirmCandidate();
      case Reversion => m.RequestRevert();
      case ClientAlive(alive) => m.alive := alive;
      case BindingsReady(ready) => m.bindings := ready;
      case StepOnce(p) => m.StepRecord(now, p);
    }
  }

  /** Any life of the manager: kept and reverted mean what happened at its provider. */
  method RunManager(es: seq<(nat, Manage.Event)>) returns (m: ManageProcess.ManagerRecord)
    ensures m.Abs() == Manage.Run(Manage.InitManager(), es)
    ensures m.state == Manage.Kept ==>
              Manage.Saw(m.trace, Manage.AUTHORISED + [Manage.Committed(0)])
              || Manage.Saw(m.trace, [Manage.Restored(0), Manage.PolledBack(2)])
    ensures m.state == Manage.Reverted ==> Manage.Saw(m.trace, [Manage.Restored(0), Manage.Discarded(0)])
  {
    hide Manage.React, Manage.Saw;
    m := new ManageProcess.ManagerRecord();
    ghost var goal := Manage.Run(m.Abs(), es);
    for i := 0 to |es|
      invariant fresh(m) && Manage.Run(m.Abs(), es[i..]) == goal
    {
      assert es[i..][1..] == es[i + 1..];
      ManagerReact(m, es[i].1, Tick32(es[i].0));
    }
    Manage.KeptAndReverted(es);
  }
}
