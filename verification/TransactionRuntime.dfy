/**
 * The application as the program keeps it: the configuration transaction over the
 * files it changes and over the controller with its eight ports.
 */
module TransactionRuntime {
  import opened Deadline
  import Port = PortModel
  import Control = GatewayController
  import Machine = ControllerRuntime
  import opened ConfigStore
  import opened ConfigTransaction

  class Application {
    const directory: ConfigDirectory
    const controller: Machine.Controller
    var selected: Saved
    var source: Source
    var tx: Tx
    var shuttingDown: bool
    /** Records for the proofs. */
    ghost var goal: Saved
    ghost var before: Saved
    ghost var asked: Control.Gateway
    ghost var base: Files
    ghost var pending: seq<Rename>
    ghost const Repr: set<object>

    ghost predicate Valid()
      reads Repr
    {
      && controller.Repr <= Repr && controller.Valid()
      && this !in controller.Repr && directory !in controller.Repr && {this, directory} <= Repr
    }

    ghost function Abs(): App
      requires Valid()
      reads Repr
    {
      App(controller.Abs(), directory.Now(), selected, source, tx, shuttingDown, goal, before, asked, directory.points,
          base, pending)
    }

    /** The application as it starts, with the configuration the files gave. */
    constructor (ports: Ports, f: Files, selected: Saved, source: Source, r: Rules, blank: Port.Txn)
      ensures Valid() && Abs() == InitApp(Control.InitAll(ports, r.bindOk), f, selected, source, r) && fresh(Repr)
    {
      hide Control.InitAll, Startup;
      var c := new Machine.Controller(ports, r.bindOk, blank);
      var d := new ConfigDirectory(f);
      controller, directory := c, d;
      this.selected, this.source, shuttingDown := selected, source, false;
      tx := NewTx(Idle, NO_SAVED, NO_SAVED, Ok);
      goal, before, asked := Startup(f, r.codec), Startup(f, r.codec), c.Abs();
      base, pending := f, [];
      Repr := c.Repr + {this, d};
    }

    /** `gateway_application_request_configuration` while the application runs. */
    method RequestConfiguration(c: Saved, e: Answers, r: Rules) returns (result: int)
      requires Valid()
      modifies this, directory
      ensures Valid()
      ensures (Abs(), result) == Request(old(Abs()), c, e, r)
    {
      hide ValidSaved, SameUarts, Literal, StagePoints, StageResult, Startup;
      if tx.state == Activating || tx.state == Promoting || tx.state == RollingBack {
        return -1;
      }
      if !ValidSaved(c, r) || !SameUarts(c, selected) {
        tx := NewTx(Failed, NO_SAVED, NO_SAVED, Invalid);
        return -1;
      }
      if c == selected {
        tx := NewTx(NoChange, NO_SAVED, NO_SAVED, Unchanged);
        return 0;
      }
      result := StageCandidate(Literal(c, selected), e, r);
    }

    method StageCandidate(candidate: Saved, e: Answers, r: Rules) returns (result: int)
      requires Valid()
      modifies this, directory
      ensures Valid()
      ensures var a := old(Abs());
              var s := StageResult(candidate, e.writing, r.codec);
              var t := NewTx(Failed, candidate, a.selected, s);
              var b := Moved(a.(tx := t, goal := candidate, before := Startup(a.files, r.codec), asked := a.gateway,
                                 points := [a.files]),
                             StagePoints(a.files, candidate, e.writing, r.codec));
              (Abs(), result) == if s != Ok then (Discarding(b, e.unlink), -1)
                                 else (b.(tx := t.(state := if candidate.ports == a.selected.ports then Promoting
                                                            else Activating)), 0)
    {
      hide StagePoints, StageResult, Startup, Machine.Controller.Valid, Machine.Controller.Abs;
      TakeUp(candidate, r);
      var s := directory.Stage(candidate, e.writing, r.codec);
      if s != Ok {
        tx := tx.(result := s);
        directory.DiscardStaged(e.unlink);
        return -1;
      }
      tx := tx.(result := s, state := if candidate.ports == selected.ports then Promoting else Activating);
      result := 0;
    }

    /** The records of a candidate begin. */
    method TakeUp(candidate: Saved, r: Rules)
      requires Valid()
      modifies this`goal, this`before, this`asked, this`tx, directory
      ensures Valid()
      ensures var a := old(Abs());
              Abs() == a.(tx := NewTx(Failed, candidate, a.selected, Invalid), goal := candidate,
                          before := Startup(a.files, r.codec), asked := a.gateway, points := [a.files])
    {
      hide Startup, Machine.Controller.Valid, Machine.Controller.Abs;
      goal, before, asked := candidate, Startup(directory.Now(), r.codec), controller.Abs();
      directory.Forget();
      tx := NewTx(Failed, candidate, selected, Invalid);
    }

    /** `config_rollback_begin`. */
    method RollBack(unlink: bool)
      requires Valid()
      modifies this`tx, directory
      ensures Valid()
      ensures Abs() == BeginRollback(old(Abs()), unlink)
    {
      directory.DiscardStaged(unlink);
      tx := tx.(state := RollingBack, waiting := false,
                index := if tx.candidate.ports == tx.previous.ports then Control.PORT_COUNT else 0);
    }

    method PortRefused(unlink: bool)
      requires Valid()
      modifies this`tx, directory
      ensures Valid()
      ensures Abs() == PortFailed(old(Abs()), unlink)
    {
      hide BeginRollback;
      if tx.state == RollingBack {
        tx := tx.(waiting := false, rollbackFailed := true, index := tx.index + 1);
      } else {
        RollBack(unlink);
      }
    }

    /** Whether the port at the index is on its way. */
    method IsMoving() returns (b: bool)
      requires Valid() && tx.index < Control.PORT_COUNT
      ensures b <==> Transient(Abs().gateway[tx.index])
    {
      var p := controller.ports[tx.index];
      b := p.lifecycle == Control.Starting || p.lifecycle == Control.Reconfiguring || p.lifecycle == Control.RollingBack
           || p.lifecycle == Control.Stopping;
    }

    /** Whether the port at the index has come to rest with this configuration. */
    method HasIt(want: Control.PortConfig) returns (b: bool)
      requires Valid() && tx.index < Control.PORT_COUNT
      ensures b <==> Terminal(Abs().gateway[tx.index], want)
    {
      var p := controller.ports[tx.index];
      b := p.current == want && p.lifecycle == if want.enabled != 0 then Control.Ready else Control.Disabled;
    }

    method Walk(e: Answers, r: Rules, now: Tick)
      requires Valid()
      modifies Repr
      ensures Valid()
      ensures Abs() == StepWalk(old(Abs()), e, r, now)
    {
      hide PortFailed, Control.ApplyCall, Terminal, Transient, Machine.Controller.Valid, Machine.Controller.Abs,
           AskPort;
      if tx.index >= Control.PORT_COUNT {
        if tx.state == RollingBack {
          selected := tx.previous;
          tx := tx.(state := Failed, walked := true);
        } else {
          tx := tx.(state := Promoting);
        }
        return;
      }
      var want := if tx.state == Activating then tx.candidate.ports[tx.index] else tx.previous.ports[tx.index];
      if !tx.waiting {
        Ask(want, e, r, now);
        return;
      }
      var moving := IsMoving();
      if moving {
        return;
      }
      var done := HasIt(want);
      if done {
        tx := tx.(waiting := false, index := tx.index + 1);
      } else {
        PortRefused(e.unlink);
      }
    }

    method Ask(want: Control.PortConfig, e: Answers, r: Rules, now: Tick)
      requires tx.index < Control.PORT_COUNT && want == Desired(tx)[tx.index]
      requires Valid()
      modifies Repr
      ensures Valid()
      ensures Abs() == AskPort(old(Abs()), e, r, now)
    {
      hide PortFailed, Control.ApplyCall, Terminal, Machine.Controller.Valid, Machine.Controller.Abs;
      var done := HasIt(want);
      if done {
        tx := tx.(waiting := false, index := tx.index + 1);
        return;
      }
      var refused := controller.ReconfigureAt(tx.index, want, e.stop, e.again, r.bindOk, now);
      if refused != 0 {
        PortRefused(e.unlink);
      } else {
        tx := tx.(waiting := true);
      }
    }

    /** The staged file is promoted, with its records. */
    method PromoteFiles(e: Answers, r: Rules) returns (result: Result)
      requires Valid()
      modifies this`tx, this`base, this`pending, directory
      ensures Valid()
      ensures Abs() == AfterPromotion(old(Abs()), e, r) && tx == old(tx).(result := result)
    {
      hide Promote, Renames, Machine.Controller.Valid, Machine.Controller.Abs;
      ghost var renames := Renames(directory.Now(), e.promotion, r.codec);
      result := directory.PromoteStaged(e.promotion, r.codec);
      tx := tx.(result := result);
      Renamed(result == Ok, renames);
    }

    /** The records of a promotion. */
    ghost method Renamed(synced: bool, renames: seq<Rename>)
      requires Valid()
      modifies this`base, this`pending
      ensures Valid()
      ensures var a := old(Abs());
              Abs() == a.(base := if synced then a.files else a.base,
                          pending := if synced then [] else a.pending + renames)
    {
      hide Machine.Controller.Valid, Machine.Controller.Abs;
      base := if synced then directory.Now() else base;
      pending := if synced then [] else pending + renames;
    }

    method PromoteCandidate(e: Answers, r: Rules)
      requires Valid()
      modifies this, directory
      ensures Valid()
      ensures Abs() == StepPromoting(old(Abs()), e, r)
    {
      hide AfterPromotion, Select, BeginRollback, Machine.Controller.Valid, Machine.Controller.Abs;
      var result := PromoteFiles(e, r);
      if result == Ok || result == Unchanged {
        selected, source := tx.candidate, FromActive;
        tx := tx.(state := Succeeded);
        return;
      }
      if result == DurabilityUncertain {
        var files := Files(directory.active, directory.backup, directory.staged);
        var (loaded, config, from) := Select(files, e.readActive, e.readBackup, r.codec);
        if (loaded == Ok || loaded == Absent) && config == tx.candidate {
          selected, source := tx.candidate, from;
          tx := tx.(state := Uncertain);
          return;
        }
      }
      RollBack(e.unlink);
    }

    /** `config_transaction_step`. */
    method StepTransaction(e: Answers, r: Rules, now: Tick)
      requires Valid()
      modifies Repr
      ensures Valid()
      ensures Abs() == StepTx(old(Abs()), e, r, now)
    {
      hide StepWalk, StepPromoting;
      if shuttingDown && Underway(tx.state) {
        directory.DiscardStaged(e.unlink);
        tx := tx.(state := Failed);
      } else if tx.state == Activating || tx.state == RollingBack {
        Walk(e, r, now);
      } else if tx.state == Promoting {
        PromoteCandidate(e, r);
      }
    }

    /** The controller has its turn. */
    method StepController(turns: seq<Control.Answers>, r: Rules, now: Tick)
      requires Valid()
      modifies Repr
      ensures Valid() && Abs() == React(old(Abs()), PortsStepped(turns), r, now)
    {
      hide Control.ApplyCall;
      controller.StepPorts(turns, r.bindOk, now);
    }

    /** `gateway_application_shutdown`, as far as the ports go. */
    method BeginShutdown(stops: seq<bool>, r: Rules, now: Tick)
      requires Valid()
      modifies Repr
      ensures Valid() && Abs() == React(old(Abs()), ShutDown(stops), r, now)
    {
      hide Control.ApplyCall;
      controller.ShutPorts(stops, r.bindOk, now);
      shuttingDown := true;
    }
  }
}
