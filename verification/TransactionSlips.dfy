/**
 * A run after which the ports are not on the configuration in force although the
 * last rollback was clean: an earlier one left a port behind.
 */
module TransactionSlips {
  import opened Base
  import opened Deadline
  import Port = PortModel
  import Control = GatewayController
  import opened ConfigStore
  import opened ConfigTransaction

  /** No backup can be made and no listener stops; all else goes well. */
  const FAIL := Answers(Writing(true, [], true), Promotion(true, true, true, false, true, true), true, true, true,
                        false, true)

  /** The serial side opens and the listener starts. */
  const OPENS := Control.Answers([], Port.Backend(true, true, None, true, true, true, true), true, true)

  const TURNS: seq<Control.Answers> := [OPENS, OPENS, OPENS, OPENS, OPENS, OPENS, OPENS, OPENS]

  function Steps(n: nat): seq<(Event, Tick)> { seq(n, i => (TxStepped(FAIL), 0)) }

  function TxSteps(a: App, n: nat, r: Rules): App
    decreases n
  {
    if n == 0 then a else TxSteps(StepTx(a, FAIL, r, 0), n - 1, r)
  }

  lemma {:induction false} RunSteps(a: App, n: nat, r: Rules)
    ensures Run(a, Steps(n), r) == TxSteps(a, n, r)
    decreases n
  {
    hide StepTx;
    if n > 0 {
      assert Steps(n)[1..] == Steps(n - 1);
      RunSteps(StepTx(a, FAIL, r, 0), n - 1, r);
    }
  }

  lemma {:induction false} RunAppend(a: App, es: seq<(Event, Tick)>, fs: seq<(Event, Tick)>, r: Rules)
    ensures Run(a, es + fs, r) == Run(Run(a, es, r), fs, r)
    decreases |es|
  {
    hide React;
    if es == [] {
      assert es + fs == fs;
    } else {
      assert (es + fs)[1..] == es[1..] + fs;
      RunAppend(React(a, es[0].0, r, es[0].1), es[1..], fs, r);
    }
  }

  lemma {:induction false} StepsAppend(a: App, m: nat, n: nat, r: Rules)
    ensures TxSteps(a, m + n, r) == TxSteps(TxSteps(a, m, r), n, r)
    decreases m
  {
    hide StepTx;
    if m > 0 {
      StepsAppend(StepTx(a, FAIL, r, 0), m - 1, n, r);
    }
  }

  /** Ports that have what is wanted are passed one by one. */
  lemma {:induction false} PassedBy(a: App, n: nat, r: Rules)
    requires !a.shuttingDown && !a.tx.waiting && (a.tx.state == Activating || a.tx.state == RollingBack)
    requires a.tx.index + n <= Control.PORT_COUNT
    requires forall i | a.tx.index <= i < a.tx.index + n :: Terminal(a.gateway[i], Desired(a.tx)[i])
    ensures TxSteps(a, n, r) == a.(tx := a.tx.(index := a.tx.index + n))
    decreases n
  {
    hide Terminal, Control.ApplyCall;
    if n > 0 {
      var b := StepTx(a, FAIL, r, 0);
      assert b == a.(tx := a.tx.(index := a.tx.index + 1));
      PassedBy(b, n - 1, r);
    }
  }

  /** A port that is switched off. */
  predicate Off(p: Control.Controlled, c: Control.PortConfig) {
    p.current == c && c.enabled == 0 && p.lifecycle == Control.Disabled && !p.owned && !p.networkWait
  }

  predicate AllOff(g: Control.Gateway, ports: Ports) {
    forall i | 0 <= i < Control.PORT_COUNT :: Off(g[i], ports[i])
  }

  /** Port 0 is up on `n`, the others are off. */
  predicate FirstUp(g: Control.Gateway, ports: Ports, n: Control.PortConfig) {
    && g[0].current == n && g[0].lifecycle == Control.Ready && g[0].owned
    && forall i | 1 <= i < Control.PORT_COUNT :: Off(g[i], ports[i])
  }

  lemma OffStays(p: Control.Controlled, c: Control.PortConfig)
    requires Off(p, c)
    ensures Off(Control.StepPort(p, 0, OPENS), c)
  {
    hide Control.StepRuntime;
  }

  /** A port that is off takes a configuration that switches it on, and comes up. */
  lemma ComesUp(p: Control.Controlled, c: Control.PortConfig, n: Control.PortConfig)
    requires Off(p, c) && n.enabled != 0
    ensures var (q, r) := Control.ReconfigurePort(p, n, 0, false, true);
            var u := Control.StepPort(q, 0, OPENS);
      && r == 0 && q.lifecycle == Control.Starting
      && u.current == n && u.lifecycle == Control.Ready && u.owned
  {
    hide Control.CoreConfig;
  }

  /** A port that is up does not take a configuration that switches it off: its listener does not stop. */
  lemma StaysUp(p: Control.Controlled, c: Control.PortConfig)
    requires p.lifecycle == Control.Ready && p.owned && c.enabled == 0
    ensures var (q, r) := Control.ReconfigurePort(p, c, 0, false, true);
            r == -1 && q.current == p.current && q.lifecycle == p.lifecycle && q.owned
  {
  }

  /** The candidate that switches port 0 on. */
  function With(s: Saved, n: Control.PortConfig): Saved { s.(ports := s.ports[0 := n]) }

  predicate Suitable(f: Files, s: Saved, n: Control.PortConfig, c: Saved, r: Rules) {
    && f.active.Some? && r.codec.decode(f.active.value) == Good(s)
    && n.enabled != 0 && n.uart == s.ports[0].uart && n.bind == s.ports[0].bind
    && Stageable(With(s, n), r) && Stageable(c, r) && c != s && c.ports == s.ports
  }

  predicate Stageable(c: Saved, r: Rules) {
    && ValidSaved(c, r) && r.codec.encode(c).Some? && r.codec.decode(r.codec.encode(c).value) == Good(c)
  }

  /** A candidate whose addresses are those in force is taken up as it is. */
  lemma TakenUp(o: App, c: Saved, r: Rules)
    requires Stageable(c, r) && c != o.selected && !Underway(o.tx.state) && !o.shuttingDown
    requires forall i | 0 <= i < Control.PORT_COUNT ::
               c.ports[i].uart == o.selected.ports[i].uart && c.ports[i].bind == o.selected.ports[i].bind
    ensures var q := React(o, Requested(c, FAIL), r, 0);
      && q.tx == NewTx(if c.ports == o.selected.ports then Promoting else Activating, c, o.selected, Ok)
      && q.gateway == o.gateway && q.selected == o.selected && !q.shuttingDown && q.asked == o.gateway
      && q.files == o.files.(staged := r.codec.encode(c))
  {
    assert Literal(c, o.selected) == c by { assert Literal(c, o.selected).ports == c.ports; }
    StagingIsInvisible(o.files, c, FAIL.writing, r.codec);
    hide ValidSaved, StagePoints, Startup, Literal;
  }

  /** Promotion fails at the backup, and a rollback begins. */
  lemma FailsToPromote(a: App, s: Saved, c: Saved, r: Rules)
    requires a.tx.state == Promoting && a.tx.candidate == c && c != s && !a.shuttingDown
    requires a.files.staged.Some? && r.codec.decode(a.files.staged.value) == Good(c)
    requires a.files.active.Some? && r.codec.decode(a.files.active.value) == Good(s)
    ensures var q := StepTx(a, FAIL, r, 0);
      && q.tx == a.tx.(state := RollingBack, waiting := false, result := IoError,
                       index := if c.ports == a.tx.previous.ports then Control.PORT_COUNT else 0)
      && q.gateway == a.gateway && q.selected == a.selected && !q.shuttingDown && q.files.active == a.files.active
      && q.asked == a.asked
  {
  }

  /** Activation: port 0 comes up on `n`. */
  lemma Activates(a: App, s: Saved, n: Control.PortConfig, r: Rules)
    requires a.tx == NewTx(Activating, With(s, n), s, Ok) && !a.shuttingDown && AllOff(a.gateway, s.ports)
    requires n.enabled != 0 && ValidSaved(With(s, n), r)
    ensures var q := React(StepTx(a, FAIL, r, 0), PortsStepped(TURNS), r, 0);
      && q == a.(gateway := q.gateway, tx := a.tx.(waiting := true)) && FirstUp(q.gateway, s.ports, n)
  {
    hide Control.StepPort, Control.ReconfigurePort, Control.Acceptable;
    var g := a.gateway;
    assert Control.Replacement(g, 0, n) == With(s, n).ports;
    ComesUp(g[0], s.ports[0], n);
    assert Control.Acceptable(With(s, n).ports, 0, r.bindOk);
    var b := StepTx(a, FAIL, r, 0);
    assert b == a.(gateway := g[0 := Control.ReconfigurePort(g[0], n, 0, false, true).0], tx := a.tx.(waiting := true));
    forall i | 1 <= i < Control.PORT_COUNT ensures Off(Control.StepPort(g[i], 0, OPENS), s.ports[i]) {
      OffStays(g[i], s.ports[i]);
    }
  }

  /** Port 0, asked before, has come up. */
  lemma FirstIsPassed(a: App, s: Saved, n: Control.PortConfig, r: Rules)
    requires a.tx == NewTx(Activating, With(s, n), s, Ok).(waiting := true) && !a.shuttingDown
    requires FirstUp(a.gateway, s.ports, n) && n.enabled != 0
    ensures StepTx(a, FAIL, r, 0) == a.(tx := a.tx.(waiting := false, index := 1))
  {
  }

  /** The walk ends at the last port. */
  lemma WalkEnds(a: App, r: Rules)
    requires (a.tx.state == Activating || a.tx.state == RollingBack) && a.tx.index == Control.PORT_COUNT
    requires !a.shuttingDown
    ensures StepTx(a, FAIL, r, 0) == EndWalk(a)
  {
  }

  /** The ports that are off have what both configurations want of them. */
  lemma OthersHaveIt(g: Control.Gateway, s: Saved, n: Control.PortConfig)
    requires FirstUp(g, s.ports, n)
    ensures forall i | 1 <= i < Control.PORT_COUNT :: Terminal(g[i], s.ports[i]) && With(s, n).ports[i] == s.ports[i]
  {
  }

  /** The other ports are passed, and promotion fails. */
  lemma ActivatedFails(a: App, s: Saved, n: Control.PortConfig, r: Rules)
    requires a.tx == NewTx(Activating, With(s, n), s, Ok).(waiting := true) && !a.shuttingDown
    requires FirstUp(a.gateway, s.ports, n) && n.enabled != 0
    requires a.files.staged.Some? && r.codec.decode(a.files.staged.value) == Good(With(s, n)) && With(s, n) != s
    requires a.files.active.Some? && r.codec.decode(a.files.active.value) == Good(s) && With(s, n).ports != s.ports
    ensures var q := TxSteps(a, 10, r);
      && q.tx.state == RollingBack && q.tx.index == 0 && !q.tx.waiting && q.tx.previous == s && !q.tx.rollbackFailed
      && q.gateway == a.gateway && q.selected == a.selected && !q.shuttingDown && q.files.active == a.files.active
  {
    hide StepTx, TxSteps, FirstUp, Terminal;
    FirstIsPassed(a, s, n, r);
    OthersHaveIt(a.gateway, s, n);
    var b := StepTx(a, FAIL, r, 0);
    PassedBy(b, 7, r);
    var c := b.(tx := b.tx.(index := 8));
    WalkEnds(c, r);
    var d := StepTx(c, FAIL, r, 0);
    FailsToPromote(d, s, With(s, n), r);
    TenSteps(a, b, c, d, r);
  }

  lemma TenSteps(a: App, b: App, c: App, d: App, r: Rules)
    requires b == StepTx(a, FAIL, r, 0) && c == TxSteps(b, 7, r) && d == StepTx(c, FAIL, r, 0)
    ensures TxSteps(a, 10, r) == StepTx(d, FAIL, r, 0) && TxSteps(a, 9, r) == d
  {
    hide StepTx;
    StepsAppend(a, 1, 9, r);
    StepsAppend(a, 1, 8, r);
    StepsAppend(b, 7, 2, r);
    StepsAppend(b, 7, 1, r);
    StepsAppend(c, 1, 1, r);
  }

  /** Port 0 is asked to go back and refuses. */
  lemma Refuses(a: App, s: Saved, n: Control.PortConfig, r: Rules)
    requires a.tx.state == RollingBack && a.tx.index == 0 && !a.tx.waiting && a.tx.previous == s && !a.shuttingDown
    requires FirstUp(a.gateway, s.ports, n) && n.enabled != 0 && s.ports[0].enabled == 0
    ensures var q := StepTx(a, FAIL, r, 0);
      && q == a.(gateway := q.gateway, tx := a.tx.(rollbackFailed := true, index := 1))
      && FirstUp(q.gateway, s.ports, n)
  {
    StaysUp(a.gateway[0], s.ports[0]);
    hide Control.ReconfigurePort, Control.Acceptable;
  }

  /** The rollback leaves port 0 behind. */
  lemma LeavesPortBehind(a: App, s: Saved, n: Control.PortConfig, r: Rules)
    requires a.tx.state == RollingBack && a.tx.index == 0 && !a.tx.waiting && a.tx.previous == s && !a.shuttingDown
    requires FirstUp(a.gateway, s.ports, n) && n.enabled != 0 && s.ports[0].enabled == 0
    ensures var q := TxSteps(a, 9, r);
      && q.tx.state == Failed && q.selected == s && !q.shuttingDown && FirstUp(q.gateway, s.ports, n)
      && q.files == a.files
  {
    hide StepTx, TxSteps, FirstUp, Terminal;
    Refuses(a, s, n, r);
    var b := StepTx(a, FAIL, r, 0);
    OthersHaveIt(b.gateway, s, n);
    PassedBy(b, 7, r);
    var c := b.(tx := b.tx.(index := 8));
    WalkEnds(c, r);
    TenSteps(a, b, c, StepTx(c, FAIL, r, 0), r);
  }

  /** A candidate that keeps the ports fails, and its rollback has no port to walk. */
  lemma FailsCleanly(a: App, s: Saved, c: Saved, r: Rules)
    requires a.tx == NewTx(Promoting, c, s, Ok) && c != s && c.ports == s.ports && !a.shuttingDown
    requires a.files.staged.Some? && r.codec.decode(a.files.staged.value) == Good(c)
    requires a.files.active.Some? && r.codec.decode(a.files.active.value) == Good(s)
    ensures var q := TxSteps(a, 2, r);
      && q.tx.state == Failed && q.tx.walked && !q.tx.rollbackFailed && q.tx.previous == s && q.tx.candidate == c
      && q.gateway == a.gateway && q.selected == s && !q.shuttingDown && q.asked == a.asked
  {
    FailsToPromote(a, s, c, r);
    var b := StepTx(a, FAIL, r, 0);
    var d := StepTx(b, FAIL, r, 0);
    assert d == b.(selected := s, tx := b.tx.(state := Failed, walked := true));
    StepsAppend(a, 1, 1, r);
    hide StepTx;
  }

  function SlipRun(s: Saved, n: Control.PortConfig, c: Saved): seq<(Event, Tick)> {
    [(Requested(With(s, n), FAIL), 0), (TxStepped(FAIL), 0), (PortsStepped(TURNS), 0)] + Steps(19)
    + ([(Requested(c, FAIL), 0)] + Steps(2))
  }

  /**
   * From a start with eight ports that are off: a candidate switches port 0 on, its promotion
   * fails, and the listener of port 0 does not stop, so the rollback leaves the
   * port up. A second candidate, which moves no port, fails in its promotion. Its
   * rollback is clean, all eight ports are at rest, and port 0 is not on the
   * configuration in force.
   */
  lemma CleanRollbackLeavesPort(f: Files, s: Saved, n: Control.PortConfig, c: Saved, r: Rules)
    requires Suitable(f, s, n, c, r) && forall i | 0 <= i < Control.PORT_COUNT :: s.ports[i].enabled == 0
    ensures var a := Run(InitApp(Control.InitAll(s.ports, r.bindOk), f, s, FromActive, r), SlipRun(s, n, c), r);
      && a.tx.state == Failed && a.tx.walked && !a.tx.rollbackFailed && !a.shuttingDown
      && a.selected == s == a.tx.previous && a.tx.candidate.ports == s.ports
      && FirstUp(a.gateway, s.ports, n) && a.asked == a.gateway && a.gateway[0].current != s.ports[0]
  {
    hide Run, TxSteps, ValidSaved, React, Control.InitAll;
    var g := Control.InitAll(s.ports, r.bindOk);
    StartsOff(c, r);
    var o := InitApp(g, f, s, FromActive, r);
    var first := [(Requested(With(s, n), FAIL), 0), (TxStepped(FAIL), 0), (PortsStepped(TURNS), 0)];
    var rest := [(Requested(c, FAIL), 0)] + Steps(2);
    RunAppend(o, first + Steps(19), rest, r);
    RunAppend(o, first, Steps(19), r);
    var up := Run(o, first, r);
    SwitchedOn(g, f, s, n, c, r);
    RunSteps(up, 19, r);
    StepsAppend(up, 10, 9, r);
    ActivatedFails(up, s, n, r);
    var back := TxSteps(up, 10, r);
    LeavesPortBehind(back, s, n, r);
    var left := TxSteps(up, 19, r);
    SecondTry(left, s, n, c, r);
  }

  lemma StartsOff(c: Saved, r: Rules)
    requires ValidSaved(c, r) && forall i | 0 <= i < Control.PORT_COUNT :: c.ports[i].enabled == 0
    ensures AllOff(Control.InitAll(c.ports, r.bindOk), c.ports)
  {
    hide Control.Acceptable, Control.CoreConfig;
    forall i | 0 <= i < Control.PORT_COUNT {
      Control.VerdictIsAcceptance(c.ports, i, r.bindOk);
    }
  }

  lemma SwitchedOn(g: Control.Gateway, f: Files, s: Saved, n: Control.PortConfig, c: Saved, r: Rules)
    requires AllOff(g, s.ports) && Suitable(f, s, n, c, r)
    ensures var es: seq<(Event, Tick)> :=
              [(Requested(With(s, n), FAIL), 0), (TxStepped(FAIL), 0), (PortsStepped(TURNS), 0)];
            var q := Run(InitApp(g, f, s, FromActive, r), es, r);
      && q.tx == NewTx(Activating, With(s, n), s, Ok).(waiting := true) && !q.shuttingDown && q.selected == s
      && FirstUp(q.gateway, s.ports, n) && q.files == f.(staged := r.codec.encode(With(s, n)))
  {
    var o := InitApp(g, f, s, FromActive, r);
    var es: seq<(Event, Tick)> := [(Requested(With(s, n), FAIL), 0), (TxStepped(FAIL), 0), (PortsStepped(TURNS), 0)];
    TakenUp(o, With(s, n), r);
    var q := React(o, es[0].0, r, 0);
    Activates(q, s, n, r);
    var p := React(q, es[1].0, r, 0);
    assert es[1..] == [es[1], es[2]] && es[1..][1..] == [es[2]];
    assert Run(p, [es[2]], r) == React(p, es[2].0, r, 0);
    assert Run(q, es[1..], r) == Run(p, [es[2]], r);
    hide React, Run, ValidSaved;
  }

  lemma SecondTry(a: App, s: Saved, n: Control.PortConfig, c: Saved, r: Rules)
    requires a.tx.state == Failed && a.selected == s && !a.shuttingDown && FirstUp(a.gateway, s.ports, n)
    requires a.files.active.Some? && r.codec.decode(a.files.active.value) == Good(s)
    requires Stageable(c, r) && c != s && c.ports == s.ports
    ensures var q := Run(a, [(Requested(c, FAIL), 0)] + Steps(2), r);
      && q.tx.state == Failed && q.tx.walked && !q.tx.rollbackFailed && !q.shuttingDown
      && q.selected == s == q.tx.previous && q.tx.candidate == c && q.gateway == a.gateway == q.asked
  {
    TakenUp(a, c, r);
    var b := React(a, Requested(c, FAIL), r, 0);
    FailsCleanly(b, s, c, r);
    RunSteps(b, 2, r);
    var es := [(Requested(c, FAIL), 0)] + Steps(2);
    assert es[1..] == Steps(2);
    assert Run(a, es, r) == Run(b, Steps(2), r);
    hide React, Run, ValidSaved, TxSteps;
  }
}
