/**
 * Two runs from the default configuration that end with a ready port whose
 * serial side does not run what the controller reports.
 */
module ControllerSlips {
  import opened Base
  import opened Deadline
  import Port = PortModel
  import opened GatewayController
  import opened ControllerProperties

  /** `gateway_configuration_defaults`. */
  function Default(i: Word): PortConfig {
    PortConfig(1, i, 0, 9600, 8, 0, 1, ModbusTcp, ANY_ADDRESS, 0, (502 + i) % TWO32, 0, 0, 1)
  }

  const DEFAULTS: seq<PortConfig> := seq(PORT_COUNT, i requires 0 <= i < PORT_COUNT => Default(i))

  predicate AnyText(s: string) { true }

  /** A backend that opens, and takes what is staged or only what was before. */
  function Serial(takes: bool): Port.Backend { Port.Backend(true, true, None, true, takes, true, true) }

  function Turn(takes: bool, listens: bool): Answers { Answers([], Serial(takes), listens, false) }

  /** Another speed for the first port, under the revision `r`. */
  function Faster(r: Word): PortConfig { Default(0).(baud := 19200, revision := r) }

  function Opening(r: Word): seq<(Call, Tick)> {
    [(StartAll, 0), (StepAll([Turn(true, true)]), 1), (Reconfigure(0, Faster(r), true, true), 2)]
  }

  /** The serial side refuses a configuration that comes under the old revision. */
  const REFUSED: seq<(Call, Tick)> := Opening(1) + [(StepAll([Turn(false, true)]), 3)]

  /** The new listener will not start, and the serial side refuses to go back. */
  const STUCK: seq<(Call, Tick)> := Opening(2) + [(StepAll([Turn(true, false)]), 3), (StepAll([Turn(false, true)]), 4)]

  // ------------------------------------------------------------ one port at a time

  lemma DefaultsAccepted(k: nat)
    requires k < PORT_COUNT
    ensures Acceptable(DEFAULTS, k, AnyText)
  {
  }

  /** A port that still carries its default, whatever it is doing. */
  predicate Plain(g: Gateway) {
    forall k | 1 <= k < PORT_COUNT ::
      g[k].current == Default(k) && g[k].lifecycle != Reconfiguring && !g[k].pendingDisable
  }

  lemma PlainStays(g: Gateway, c: Call, now: Tick)
    requires Plain(g) && (c.StartAll? || c.StepAll? || (c.Reconfigure? && c.index == 0))
    ensures Plain(ApplyCall(g, c, AnyText, now).0)
  {
    hide StepRuntime, Port.Start, ReconfigurePort, Port.Stop, Port.Stoppable, AnswersFor, Acceptable;
  }

  /** The first port once it is ready with its default. */
  predicate Opened(p: Controlled, c: PortConfig) {
    && p.lifecycle == Ready && p.current == p.knownGood == c && p.owned && !p.networkWait && !p.rebind
       && !p.pendingDisable
    && p.runtime.state == Port.Ready && p.runtime.current == CoreConfig(c)
    && p.runtime.active.None? && p.runtime.queue == []
  }

  lemma Opens(c: PortConfig)
    requires c.enabled == 1
    ensures Opened(StepPort(StartPort(InitPort(c, NoError), 0), 1, Turn(true, true)), c)
  {
    hide CoreConfig;
  }

  /** The first port while its serial side is asked to change. */
  predicate Asked(p: Controlled, r: Word) {
    && p.lifecycle == Reconfiguring && p.current == p.knownGood == Default(0) && p.staged == Faster(r)
    && !p.owned && !p.networkWait && !p.rebind && !p.pendingDisable
    && p.runtime.state == Port.Reconfiguring && p.runtime.current == CoreConfig(Default(0))
    && p.runtime.staged == CoreConfig(Faster(r)) && p.runtime.deadline == After(2, TIMEOUT)
    && p.runtime.active.None? && p.runtime.queue == []
  }

  lemma Asks(p: Controlled, r: Word)
    requires Opened(p, Default(0))
    ensures ReconfigurePort(p, Faster(r), 2, true, true).1 == 0
    ensures Asked(ReconfigurePort(p, Faster(r), 2, true, true).0, r)
  {
    ChangesRuntime(p.runtime, CoreConfig(Faster(r)));
    hide Port.Reconfigure;
  }

  lemma ChangesRuntime(r: Port.Port, c: Port.Config)
    requires r.state == Port.Ready && r.active.None? && r.queue == [] && Port.ConfigValid(c)
    ensures var q := Port.Reconfigure(r, c, 2, TIMEOUT);
      && q.state == Port.Reconfiguring && q.current == r.current && q.staged == c && q.deadline == After(2, TIMEOUT)
      && q.active.None? && q.queue == []
  {
  }

  lemma Unexpired(now: Tick)
    requires now == 3 || now == 4
    ensures !Expired(After(2, TIMEOUT), now) && !Expired(After(3, TIMEOUT), now)
  {
  }

  lemma RefusalSlips(p: Controlled)
    requires Asked(p, 1)
    ensures var q := StepPort(p, 3, Turn(false, true));
            q.lifecycle == Ready && q.current == Faster(1) && q.runtime.current == CoreConfig(Default(0))
  {
    Unexpired(3);
    hide Expired, After;
  }

  /** The first port while the serial side is asked to go back. */
  lemma StuckSlips(p: Controlled)
    requires Asked(p, 2)
    ensures var q := StepPort(StepPort(p, 3, Turn(true, false)), 4, Turn(false, true));
            q.lifecycle == Ready && q.current == Default(0) && q.runtime.current == CoreConfig(Faster(2))
  {
    GoesBack(p);
    var q := StepPort(p, 3, Turn(true, false));
    Unexpired(4);
    assert StepRuntime(q, 4, Turn(false, true)) == Port.Step(q.runtime, 4, Serial(false));
    hide Expired, After;
  }

  lemma GoesBack(p: Controlled)
    requires Asked(p, 2)
    ensures var q := StepPort(p, 3, Turn(true, false));
      && q.lifecycle == RollingBack && q.current == Default(0) && !q.owned && !q.networkWait
      && q.runtime.state == Port.Reconfiguring && q.runtime.current == CoreConfig(Faster(2))
      && q.runtime.deadline == After(3, TIMEOUT)
  {
    Unexpired(3);
    var r := StepRuntime(p, 3, Turn(true, false));
    assert r.state == Port.Ready && r.current == CoreConfig(Faster(2)) && r.active.None? && r.queue == [];
    GoesBackRuntime(r, CoreConfig(Default(0)));
    hide Expired, After, Port.Reconfigure;
  }

  lemma GoesBackRuntime(r: Port.Port, c: Port.Config)
    requires r.state == Port.Ready && r.active.None? && r.queue == [] && Port.ConfigValid(c)
    ensures var q := Port.Reconfigure(r, c, 3, TIMEOUT);
            q.state == Port.Reconfiguring && q.current == r.current && q.deadline == After(3, TIMEOUT)
  {
  }

  // ------------------------------------------------------------------- the runs

  lemma RunOnce(g: Gateway, c: Call, now: Tick, cs: seq<(Call, Tick)>)
    ensures Run(g, [(c, now)] + cs, AnyText) == Run(ApplyCall(g, c, AnyText, now).0, cs, AnyText)
  {
    assert ([(c, now)] + cs)[1..] == cs;
  }

  /** The common beginning: the first port is open, and is asked for another speed. */
  lemma OpeningAsks(r: Word, rest: seq<(Call, Tick)>) returns (g: Gateway)
    requires r != 0
    ensures Run(InitAll(DEFAULTS, AnyText), Opening(r) + rest, AnyText) == Run(g, rest, AnyText)
    ensures Asked(g[0], r)
  {
    hide StepPort, StartPort, ReconfigurePort, Run, Acceptable, InitPort, Asked, Opened, Default, Faster;
    var g0 := InitAll(DEFAULTS, AnyText);
    DefaultsAccepted(0);
    DefaultIsPlain();
    var g1 := ApplyCall(g0, StartAll, AnyText, 0).0;
    PlainStays(g0, StartAll, 0);
    var turn := StepAll([Turn(true, true)]);
    var g2 := ApplyCall(g1, turn, AnyText, 1).0;
    PlainStays(g1, turn, 1);
    OpensDefault();
    var ask := Reconfigure(0, Faster(r), true, true);
    g := ApplyCall(g2, ask, AnyText, 2).0;
    Asks(g2[0], r);
    FasterAccepted(g2, r);
    assert Opening(r) + rest == [(StartAll, 0)] + ([(turn, 1)] + ([(ask, 2)] + rest));
    RunOnce(g0, StartAll, 0, [(turn, 1)] + ([(ask, 2)] + rest));
    RunOnce(g1, turn, 1, [(ask, 2)] + rest);
    RunOnce(g2, ask, 2, rest);
  }

  lemma OpensDefault()
    ensures Opened(StepPort(StartPort(InitPort(DEFAULTS[0], NoError), 0), 1, Turn(true, true)), Default(0))
  {
    Opens(Default(0));
    hide StepPort, StartPort, InitPort, Opened;
  }

  lemma DefaultIsPlain()
    ensures Plain(InitAll(DEFAULTS, AnyText))
  {
    hide Acceptable;
  }

  lemma FasterAccepted(g: Gateway, r: Word)
    requires Plain(g) && r != 0
    ensures Acceptable(Replacement(g, 0, Faster(r)), 0, AnyText)
  {
  }

  /** Under the old revision: reported as changed, and not changed. */
  lemma RefusedUnnoticed()
    ensures var p := Run(InitAll(DEFAULTS, AnyText), REFUSED, AnyText)[0];
            p.lifecycle == Ready && p.current == Faster(1)
            && p.runtime.current == CoreConfig(Default(0)) != CoreConfig(p.current)
  {
    var last := StepAll([Turn(false, true)]);
    var g := OpeningAsks(1, [(last, 3)]);
    assert [(last, 3)] + [] == [(last, 3)];
    RunOnce(g, last, 3, []);
    RefusalSlips(g[0]);
    hide StepPort, Opening, Asked, InitAll;
  }

  /** While rolling back: reported as unchanged, and changed. */
  lemma StuckUnnoticed()
    ensures var p := Run(InitAll(DEFAULTS, AnyText), STUCK, AnyText)[0];
            p.lifecycle == Ready && p.current == Default(0)
            && p.runtime.current == CoreConfig(Faster(2)) != CoreConfig(p.current)
  {
    var back, last := StepAll([Turn(true, false)]), StepAll([Turn(false, true)]);
    var g := OpeningAsks(2, [(back, 3), (last, 4)]);
    assert [(back, 3)] + ([(last, 4)] + []) == [(back, 3), (last, 4)];
    RunOnce(g, back, 3, [(last, 4)] + []);
    RunOnce(ApplyCall(g, back, AnyText, 3).0, last, 4, []);
    StuckSlips(g[0]);
    hide StepPort, Opening, Asked, InitAll;
  }
}
