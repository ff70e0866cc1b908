/**
 * The configuration transaction: a candidate is staged, activated port by port,
 * promoted, and rolled back port by port when anything refuses. Without a managed
 * network, as here, addresses are taken as they are written.
 */
module ConfigTransaction {
  import opened Deadline
  import Control = GatewayController
  import opened ConfigStore

  datatype TxState = Idle | Activating | Promoting | RollingBack | Succeeded | Failed | Uncertain | NoChange

  /** `walked` tells a failure at the end of the rollback from the others; it is a record for the proofs. */
  datatype Tx = Tx(state: TxState, candidate: Saved, previous: Saved, index: nat, waiting: bool, rollbackFailed: bool,
                   result: Result, walked: bool)

  /** Checks and texts that belong to other parts of the program. */
  datatype Rules = Rules(codec: Codec, settingsOk: Settings -> bool, bindOk: string -> bool)

  /**
   * The application as far as this transaction goes. Records for the proofs: the
   * `goal` taken up last, what a start would have loaded `before` it, the ports as
   * they were `asked`, the `points`, every state the files were in since, and the
   * renames `pending` since the directory, as in `base`, was last synchronised.
   */
  datatype App = App(gateway: Control.Gateway, files: Files, selected: Saved, source: Source, tx: Tx,
                     shuttingDown: bool, goal: Saved, before: Saved, asked: Control.Gateway, points: seq<Files>,
                     base: Files, pending: seq<Rename>)

  /** What the surroundings answer in one call. */
  datatype Answers = Answers(writing: Writing, promotion: Promotion, unlink: bool, readActive: bool, readBackup: bool,
                             stop: bool, again: bool)

  predicate Underway(s: TxState) { s == Activating || s == Promoting || s == RollingBack }

  // ------------------------------------------------------------------ a request

  predicate ValidSaved(c: Saved, r: Rules) {
    && (c.schema == 1 || c.schema == 2 || c.schema == 3) && r.settingsOk(c.settings)
    && forall i | 0 <= i < Control.PORT_COUNT :: Control.Acceptable(c.ports, i, r.bindOk)
  }

  predicate SameUarts(c: Saved, s: Saved) {
    forall i | 0 <= i < Control.PORT_COUNT :: c.ports[i].uart == s.ports[i].uart
  }

  /** A changed address is from now on meant literally. */
  function Literal(c: Saved, s: Saved): Saved {
    c.(ports := seq(Control.PORT_COUNT, i requires 0 <= i < Control.PORT_COUNT =>
      if c.ports[i].bind != s.ports[i].bind then c.ports[i].(bindPolicy := 1) else c.ports[i]))
  }

  const NO_SAVED := Saved(0, Settings(0, 0, 0, 0, 0, 0, ""), NO_PORTS)

  function NewTx(state: TxState, c: Saved, p: Saved, r: Result): Tx {
    Tx(state, c, p, 0, false, false, r, false)
  }

  function Moved(a: App, points: seq<Files>): App {
    a.(files := Last(a.files, points), points := a.points + points)
  }

  function Discarding(a: App, unlink: bool): App {
    Moved(a, if unlink then [Discard(a.files, true)] else [])
  }

  /** `gateway_application_request_configuration` while the application runs. */
  function Request(a: App, c: Saved, e: Answers, r: Rules): (App, int) {
    if Underway(a.tx.state) then (a, -1)
    else if !ValidSaved(c, r) || !SameUarts(c, a.selected) then
      (a.(tx := NewTx(Failed, NO_SAVED, NO_SAVED, Invalid)), -1)
    else if c == a.selected then (a.(tx := NewTx(NoChange, NO_SAVED, NO_SAVED, Unchanged)), 0)
    else
      var candidate := Literal(c, a.selected);
      var s := StageResult(candidate, e.writing, r.codec);
      var t := NewTx(Failed, candidate, a.selected, s);
      var b := Moved(a.(tx := t, goal := candidate, before := Startup(a.files, r.codec), asked := a.gateway,
                        points := [a.files]), StagePoints(a.files, candidate, e.writing, r.codec));
      if s != Ok then (Discarding(b, e.unlink), -1)
      else (b.(tx := t.(state := if candidate.ports == a.selected.ports then Promoting else Activating)), 0)
  }

  // --------------------------------------------------------------------- a step

  predicate Terminal(p: Control.Controlled, c: Control.PortConfig) {
    p.current == c && if c.enabled != 0 then p.lifecycle == Control.Ready else p.lifecycle == Control.Disabled
  }

  function BeginRollback(a: App, unlink: bool): App {
    var d := Discarding(a, unlink);
    d.(tx := a.tx.(state := RollingBack, waiting := false,
                   index := if a.tx.candidate.ports == a.tx.previous.ports then Control.PORT_COUNT else 0))
  }

  function Desired(t: Tx): Ports {
    if t.state == Activating then t.candidate.ports else t.previous.ports
  }

  /** A port refused its configuration. */
  function PortFailed(a: App, unlink: bool): App {
    if a.tx.state == RollingBack then a.(tx := a.tx.(waiting := false, rollbackFailed := true, index := a.tx.index + 1))
    else BeginRollback(a, unlink)
  }

  predicate Transient(p: Control.Controlled) {
    p.lifecycle == Control.Starting || p.lifecycle == Control.Reconfiguring || p.lifecycle == Control.RollingBack
    || p.lifecycle == Control.Stopping
  }

  function EndWalk(a: App): App {
    if a.tx.state == RollingBack then a.(selected := a.tx.previous, tx := a.tx.(state := Failed, walked := true))
    else a.(tx := a.tx.(state := Promoting))
  }

  function NextPort(a: App): App { a.(tx := a.tx.(waiting := false, index := a.tx.index + 1)) }

  /** The port at the index is looked at, and asked to take its configuration unless it has it. */
  function AskPort(a: App, e: Answers, r: Rules, now: Tick): App
    requires a.tx.index < Control.PORT_COUNT
  {
    var want := Desired(a.tx)[a.tx.index];
    if Terminal(a.gateway[a.tx.index], want) then NextPort(a)
    else
      var (g, refused) := Control.ApplyCall(a.gateway, Control.Reconfigure(a.tx.index, want, e.stop, e.again),
                                            r.bindOk, now);
      var b := a.(gateway := g);
      if refused != 0 then PortFailed(b, e.unlink) else b.(tx := a.tx.(waiting := true))
  }

  /** The port was asked: once it has come to rest it has taken its configuration or failed. */
  function AwaitPort(a: App, e: Answers): App
    requires a.tx.index < Control.PORT_COUNT
  {
    var p := a.gateway[a.tx.index];
    if Transient(p) then a
    else if Terminal(p, Desired(a.tx)[a.tx.index]) then NextPort(a)
    else PortFailed(a, e.unlink)
  }

  function StepWalk(a: App, e: Answers, r: Rules, now: Tick): App {
    if a.tx.index >= Control.PORT_COUNT then EndWalk(a)
    else if !a.tx.waiting then AskPort(a, e, r, now)
    else AwaitPort(a, e)
  }

  /** The staged file has been promoted, or not. */
  function AfterPromotion(a: App, e: Answers, r: Rules): App {
    var (points, result) := Promote(a.files, e.promotion, r.codec);
    var synced := result == Ok;
    Moved(a, points).(tx := a.tx.(result := result), base := if synced then Last(a.files, points) else a.base,
                      pending := if synced then [] else a.pending + Renames(a.files, e.promotion, r.codec))
  }

  function StepPromoting(a: App, e: Answers, r: Rules): App {
    var b := AfterPromotion(a, e, r);
    var result := b.tx.result;
    if result == Ok || result == Unchanged then
      b.(selected := a.tx.candidate, source := FromActive, tx := b.tx.(state := Succeeded))
    else
      var (loaded, config, source) := Select(b.files, e.readActive, e.readBackup, r.codec);
      if result == DurabilityUncertain && (loaded == Ok || loaded == Absent) && config == a.tx.candidate then
        b.(selected := a.tx.candidate, source := source, tx := b.tx.(state := Uncertain))
      else BeginRollback(b, e.unlink)
  }

  /** `config_transaction_step`. */
  function StepTx(a: App, e: Answers, r: Rules, now: Tick): App {
    if a.shuttingDown && Underway(a.tx.state) then Discarding(a, e.unlink).(tx := a.tx.(state := Failed))
    else if a.tx.state == Activating || a.tx.state == RollingBack then StepWalk(a, e, r, now)
    else if a.tx.state == Promoting then StepPromoting(a, e, r)
    else a
  }

  // ------------------------------------------------------------------- histories

  datatype Event = Requested(config: Saved, answers: Answers) | PortsStepped(turns: seq<Control.Answers>)
                 | TxStepped(answers: Answers) | ShutDown(stops: seq<bool>)

  function React(a: App, e: Event, r: Rules, now: Tick): App {
    match e
    case Requested(c, answers) => if a.shuttingDown then a else Request(a, c, answers, r).0
    case PortsStepped(s) => a.(gateway := Control.ApplyCall(a.gateway, Control.StepAll(s), r.bindOk, now).0)
    case TxStepped(answers) => StepTx(a, answers, r, now)
    case ShutDown(stops) =>
      a.(gateway := Control.ApplyCall(a.gateway, Control.Shutdown(stops), r.bindOk, now).0, shuttingDown := true)
  }

  function Run(a: App, es: seq<(Event, Tick)>, r: Rules): App
    decreases |es|
  {
    if es == [] then a else Run(React(a, es[0].0, r, es[0].1), es[1..], r)
  }

  function InitApp(g: Control.Gateway, f: Files, selected: Saved, source: Source, r: Rules): App {
    App(g, f, selected, source, NewTx(Idle, NO_SAVED, NO_SAVED, Ok), false, Startup(f, r.codec), Startup(f, r.codec),
        g, [f], f, [])
  }
}
