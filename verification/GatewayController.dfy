/**
 * The lifecycle of the eight serial ports above their runtimes: who owns a
 * network listener when, and which configuration a port carries.
 */
module GatewayController {
  import opened Base
  import opened Deadline
  import Port = PortModel
  import PortProperties

  const PORT_COUNT := 8
  const TIMEOUT: Tick := 1000

  datatype Lifecycle = Disabled | Starting | Ready | Reconfiguring | RollingBack | Stopping | Degraded | Failed
                     | NetworkWait

  datatype Error = NoError | InvalidConfig | DuplicateUart | DuplicateEndpoint | UnsupportedTransport | BackendStart
                 | ListenerStart | ReconfigureFailed | RollbackFailed | StopFailed

  datatype Transport = ModbusTcp | ModbusUdp | RtuUdp | RawTcp | RawUdp | UnknownTransport

  /** `bind` is the address text, `bindPolicy` how it follows the network settings. */
  datatype PortConfig = PortConfig(enabled: Word, uart: Word, mode: Word, baud: nat, dataBits: Word, parity: Word,
                                   stopBits: Word, transport: Transport, bind: string, bindPolicy: Word, endpoint: Word,
                                   specialBaudEnabled: Word, specialBaud: nat, revision: Word)

  const BAUDS: seq<nat> := [50, 75, 110, 134, 150, 200, 300, 600, 1200, 1800, 2400, 4800, 9600, 19200, 38400, 57600,
                            115200, 230400, 460800, 921600]

  // -------------------------------------------------------------- validation

  /** `validate_one`; `bindOk` is the parser's verdict on the address text. */
  function ValidateOne(c: PortConfig, bindOk: string -> bool): Error {
    if c.uart >= PORT_COUNT || c.mode > 3 || c.dataBits < 5 || c.dataBits > 8 || c.parity > 2
       || (c.stopBits != 1 && c.stopBits != 2) || c.revision == 0 || c.enabled > 1 || c.specialBaudEnabled > 1
       || !bindOk(c.bind) then InvalidConfig
    else if (c.specialBaudEnabled == 0 && c.baud !in BAUDS)
            || (c.specialBaudEnabled == 1 && (c.specialBaud == 0 || c.specialBaud >= TWO32)) then InvalidConfig
    else if c.bindPolicy > 3 then InvalidConfig
    else if c.enabled == 0 then NoError
    else if c.transport == UnknownTransport then UnsupportedTransport
    else if c.endpoint == 0 || c.endpoint > 65535 then InvalidConfig
    else NoError
  }

  predicate Tcp(t: Transport) { t == ModbusTcp || t == RawTcp }

  predicate Udp(t: Transport) { t == ModbusUdp || t == RtuUdp || t == RawUdp }

  const ANY_ADDRESS := "0.0.0.0"

  predicate SameEndpoint(a: PortConfig, b: PortConfig) {
    && ((Tcp(a.transport) && Tcp(b.transport)) || (Udp(a.transport) && Udp(b.transport)))
    && a.endpoint == b.endpoint && (a.bind == b.bind || a.bind == ANY_ADDRESS || b.bind == ANY_ADDRESS)
  }

  /** Two enabled ports cannot both have these. */
  predicate Clash(a: PortConfig, b: PortConfig) {
    a.enabled != 0 && b.enabled != 0 && (a.uart == b.uart || SameEndpoint(a, b))
  }

  /** Port `k` of a whole configuration is acceptable. */
  predicate Acceptable(ports: seq<PortConfig>, k: nat, bindOk: string -> bool)
    requires k < |ports|
  {
    && ValidateOne(ports[k], bindOk) == NoError
    && forall j | 0 <= j < |ports| && j != k :: !Clash(ports[k], ports[j])
  }

  /**
   * The error port `k` ends with when it is compared with the ports below `n`: that
   * of the last clash found, else that of its own configuration.
   */
  function Verdict(ports: seq<PortConfig>, k: nat, n: nat, bindOk: string -> bool): Error
    requires k < |ports| && n <= |ports|
    decreases n
  {
    if n == 0 then ValidateOne(ports[k], bindOk)
    else if n - 1 != k && Clash(ports[k], ports[n - 1]) then
      if SameEndpoint(ports[k], ports[n - 1]) then DuplicateEndpoint else DuplicateUart
    else Verdict(ports, k, n - 1, bindOk)
  }

  lemma {:induction false} VerdictBelow(ports: seq<PortConfig>, k: nat, n: nat, bindOk: string -> bool)
    requires k < |ports| && n <= |ports|
    ensures Verdict(ports, k, n, bindOk) == NoError <==>
            ValidateOne(ports[k], bindOk) == NoError && forall j | 0 <= j < n && j != k :: !Clash(ports[k], ports[j])
    decreases n
  {
    hide ValidateOne, Clash, SameEndpoint;
    if n > 0 {
      VerdictBelow(ports, k, n - 1, bindOk);
    }
  }

  /** A port is left without an error exactly when its own configuration and its company are acceptable. */
  lemma VerdictIsAcceptance(ports: seq<PortConfig>, k: nat, bindOk: string -> bool)
    requires k < |ports|
    ensures Verdict(ports, k, |ports|, bindOk) == NoError <==> Acceptable(ports, k, bindOk)
  {
    VerdictBelow(ports, k, |ports|, bindOk);
    hide ValidateOne, Clash;
  }

  // -------------------------------------------------------------------- state

  /** What the controller asks of the listener of a port; `ok` is the answer. */
  datatype ListenerOp = Started(ok: bool) | Stopped(ok: bool)

  /** One port; `log` is a record for the proofs. */
  datatype Controlled = Controlled(current: PortConfig, staged: PortConfig, knownGood: PortConfig, runtime: Port.Port,
                                   lifecycle: Lifecycle, lastError: Error, owned: bool, pendingDisable: bool,
                                   rebind: bool, networkWait: bool, log: seq<ListenerOp>)

  function CoreConfig(c: PortConfig): Port.Config {
    Port.Config(c.revision, c.mode, (if c.specialBaudEnabled != 0 then c.specialBaud else c.baud) % TWO32, c.dataBits,
                c.parity, c.stopBits, c.specialBaudEnabled, c.specialBaud % TWO32, TransportCode(c.transport),
                c.endpoint)
  }

  function TransportCode(t: Transport): Word {
    match t
    case ModbusTcp => 0
    case ModbusUdp => 1
    case RtuUdp => 2
    case RawTcp => 3
    case RawUdp => 4
    case UnknownTransport => 5
  }

  /** A port as `gateway_controller_init` leaves it. */
  function InitPort(c: PortConfig, e: Error): Controlled {
    Controlled(c, NO_CONFIG, c, Port.Init(CoreConfig(c)), if e == NoError then Disabled else Failed, e,
               false, false, false, false, [])
  }

  const NO_CONFIG := PortConfig(0, 0, 0, 0, 0, 0, 0, ModbusTcp, "", 0, 0, 0, 0, 0)

  // ------------------------------------------------------------ the listener

  function StartAt(p: Controlled, ok: bool): Controlled {
    p.(owned := p.owned || ok, log := p.log + [Started(ok)])
  }

  /** `transport_stop`: only an owned listener is asked. */
  function StopListener(p: Controlled, ok: bool): Controlled {
    if p.owned then p.(owned := !ok, log := p.log + [Stopped(ok)]) else p
  }

  // ------------------------------------------------------------------ the step

  /** What a listener may do to the runtime while it is stepped. */
  predicate Permitted(c: PortProperties.Call) {
    c.CallSubmit? || c.CallStep? || c.CallCancel? || c.CallDetach? || c.CallReport?
  }

  function Listen(r: Port.Port, calls: seq<PortProperties.Call>, now: Tick): Port.Port
    decreases |calls|
  {
    if calls == [] then r
    else Listen(if Permitted(calls[0]) then PortProperties.Apply(r, calls[0], now) else r, calls[1..], now)
  }

  /** The surroundings of a port in one step; `again` answers a second start of the listener. */
  datatype Answers = Answers(calls: seq<PortProperties.Call>, backend: Port.Backend, start: bool, again: bool)

  function RequestStop(p: Controlled, now: Tick): Controlled {
    p.(runtime := Port.Stop(p.runtime, now, TIMEOUT))
  }

  predicate Running(s: Port.PortState) {
    s == Port.Ready || s == Port.Active || s == Port.Waiting || s == Port.Recovering
  }

  function StartListener(p: Controlled, now: Tick, ok: bool): Controlled {
    if p.networkWait then p.(lifecycle := NetworkWait)
    else if ok then StartAt(p, true).(lifecycle := Ready, lastError := NoError)
    else
      var q := StartAt(p, false).(lastError := ListenerStart);
      RequestStop(q, now).(lifecycle := if Port.Stoppable(p.runtime, TIMEOUT) then Stopping else Failed)
  }

  /** The staged configuration becomes current. */
  function Adopt(p: Controlled): Controlled {
    p.(current := p.staged, knownGood := p.staged)
  }

  function AdoptRevision(r: Port.Port, revision: Word): Port.Port {
    r.(current := r.current.(revision := revision), knownGood := r.knownGood.(revision := revision))
  }

  function StepRebind(p: Controlled, a: Answers): Controlled {
    if p.runtime.state == Port.Ready then
      var q := p.(rebind := false);
      if p.networkWait then q.(lifecycle := NetworkWait)
      else if a.start then
        Adopt(StartAt(q, true)).(runtime := AdoptRevision(p.runtime, p.staged.revision), lifecycle := Ready,
                                 lastError := NoError)
      else
        StartAt(StartAt(q, false), a.again).(lastError := ListenerStart, lifecycle := if a.again then Ready else Failed)
    else if p.runtime.state == Port.Failed || p.runtime.state == Port.Degraded then
      p.(rebind := false, lifecycle := Failed, lastError := ReconfigureFailed)
    else p
  }

  predicate CanReconfigure(p: Controlled, c: PortConfig) {
    Port.Reconfigurable(p.runtime, CoreConfig(c), TIMEOUT)
  }

  function Resettle(p: Controlled, c: PortConfig, now: Tick): Controlled {
    p.(runtime := Port.Reconfigure(p.runtime, CoreConfig(c), now, TIMEOUT))
  }

  /** The serial side has answered a reconfiguration. */
  function Reconfigured(p: Controlled, now: Tick, ok: bool): Controlled {
    if p.runtime.current.revision != p.staged.revision then StartListener(p.(lastError := ReconfigureFailed), now, ok)
    else if p.networkWait then Adopt(p).(lifecycle := NetworkWait, lastError := NoError)
    else if ok then Adopt(StartAt(p, true)).(lifecycle := Ready, lastError := NoError)
    else
      var q := StartAt(p, false).(lastError := ListenerStart);
      Resettle(q, p.knownGood, now).(lifecycle := if CanReconfigure(p, p.knownGood) then RollingBack else Failed)
  }

  function StepReconfiguring(p: Controlled, now: Tick, a: Answers): Controlled {
    if p.rebind then StepRebind(p, a)
    else if p.runtime.state == Port.Ready then Reconfigured(p, now, a.start)
    else if p.runtime.state == Port.Failed then p.(lifecycle := Failed, lastError := RollbackFailed)
    else p
  }

  function StepRollingBack(p: Controlled, a: Answers): Controlled {
    if p.runtime.state == Port.Ready then
      (if p.networkWait then p.(lifecycle := NetworkWait)
       else StartAt(p, a.start).(lifecycle := if a.start then Ready else Failed))
    else if p.runtime.state == Port.Failed then p.(lifecycle := Failed)
    else p
  }

  function StepStopping(p: Controlled): Controlled {
    if p.runtime.state == Port.Disabled then
      (if p.pendingDisable then Adopt(p).(lifecycle := Disabled)
       else p.(lifecycle := if p.lastError == NoError then Disabled else Failed)).(pendingDisable := false)
    else if p.runtime.state == Port.Failed then p.(lifecycle := Failed, lastError := StopFailed)
    else p
  }

  function StepLifecycle(p: Controlled, now: Tick, a: Answers): Controlled {
    match p.lifecycle
    case Starting =>
      if p.runtime.state == Port.Ready then StartListener(p, now, a.start)
      else if p.runtime.state == Port.Degraded || p.runtime.state == Port.Failed then
        p.(lifecycle := Failed, lastError := BackendStart)
      else p
    case Ready =>
      if p.runtime.state == Port.Degraded || p.runtime.state == Port.Failed then p.(lifecycle := Degraded) else p
    case Reconfiguring => StepReconfiguring(p, now, a)
    case RollingBack => StepRollingBack(p, a)
    case Stopping => StepStopping(p)
    case _ => p
  }

  /** The runtime after the listener's turn and its own. */
  function StepRuntime(p: Controlled, now: Tick, a: Answers): Port.Port {
    Port.Step(if p.owned then Listen(p.runtime, a.calls, now) else p.runtime, now, a.backend)
  }

  /** `step_port`. */
  function StepPort(p: Controlled, now: Tick, a: Answers): Controlled {
    StepLifecycle(p.(runtime := StepRuntime(p, now, a)), now, a)
  }

  // --------------------------------------------------------------- other calls

  /** One port of `gateway_controller_start`. */
  function StartPort(p: Controlled, now: Tick): Controlled {
    if p.lifecycle != Disabled || p.current.enabled == 0 then p
    else if Port.Allowed(p.runtime.state, Port.Starting) then
      p.(runtime := Port.Start(p.runtime, now, TIMEOUT), lifecycle := Starting)
    else p.(runtime := Port.Start(p.runtime, now, TIMEOUT), lifecycle := Failed, lastError := BackendStart)
  }

  /** Only the listener's address changes. */
  predicate OnlyRebinds(p: Controlled, c: PortConfig) {
    c.(bind := p.current.bind, revision := p.current.revision, bindPolicy := p.current.bindPolicy) == p.current
  }

  predicate DetachFails(r: Port.Port) { r.active.Some? && !Port.Allowed(r.state, Port.Recovering) }

  /** A port whose lifecycle permits it takes a configuration that disables it. */
  function Disable(p: Controlled, c: PortConfig, now: Tick, stop: bool): (Controlled, int) {
    if p.lifecycle == Disabled then (p.(current := c), 0) else
    var q := StopListener(p, stop);
    if p.owned && !stop then (q.(lastError := StopFailed), -1) else
    var r := RequestStop(q.(staged := c, pendingDisable := true, lastError := NoError), now);
    if Port.Stoppable(p.runtime, TIMEOUT) then (r.(lifecycle := Stopping), 0) else (r, -1)
  }

  /** A disabled port is enabled: its runtime starts afresh. */
  function Enable(p: Controlled, c: PortConfig, now: Tick): (Controlled, int) {
    var q := p.(current := c, knownGood := c, runtime := Port.Start(Port.Init(CoreConfig(c)), now, TIMEOUT));
    if Port.Allowed(Port.Disabled, Port.Starting) then (q.(lifecycle := Starting), 0) else (q, -1)
  }

  function Rebind(p: Controlled, c: PortConfig, now: Tick, stop: bool): (Controlled, int) {
    var q := StopListener(p, stop);
    if p.owned && !stop then (q.(lastError := StopFailed), -1) else
    var r := q.(runtime := Port.Detach(p.runtime, now));
    if DetachFails(p.runtime) then (r.(lifecycle := Failed), -1)
    else (r.(staged := c, rebind := true, lifecycle := Reconfiguring), 0)
  }

  /** `again` answers the start of the old listener should the runtime refuse. */
  function Change(p: Controlled, c: PortConfig, now: Tick, stop: bool, again: bool): (Controlled, int) {
    var q := StopListener(p, stop);
    if p.owned && !stop then (q.(lastError := StopFailed), -1) else
    var r := Resettle(q.(staged := c, lastError := NoError), c, now);
    if CanReconfigure(p, c) then (r.(lifecycle := Reconfiguring), 0) else (StartAt(r, again), -1)
  }

  /** The part of `gateway_controller_reconfigure` behind the check of the whole configuration. */
  function ReconfigurePort(p: Controlled, c: PortConfig, now: Tick, stop: bool, again: bool): (Controlled, int) {
    if p.lifecycle != Ready && p.lifecycle != Disabled && p.lifecycle != NetworkWait then (p, -1)
    else if c.enabled == 0 then Disable(p, c, now, stop)
    else if p.lifecycle == Disabled then Enable(p, c, now)
    else if OnlyRebinds(p, c) then Rebind(p, c, now, stop)
    else Change(p, c, now, stop, again)
  }

  /** `gateway_controller_network_wait` for one port. */
  function AwaitNetwork(p: Controlled, wait: bool, now: Tick, stop: bool): (Controlled, int) {
    var q := p.(networkWait := wait);
    if !wait || p.lifecycle != Ready then (q, 0) else
    var s := StopListener(q, stop);
    if p.owned && !stop then (s, -1) else
    var r := s.(runtime := Port.Detach(p.runtime, now));
    if DetachFails(p.runtime) then (r, -1) else (r.(lifecycle := NetworkWait), 0)
  }

  /** One port of `gateway_controller_shutdown`. */
  function ShutPort(p: Controlled, now: Tick, stop: bool): Controlled {
    var q := StopListener(p, stop).(lastError := if p.owned && !stop then StopFailed else NoError);
    if p.runtime.state == Port.Disabled || p.runtime.state == Port.Stopping then q
    else if Port.Stoppable(p.runtime, TIMEOUT) then RequestStop(q, now).(lifecycle := Stopping)
    else RequestStop(q, now).(lifecycle := Failed, lastError := StopFailed)
  }

  // -------------------------------------------------------------- all the ports

  type Gateway = s: seq<Controlled> | |s| == PORT_COUNT witness seq(PORT_COUNT, _ => InitPort(NO_CONFIG, NoError))

  /** `gateway_controller_init` with any eight configurations. */
  function InitAll(cs: seq<PortConfig>, bindOk: string -> bool): Gateway
    requires |cs| == PORT_COUNT
  {
    seq(PORT_COUNT, k requires 0 <= k < PORT_COUNT => InitPort(cs[k], Verdict(cs, k, PORT_COUNT, bindOk)))
  }

  /** The configuration the other ports have, with `c` for port `i`. */
  function Replacement(g: Gateway, i: nat, c: PortConfig): seq<PortConfig>
    requires i < PORT_COUNT
  {
    seq(PORT_COUNT, k requires 0 <= k < PORT_COUNT => g[k].current)[i := c]
  }

  datatype Call = StartAll | StepAll(answers: seq<Answers>)
                | Reconfigure(index: nat, config: PortConfig, stop: bool, again: bool)
                | WaitForNetwork(index: nat, wait: bool, stop: bool) | Shutdown(stops: seq<bool>)

  /** Missing answers are failures. */
  function AnswersFor(s: seq<Answers>, i: nat): Answers {
    if i < |s| then s[i] else Answers([], Port.Backend(false, false, None, false, false, false, false), false, false)
  }

  /** A call of the controller: the new ports and the result, 0 or -1. */
  function ApplyCall(g: Gateway, c: Call, bindOk: string -> bool, now: Tick): (Gateway, int) {
    match c
    case StartAll => (seq(PORT_COUNT, k requires 0 <= k < PORT_COUNT => StartPort(g[k], now)), 0)
    case StepAll(s) => (seq(PORT_COUNT, k requires 0 <= k < PORT_COUNT => StepPort(g[k], now, AnswersFor(s, k))), 0)
    case Reconfigure(i, config, stop, again) =>
      if i >= PORT_COUNT || !Acceptable(Replacement(g, i, config), i, bindOk) then (g, -1)
      else
        var (p, r) := ReconfigurePort(g[i], config, now, stop, again);
        (g[i := p], r)
    case WaitForNetwork(i, wait, stop) =>
      if i >= PORT_COUNT then (g, -1)
      else
        var (p, r) := AwaitNetwork(g[i], wait, now, stop);
        (g[i := p], r)
    case Shutdown(stops) =>
      (seq(PORT_COUNT, k requires 0 <= k < PORT_COUNT => ShutPort(g[k], now, k < |stops| && stops[k])), 0)
  }
}
