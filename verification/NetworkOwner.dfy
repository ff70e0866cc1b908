/**
 * The single owner of the network policy: it keeps the DHCP clients, rebuilds
 * the wanted network in every step and writes it through one serialized writer.
 */
module NetworkOwner {
  import opened Base
  import opened Deadline
  import opened DhcpClient
  import opened DhcpLease

  // ------------------------------------------------------------- observations

  datatype LanView = LanView(present: bool, up: bool, link: bool, mac: Mac,
                             address: string, netmask: string, broadcast: string)

  datatype View = View(first: LanView, second: LanView, unsupported: bool, defaultLan: nat, defaultRoutes: nat,
                       gateway: string, dns: (string, string))

  predicate SameLan(a: LanView, b: LanView) {
    a.up == b.up && a.address == b.address && a.netmask == b.netmask && a.broadcast == b.broadcast
  }

  /** `equal`: the fields a write can change. */
  predicate Same(a: View, b: View) {
    && SameLan(a.first, b.first) && SameLan(a.second, b.second)
    && a.defaultLan == b.defaultLan && a.gateway == b.gateway && a.dns == b.dns
  }

  const DIGITS := "0123456789"

  function Decimal(n: nat): string {
    if n < 10 then [DIGITS[n]] else Decimal(n / 10) + [DIGITS[n % 10]]
  }

  /** `gateway_ipv4_format`. */
  function Dotted(w: Word): string {
    Decimal(w / 0x100_0000) + "." + Decimal(w / 0x1_0000 % 256) + "." + Decimal(w / 256 % 256) + "." + Decimal(w % 256)
  }

  // -------------------------------------------------------------------- policy

  datatype LanPolicy = LanPolicy(dhcp: bool, address: string, netmask: string, gateway: string,
                                 broadcast: Option<string>)

  /** `broadcast` is what the profile gives for the LAN; LANs are numbered 1 and 2, 0 is none. */
  datatype Policy = Policy(first: LanPolicy, second: LanPolicy, defaultLan: nat, dnsLan: nat, automaticDns: bool,
                           dns: (string, string), resolver: string) {
    function At(lan: nat): LanPolicy { if lan == 1 then first else second }
  }

  /** Checks and texts that belong to other modules of the program. */
  datatype Checks = Checks(policy: Policy -> bool, settings: View -> bool,
                           resolver: (string, (string, string)) -> Option<string>)

  // --------------------------------------------------------------------- state

  /** `clock` is a record for the proofs, as are `last`, `nextAt`, `epoch` and `log` below. */
  datatype LanState = LanState(client: Client, open: bool, probeAt: Tick, clock: Clock)

  /** What the owner does at its provider; a write it asks for is begun or refused. */
  datatype Op = Looked(view: Option<View>, at: nat) | Began(epoch: nat) | Refused(epoch: nat) | Cancelled(ok: bool)
              | Polled(r: int)

  datatype Owner = Owner(policy: Policy, first: LanState, second: LanState, observed: View, target: View, writing: View,
                         resolver: string, nextObserve: Tick, retryAt: Tick, jobDeadline: Tick, generation: Word,
                         jobGeneration: Word, job: bool, canceling: bool, dirty: bool, ready: bool, settled: bool,
                         error: nat, active: bool, stopping: bool, nextXid: Word,
                         last: nat, nextAt: nat, epoch: nat, log: seq<Op>) {
    function At(lan: nat): LanState { if lan == 1 then first else second }
    function Put(lan: nat, l: LanState): Owner { if lan == 1 then this.(first := l) else this.(second := l) }
    function Did(op: Op): Owner { this.(log := log + [op]) }
  }

  /** One call of a DHCP client. */
  function Do(l: LanState, e: Event, now: nat): LanState {
    l.(client := React(l.client, e, Tick32(now)), clock := Advance(l.clock, l.client, e, now))
  }

  // -------------------------------------------------------------------- target

  function LanTarget(v: LanView, p: LanPolicy, d: Client): Option<LanView> {
    if !v.present then None
    else if !p.dhcp then
      (match p.broadcast
       case None => None
       case Some(b) => Some(v.(up := true, address := p.address, netmask := p.netmask, broadcast := b)))
    else if d.valid then
      Some(v.(up := true, address := Dotted(d.lease.address), netmask := Dotted(d.lease.netmask),
              broadcast := Dotted(d.lease.broadcast)))
    else Some(v.(up := true, address := "", netmask := "", broadcast := ""))
  }

  function Gateway(p: LanPolicy, d: Client): string {
    if !p.dhcp then p.gateway
    else if d.valid && d.lease.router.Some? then Dotted(d.lease.router.value) else ""
  }

  function LeasedDns(d: Client): (string, string) {
    if !d.valid then ("", "")
    else (if |d.lease.dns| > 0 then Dotted(d.lease.dns[0]) else "",
          if |d.lease.dns| > 1 then Dotted(d.lease.dns[1]) else "")
  }

  /** The name servers of the target and the resolver text, if the text can be written. */
  function Names(p: Policy, d1: Client, d2: Client, k: Checks): Option<((string, string), string)> {
    if !p.automaticDns then Some((p.dns, p.resolver)) else
    var source := if p.dnsLan != 0 then p.dnsLan else p.defaultLan;
    var dns := if source == 0 then ("", "") else LeasedDns(if source == 1 then d1 else d2);
    match k.resolver(p.resolver, dns)
    case None => None
    case Some(text) => Some((dns, text))
  }

  /** `target`: the network wanted by the policy and the leases held now. */
  function Target(p: Policy, seen: View, d1: Client, d2: Client, k: Checks): Option<(View, string)> {
    var a := LanTarget(seen.first, p.first, d1);
    var b := LanTarget(seen.second, p.second, d2);
    if a.None? || b.None? then None else
    var gateway := if p.defaultLan == 0 then "" else Gateway(p.At(p.defaultLan), if p.defaultLan == 1 then d1 else d2);
    match Names(p, d1, d2, k)
    case None => None
    case Some((dns, text)) =>
      var v := View(a.value, b.value, false, if gateway == "" then 0 else p.defaultLan, if gateway == "" then 0 else 1,
                    gateway, dns);
      if k.settings(v) then Some((v, text)) else None
  }

  function TargetNow(o: Owner, k: Checks): Option<(View, string)> {
    Target(o.policy, o.observed, o.first.client, o.second.client, k)
  }

  // ---------------------------------------------------------------- the clients

  /** What the packet socket of a LAN gives: `claims` is an address another station uses. */
  datatype Incoming = Nothing | Broken | Arp(claims: Word) | Packet(payload: seq<Byte>, ok: bool)

  datatype LanAnswers = LanAnswers(opens: bool, incoming: seq<Incoming>, capacity: nat, probe: bool)

  predicate Conflicts(d: Client, claims: Word) { d.lease.address != 0 && claims == d.lease.address }

  function TakeIn(l: LanState, i: Incoming, now: nat): LanState
    requires i.Arp? || i.Packet?
  {
    match i
    case Arp(a) => if Conflicts(l.client, a) then Do(l, AddressConflict, now) else l
    case Packet(p, ok) =>
      var n := Do(l, Reply(p, ok), now);
      if Grants(l.client, Reply(p, ok), Tick32(now)) && n.client.state == Probing
      then n.(probeAt := Later(Tick32(now), n.client.xid % 1000)) else n
  }

  /** At most `n` packets; a broken socket stops the client. */
  function Drain(l: LanState, s: seq<Incoming>, n: nat, now: nat): (LanState, bool)
    decreases n
  {
    if n == 0 || s == [] || s[0] == Nothing then (l, false)
    else if s[0] == Broken then (Do(l, Halt, now).(open := false), true)
    else Drain(TakeIn(l, s[0], now), s[1..], n - 1, now)
  }

  function Transmitted(l: LanState, capacity: nat, now: nat): LanState {
    if l.client.sendType != 0 then Do(l, Transmit(capacity), now) else l
  }

  /** Up to three address probes, then the lease is taken into use. */
  function Probe(l: LanState, ok: bool, now: nat): LanState {
    var t := Tick32(now);
    if l.client.state != Probing || !Due(t, l.probeAt) then l
    else if l.client.probes >= 3 then Do(l, ProbeDone, now)
    else if !ok then Do(l, AddressConflict, now)
    else
      var n := Do(l, ProbeSent, now);
      n.(probeAt := Later(t, if n.client.probes == 3 then 2000 else 1000 + n.client.xid % 1000))
  }

  predicate ProbeRefused(l: LanState, ok: bool, now: nat) {
    l.client.state == Probing && Due(Tick32(now), l.probeAt) && l.client.probes < 3 && !ok
  }

  /** One LAN under DHCP whose socket is open. */
  function Serve(l: LanState, link: bool, a: LanAnswers, now: nat): LanState {
    var d := Drain(Do(l, Tock(link), now), a.incoming, 4, now).0;
    var n := Probe(Transmitted(d, a.capacity, now), a.probe, now);
    n.(client := n.client.(changed := false))
  }

  function ServeError(l: LanState, link: bool, a: LanAnswers, now: nat, error: nat): nat {
    var d := Drain(Do(l, Tock(link), now), a.incoming, 4, now);
    if ProbeRefused(Transmitted(d.0, a.capacity, now), a.probe, now) then 4 else if d.1 then 3 else error
  }

  /** A step under way: `eligible` for readiness so far, `go` while it has not returned. */
  datatype Phase = Phase(o: Owner, eligible: bool, go: bool)

  function LanSeen(v: View, lan: nat): LanView { if lan == 1 then v.first else v.second }

  function Opened(o: Owner, lan: nat, now: nat): Owner {
    var xid := NextWord(o.nextXid);
    var l := Do(o.At(lan), Begin(LanSeen(o.observed, lan).mac, xid), now).(open := true);
    o.(nextXid := xid).Put(lan, l)
  }

  function ServeOpen(o: Owner, eligible: bool, lan: nat, a: LanAnswers, now: nat): Phase {
    var l := o.At(lan);
    var link := LanSeen(o.observed, lan).link;
    var n := Serve(l, link, a, now);
    Phase(o.Put(lan, n).(error := ServeError(l, link, a, now, o.error)), eligible && n.client.valid, true)
  }

  function ServeLan(ph: Phase, lan: nat, a: LanAnswers, now: nat): Phase {
    var o := ph.o;
    if !ph.go || !o.policy.At(lan).dhcp || o.stopping then ph
    else if o.At(lan).open then ServeOpen(o, ph.eligible, lan, a, now)
    else if !Due(Tick32(now), o.retryAt) then ph.(eligible := false)
    else if !a.opens then Phase(o.(error := 2, retryAt := Later(Tick32(now), 1000)), ph.eligible, false)
    else ServeOpen(Opened(o, lan, now), ph.eligible, lan, a, now)
  }

  // ------------------------------------------------------------------ the step

  /** What the provider answers in one step; `poll` is 0 while the writer runs. */
  datatype Answers = Answers(look: bool, view: View, first: LanAnswers, second: LanAnswers, cancel: bool, poll: int,
                             apply: bool)

  function ExpireLan(o: Owner, lan: nat, now: nat): Owner {
    var l := o.At(lan);
    if l.client.valid && Due(Tick32(now), l.client.expiresAt)
    then o.Put(lan, Do(l, Tock(true), now)).(dirty := true) else o
  }

  function Cancel(o: Owner, ok: bool): Owner {
    if o.canceling then o else o.Did(Cancelled(ok)).(canceling := ok)
  }

  /** The observation failed: only an outstanding writer is cancelled and reaped. */
  function Blind(o: Owner, a: Answers): Owner {
    if !o.job then o else
    var c := Cancel(o, a.cancel).Did(Polled(a.poll));
    if a.poll != 0 then c.(job := false, canceling := false, dirty := true) else c
  }

  function Sighted(o: Owner, v: View, now: nat): Owner {
    o.(observed := v, nextObserve := Later(Tick32(now), 250), nextAt := now + 250).Did(Looked(Some(v), now))
  }

  function Unsighted(o: Owner, v: View, now: nat): Owner {
    o.(observed := v, error := 1).Did(Looked(None, now))
  }

  function Look(o: Owner, a: Answers, now: nat): Phase {
    if !Due(Tick32(now), o.nextObserve) then Phase(o, true, true)
    else if a.look && !a.view.unsupported then Phase(Sighted(o, a.view, now), true, true)
    else Phase(Blind(Unsighted(o, a.view, now), a), true, false)
  }

  function Withdraw(o: Owner, lan: nat, now: nat): Owner {
    if o.policy.At(lan).dhcp && Leased(o.At(lan).client) then o.Put(lan, Do(o.At(lan), AddressConflict, now)) else o
  }

  function WithoutLeases(o: Owner, now: nat): Owner {
    Withdraw(Withdraw(o.(error := 5), 1, now), 2, now)
  }

  /** The target is not acceptable: the leases are declined and it is rebuilt without them. */
  function Declined(o: Owner, k: Checks, now: nat): Phase {
    var w := WithoutLeases(o, now);
    match TargetNow(w, k)
    case Some((v, text)) => Phase(w.(target := v, resolver := text, dirty := true), false, true)
    case None => Phase(w, false, false)
  }

  function Rebuild(ph: Phase, k: Checks, now: nat): Phase {
    if !ph.go then ph else
    match TargetNow(ph.o, k)
    case Some((v, text)) => ph.(o := ph.o.(target := v, resolver := text))
    case None => Declined(ph.o, k, now)
  }

  predicate Outdated(o: Owner, now: nat) {
    o.jobGeneration != o.generation || !Same(o.writing, o.target) || Due(Tick32(now), o.jobDeadline)
  }

  function Reap(c: Owner, poll: int, now: nat): Owner {
    var q := c.Did(Polled(poll));
    if poll == 0 then q else
    var r := q.(job := false, nextObserve := Tick32(now), nextAt := now,
                dirty := c.canceling || c.jobGeneration != c.generation || !Same(c.writing, c.target));
    if !c.canceling && poll < 0 then r.(error := 7, retryAt := Later(Tick32(now), 1000)) else r.(canceling := false)
  }

  /** A writer is outstanding: cancel it when it is outdated, and reap it. */
  function Await(o: Owner, a: Answers, now: nat): Owner {
    var c := if Outdated(o, now) then Cancel(o, a.cancel) else o;
    if Outdated(o, now) && !c.canceling then c.(error := 6) else Reap(c, a.poll, now)
  }

  predicate NeedsWrite(o: Owner, now: nat) {
    (o.dirty || !Same(o.observed, o.target)) && Due(Tick32(now), o.retryAt)
  }

  function Write(o: Owner, a: Answers, now: nat): Owner {
    if !a.apply then o.(error := 8, retryAt := Later(Tick32(now), 1000)).Did(Refused(o.epoch))
    else o.(writing := o.target, jobGeneration := o.generation, job := true, dirty := false,
            jobDeadline := Later(Tick32(now), 1000)).Did(Began(o.epoch))
  }

  predicate Eligible(ph: Phase) {
    && ph.eligible && (ph.o.policy.defaultLan != 0 ==> ph.o.target.defaultLan != 0)
    && (ph.o.policy.automaticDns ==> ph.o.target.dns.0 != "")
  }

  function Conclude(ph: Phase, a: Answers, now: nat): Owner {
    var o := ph.o;
    if !ph.go then o
    else if o.job then Await(o, a, now)
    else if NeedsWrite(o, now) then Write(o, a, now)
    else if Same(o.observed, o.target) && !o.dirty then o.(error := 0, ready := Eligible(ph), settled := true)
    else o
  }

  function Refreshed(o: Owner, now: nat): Owner {
    ExpireLan(ExpireLan(o.(ready := false, settled := false, last := now), 1, now), 2, now)
  }

  function Served(o: Owner, a: Answers, now: nat): Phase {
    ServeLan(ServeLan(Look(Refreshed(o, now), a, now), 1, a.first, now), 2, a.second, now)
  }

  /** `gateway_network_owner_step`. */
  function OwnerStep(o: Owner, a: Answers, k: Checks, now: nat): Owner {
    if !o.active then o else Conclude(Rebuild(Served(o, a, now), k, now), a, now)
  }

  // ------------------------------------------------------------ policy and stop

  function CloseLan(o: Owner, lan: nat, now: nat): Owner {
    o.Put(lan, Do(o.At(lan), Halt, now).(open := false))
  }

  function SwitchLan(o: Owner, p: Policy, lan: nat, now: nat): Owner {
    if !o.active || p.At(lan).dhcp != o.policy.At(lan).dhcp then CloseLan(o, lan, now) else o
  }

  /** `gateway_network_owner_policy`. */
  function TakePolicy(o: Owner, p: Policy, cancel: bool, k: Checks, now: nat): (Owner, int) {
    if !k.policy(p) then (o, -1) else
    var c := if o.job then Cancel(o, cancel) else o;
    if c.job && !c.canceling then (c, -1) else
    var q := SwitchLan(SwitchLan(c, p, 1, now), p, 2, now);
    (q.(policy := p, active := true, stopping := false, ready := false, settled := false, error := 0, dirty := true,
        generation := NextWord(q.generation), epoch := q.epoch + 1, nextObserve := Tick32(now), nextAt := now,
        retryAt := Tick32(now), last := now), 0)
  }

  /** `gateway_network_owner_stop`. */
  function StopOwner(o: Owner, cancel: bool, now: nat): Owner {
    var q := CloseLan(CloseLan(o, 1, now), 2, now);
    var c := if q.job then Cancel(q, cancel) else q;
    c.(ready := false, settled := false, stopping := true, dirty := true, generation := NextWord(c.generation),
       epoch := c.epoch + 1, last := now)
  }

  // ------------------------------------------------------------------ histories

  const NO_LAN := LanState(NO_CLIENT, false, 0, FirstClock(0))
  const NO_LAN_VIEW := LanView(false, false, false, [0, 0, 0, 0, 0, 0], "", "", "")
  const NO_VIEW := View(NO_LAN_VIEW, NO_LAN_VIEW, false, 0, 0, "", ("", ""))
  const NO_POLICY := Policy(LanPolicy(false, "", "", "", None), LanPolicy(false, "", "", "", None), 0, 0, false,
                            ("", ""), "")

  /** `gateway_network_owner_init`. */
  function InitOwner(seed: Word): Owner {
    Owner(NO_POLICY, NO_LAN, NO_LAN, NO_VIEW, NO_VIEW, NO_VIEW, "", 0, 0, 0, 0, 0, false, false, false, false, false,
          0, false, false, if seed == 0 then 1 else seed, 0, 0, 0, [])
  }

  datatype OwnerEvent = PolicySet(policy: Policy, cancel: bool) | StepOnce(answers: Answers) | Stopped(cancel: bool)

  function OwnerReact(o: Owner, e: OwnerEvent, k: Checks, now: nat): Owner {
    match e
    case PolicySet(p, cancel) => TakePolicy(o, p, cancel, k, now).0
    case StepOnce(a) => OwnerStep(o, a, k, now)
    case Stopped(cancel) => StopOwner(o, cancel, now)
  }

  /** The owner after timed calls; times are those of a clock that never wraps. */
  function OwnerRun(o: Owner, es: seq<(nat, OwnerEvent)>, k: Checks): Owner
    decreases |es|
  {
    if es == [] then o else OwnerRun(OwnerReact(o, es[0].1, k, es[0].0), es[1..], k)
  }
}
