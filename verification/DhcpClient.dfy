/**
 * The DHCP client as a function of its record, the packet and the tick: lease
 * acquisition, renewal, rebinding and expiry (section 4.4.5 of RFC 2131).
 */
module DhcpClient {
  import opened Base
  import opened Deadline
  import opened DhcpOptions

  datatype ClientState = Off | Selecting | Requesting | Probing | Bound | Renewing | Rebinding | Backoff

  datatype Lease = Lease(address: Word, netmask: Word, broadcast: Word, router: Option<Word>, dns: seq<Word>,
                         lifetime: nat)

  const NO_LEASE := Lease(0, 0, 0, None, [], 0)

  const MAX_LIFETIME := 1728000
  const COOKIE: Word := 0x63825363

  /** What is to be sent: nothing (0), DISCOVER (1), REQUEST (3) or DECLINE (4). */
  type SendType = n: int | n == 0 || n == 1 || n == 3 || n == 4

  datatype Client = Client(state: ClientState, lease: Lease, mac: Mac, xid: Word, server: Word,
                           requestedAt: Tick, haveRequest: bool, started: Tick, renewAt: Tick, rebindAt: Tick,
                           expiresAt: Tick, nextSend: Tick, retries: nat, sendType: SendType, valid: bool,
                           changed: bool, probes: nat, error: nat)

  /** A record that holds nothing. */
  const NO_CLIENT := Client(Off, NO_LEASE, [0, 0, 0, 0, 0, 0], 0, 0, 0, false, 0, 0, 0, 0, 0, 0, 0, false, false, 0, 0)

  function Later(now: Tick, ms: nat): Tick { (now + ms) % TWO32 }

  function Invalidate(d: Client): Client {
    d.(changed := d.changed || d.valid, valid := false, haveRequest := false, lease := NO_LEASE)
  }

  function StartClient(mac: Mac, xid: Word, now: Tick): Client {
    Client(Selecting, NO_LEASE, mac, if xid == 0 then 1 else xid, 0, 0, false, now, 0, 0, 0, now, 0, 0, false, false,
           0, 0)
  }

  function StopClient(d: Client): Client {
    Invalidate(d).(state := Off, sendType := 0, xid := NextWord(d.xid))
  }

  function Conflict(d: Client, now: Tick): Client {
    d.(valid := false, changed := true, error := 2, sendType := 4, state := Backoff, nextSend := Later(now, 10000))
  }

  // -------------------------------------------------------------------- the step

  function Reselect(d: Client, now: Tick): Client {
    Invalidate(d).(state := Selecting, started := now, retries := 0, xid := NextWord(d.xid))
  }

  predicate Leased(d: Client) { d.valid || d.state == Probing }

  function Expire(d: Client, now: Tick): Client {
    if Leased(d) && Due(now, d.expiresAt) then Reselect(d, now).(nextSend := now, error := 3) else d
  }

  /** T2 passes, or T1: a new exchange from BOUND, the same exchange from RENEWING. */
  function Renew(d: Client, now: Tick): Client {
    if d.valid && Due(now, d.rebindAt) && d.state != Rebinding then
      (if d.state == Bound then d.(xid := NextWord(d.xid), started := now, haveRequest := false) else d)
        .(state := Rebinding, nextSend := now, retries := 0)
    else if d.state == Bound && Due(now, d.renewAt) then
      d.(state := Renewing, started := now, haveRequest := false, nextSend := now, retries := 0, xid := NextWord(d.xid))
    else d
  }

  function Backlog(d: Client): nat { if d.retries < 4 then [1000, 2000, 4000, 8000][d.retries] else 16000 }

  function Send(d: Client, now: Tick): Client {
    if d.state == Bound then d
    else if !d.valid && Elapsed(d.started, now) >= 30000 then
      d.(state := Backoff, nextSend := Later(now, 10000), sendType := 0, error := 1)
    else if Due(now, d.nextSend) then
      d.(sendType := if d.state == Selecting then 1 else 3, nextSend := Later(now, Backlog(d) + d.xid % 256),
         retries := if d.retries < 4 then d.retries + 1 else d.retries)
    else d
  }

  function Step(d: Client, now: Tick, link: bool): Client {
    if d.state == Off then d
    else if !link then Invalidate(d).(state := Backoff, nextSend := Later(now, 1000), sendType := 0)
    else
      var e := Expire(d, now);
      if e.state == Backoff && !Due(now, e.nextSend) then e
      else
        var f := if e.state == Backoff then Reselect(e, now) else e;
        if f.state == Probing then f else Send(Renew(f, now), now)
  }

  // ------------------------------------------------------------------- a reply

  predicate HeaderOk(d: Client, p: seq<Byte>) {
    && 241 <= |p| <= 1500 && p[0] == 2 && p[1] == 1 && p[2] == 6
    && Get32(p[4..]) == d.xid && p[28..34] == d.mac && Get32(p[236..]) == COOKIE
  }

  predicate Listening(s: ClientState) { s == Selecting || s == Requesting || s == Renewing || s == Rebinding }

  /** The terms of an acceptable offer or acknowledgement, in seconds. */
  datatype Terms = Terms(lifetime: nat, t1: nat, t2: nat)

  function TermsOf(o: Options): Option<Terms> {
    if o.lifetime.None? || o.lifetime.value < 4 then None else
    var lifetime := if o.lifetime.value > MAX_LIFETIME then MAX_LIFETIME else o.lifetime.value;
    var g1 := if o.t1.Some? then o.t1.value else 0;
    var g2 := if o.t2.Some? then o.t2.value else 0;
    var t1 := if g1 == 0 || g1 >= lifetime then lifetime / 2 else g1;
    var t2 := if g2 == 0 || g2 >= lifetime then lifetime * 7 / 8 else g2;
    if t1 == 0 || t1 >= t2 || t2 >= lifetime then None else Some(Terms(lifetime, t1, t2))
  }

  /** `ip | ~mask` for a netmask whose ones are the leading bits. */
  function BroadcastOf(ip: Word, mask: Word): Word {
    var host := TWO32 - mask;
    (ip / host * host + host - 1) % TWO32
  }

  function LeaseOf(ip: Word, o: Options, lifetime: nat): Lease
    requires o.netmask.Some?
  {
    Lease(ip, o.netmask.value, BroadcastOf(ip, o.netmask.value), o.router, if o.dns.Some? then o.dns.value else [],
          lifetime)
  }

  predicate ServerOk(d: Client, o: Options) {
    && o.kind.Some? && o.server.Some? && o.server.value != 0
    && o.server.value / 0x100_0000 < 224 && o.server.value / 0x100_0000 != 127
    && (d.state == Requesting || d.state == Renewing ==> o.server.value == d.server)
  }

  function LeaseBase(d: Client, now: Tick): Tick { if d.haveRequest then d.requestedAt else now }

  /** Whether the options grant a lease the client may take, and on what terms; `ok` is the settings check. */
  function Grant(d: Client, ip: Word, o: Options, now: Tick, ok: bool): Option<Terms> {
    if o.netmask.None? || ip == 0 || TermsOf(o).None? || !ok then None
    else if o.kind != Some(if d.state == Selecting then 2 else 5) then None
    else if Elapsed(LeaseBase(d, now), now) >= 1000 * TermsOf(o).value.lifetime then None
    else if d.state == Requesting && ip != d.lease.address then None
    else TermsOf(o)
  }

  function Offered(d: Client, l: Lease, server: Word, now: Tick): Client {
    d.(lease := l, server := server, state := Requesting, haveRequest := false, sendType := 3,
       nextSend := Later(now, 1000), retries := 0)
  }

  function Granted(d: Client, l: Lease, server: Word, t: Terms, now: Tick): Client {
    var base := LeaseBase(d, now);
    var e := if d.valid && d.lease.address == l.address && d.lease.netmask == l.netmask then d.(state := Bound)
             else d.(state := Probing, valid := false, probes := 0, nextSend := now);
    e.(changed := true, lease := l, server := server, sendType := 0, error := 0,
       renewAt := Later(base, 1000 * t.t1), rebindAt := Later(base, 1000 * t.t2),
       expiresAt := Later(base, 1000 * t.lifetime))
  }

  /** The options of a reply with a good header, in a state that listens and with the lease unexpired. */
  function Answer(d: Client, ip: Word, o: Options, now: Tick, ok: bool): (Client, int) {
    if !ServerOk(d, o) then (d, -1)
    else if o.kind == Some(6) && d.state != Selecting then
      (Invalidate(d).(state := Backoff, nextSend := Later(now, 1000), sendType := 0, error := 4), 0)
    else match Grant(d, ip, o, now, ok)
      case None => (d, -1)
      case Some(t) =>
        if d.state == Selecting then (Offered(d, LeaseOf(ip, o, t.lifetime), o.server.value, now), 0)
        else (Granted(d, LeaseOf(ip, o, t.lifetime), o.server.value, t, now), 1)
  }

  function Receive(d: Client, p: seq<Byte>, now: Tick, ok: bool): (Client, int) {
    if !HeaderOk(d, p) || !Listening(d.state) then (d, -1)
    else if d.valid && Due(now, d.expiresAt) then (Step(d, now, true), -1)
    else match Scan(p[240..], NO_OPTIONS)
      case None => (d, -1)
      case Some(o) => Answer(d, Get32(p[16..]), o, now, ok)
  }

  function Probed(d: Client, now: Tick): (Client, int) {
    if d.state != Probing then (d, -1)
    else if Due(now, d.expiresAt) then (Step(d, now, true), -1)
    else (d.(state := Bound, valid := true, changed := true), 0)
  }

  /** What sending a packet does to the record. */
  function Packet(d: Client, capacity: nat, now: Tick): Client {
    if d.sendType == 0 || capacity < 300 then d
    else (if d.sendType == 3 && !d.haveRequest then d.(requestedAt := now, haveRequest := true) else d).(sendType := 0)
  }
}
