/**
 * The lease bound of section 4.4.5 of RFC 2131, in time that does not wrap:
 * what the client calls a valid lease has not expired, and it never outlasts
 * the first request of its exchange by more than the granted lifetime, capped
 * at twenty days, although the client itself only has 32-bit ticks.
 */
module DhcpLease {
  import opened Base
  import opened Deadline
  import opened DhcpOptions
  import opened DhcpClient

  /**
   * Unwrapped times, recorded from what can be seen from outside: `checked` is
   * the last call that looked at the clock, `started` when selecting began,
   * `request` the first REQUEST of the current exchange, `base` the moment the
   * current lease counts from, `terms` and `granted` what the reply gave, `sent` the
   * address probes sent since, `probed` the address last taken into use, and how.
   */
  datatype Clock = Clock(last: nat, checked: nat, started: nat, request: Option<nat>, base: nat, terms: Terms,
                         granted: Lease, sent: seq<nat>, probed: Option<ProbedAddress>) {
    function Expiry(): nat { base + 1000 * terms.lifetime }
  }

  datatype ProbedAddress = ProbedAddress(address: Word, netmask: Word, sent: seq<nat>, at: nat)

  datatype Event = Begin(mac: Mac, xid: Word) | Halt | Tock(link: bool) | Reply(packet: seq<Byte>, ok: bool)
                 | ProbeSent | ProbeDone | Transmit(capacity: nat) | AddressConflict

  function React(d: Client, e: Event, now: Tick): Client {
    match e
    case Begin(mac, xid) => StartClient(mac, xid, now)
    case Halt => StopClient(d)
    case Tock(link) => Step(d, now, link)
    case Reply(p, ok) => Receive(d, p, now, ok).0
    case ProbeSent => if d.state == Probing then d.(probes := d.probes + 1) else d
    case ProbeDone => Probed(d, now).0
    case Transmit(capacity) => Packet(d, capacity, now)
    case AddressConflict => Conflict(d, now)
  }

  predicate InExchange(s: ClientState) { s == Requesting || s == Renewing || s == Rebinding }

  predicate OpensExchange(d: Client, d': Client) {
    || (d.state == Selecting && d'.state == Requesting)
    || (d.state == Bound && (d'.state == Renewing || d'.state == Rebinding))
  }

  predicate SendsRequest(d: Client, e: Event) {
    e.Transmit? && e.capacity >= 300 && d.sendType == 3 && InExchange(d.state)
  }

  predicate Grants(d: Client, e: Event, now: Tick) {
    e.Reply? && Receive(d, e.packet, now, e.ok).1 == 1
  }

  /** The terms in a granting reply. */
  function TermsIn(d: Client, e: Event): Terms
    requires e.Reply? && |e.packet| >= 240
  {
    match Scan(e.packet[240..], NO_OPTIONS)
    case Some(o) => if TermsOf(o).Some? then TermsOf(o).value else Terms(0, 0, 0)
    case None => Terms(0, 0, 0)
  }

  /** The lease in a granting reply. */
  function LeaseIn(e: Event): Lease
    requires e.Reply? && |e.packet| >= 240
  {
    match Scan(e.packet[240..], NO_OPTIONS)
    case Some(o) =>
      if TermsOf(o).Some? && o.netmask.Some? then LeaseOf(Get32(e.packet[16..]), o, TermsOf(o).value.lifetime)
      else NO_LEASE
    case None => NO_LEASE
  }

  function Advance(c: Clock, d: Client, e: Event, now: nat): Clock {
    var t := Tick32(now);
    var d' := React(d, e, t);
    var granted := Grants(d, e, t) && |e.packet| >= 240;
    Clock(
      now,
      if e.Begin? || e.Tock? || granted || (e.ProbeDone? && d.state == Probing)
         || (e.Reply? && d.valid && d'.state == Selecting) then now else c.checked,
      if e.Begin? || (d.state != Selecting && d'.state == Selecting) then now else c.started,
      if OpensExchange(d, d') then None
      else if SendsRequest(d, e) && c.request.None? then Some(now) else c.request,
      if granted then (if c.request.Some? && InExchange(d.state) then c.request.value else now) else c.base,
      if granted then TermsIn(d, e) else c.terms,
      if granted then LeaseIn(e) else c.granted,
      if granted then [] else if e.ProbeSent? && d.state == Probing then c.sent + [now] else c.sent,
      if e.ProbeDone? && Probed(d, t).1 == 0
      then Some(ProbedAddress(c.granted.address, c.granted.netmask, c.sent, now)) else c.probed)
  }

  // ------------------------------------------------------------ the invariant

  ghost predicate Acceptable(t: Terms) { 0 < t.t1 < t.t2 < t.lifetime <= MAX_LIFETIME }

  ghost predicate LeaseOk(d: Client, c: Clock) {
    && Acceptable(c.terms) && c.base <= c.checked < c.Expiry()
    && d.expiresAt == Tick32(c.Expiry())
    && d.renewAt == Tick32(c.base + 1000 * c.terms.t1) && d.rebindAt == Tick32(c.base + 1000 * c.terms.t2)
  }

  ghost predicate RequestOk(d: Client, c: Clock) {
    && (d.haveRequest <==> c.request.Some?)
    && (d.haveRequest ==> d.requestedAt == Tick32(c.request.value) && c.request.value <= c.last)
    && (d.haveRequest ==> c.request.value >= if d.state == Requesting then c.started else c.base)
  }

  /** The lease is the one granted, and it is in use only after its address was probed. */
  ghost predicate Origin(d: Client, c: Clock) {
    && (Leased(d) ==> d.lease == c.granted)
    && (d.state == Probing ==> d.probes == |c.sent|)
    && (d.valid ==>
          c.probed.Some? && c.probed.value.address == d.lease.address && c.probed.value.netmask == d.lease.netmask)
  }

  /** The moment nearest to `now` that reads as the tick. */
  function Unwrap(now: nat, t: Tick): nat {
    var ahead := (t - Tick32(now)) % TWO32;
    if ahead < TWO31 then now + ahead else if now + ahead >= TWO32 then now + ahead - TWO32 else 0
  }

  /** When the client is to send next, or to go on. */
  function NextSend(d: Client, c: Clock): nat { Unwrap(c.last, d.nextSend) }

  predicate Waits(s: ClientState) { s != Off && s != Bound && s != Probing }

  const PAUSE_MAX := 20000

  /** The client waits for a moment that is ahead, or was not past when the clock was last looked at. */
  ghost predicate Sending(d: Client, c: Clock) {
    Waits(d.state) ==>
      c.checked <= NextSend(d, c) <= c.last + PAUSE_MAX && d.nextSend == Tick32(NextSend(d, c))
  }

  ghost predicate Inv(d: Client, c: Clock) { Core(d, c) && Origin(d, c) && Sending(d, c) }

  ghost predicate Core(d: Client, c: Clock) {
    && (d.valid <==> d.state == Bound || d.state == Renewing || d.state == Rebinding)
    && c.checked <= c.last
    && (Leased(d) ==> LeaseOk(d, c))
    && (d.state == Selecting || d.state == Requesting ==>
          c.started <= c.checked < c.started + 30000 && d.started == Tick32(c.started))
    && (d.state == Selecting ==> !d.haveRequest && d.sendType != 3)
    && (InExchange(d.state) ==> RequestOk(d, c))
  }

  /** Calls do not run backwards in time, and the clock was looked at less than 2^31 ms ago. */
  ghost predicate Timely(c: Clock, e: Event, now: nat) {
    c.last <= now && (now < c.checked + TWO31 || e.Begin?)
  }

  lemma LaterIs(t: nat, ms: nat)
    ensures Later(Tick32(t), ms) == Tick32(t + ms)
  {
    WrapSum(t, ms);
  }

  /** Expiry, T1 and T2 are read off the wrapped tick correctly. */
  lemma LeaseTimesRead(d: Client, c: Clock, now: nat)
    requires LeaseOk(d, c) && c.checked <= now < c.checked + TWO31
    ensures Due(Tick32(now), d.expiresAt) <==> now >= c.Expiry()
    ensures now < c.Expiry() ==> (Due(Tick32(now), d.renewAt) <==> now >= c.base + 1000 * c.terms.t1)
    ensures now < c.Expiry() ==> (Due(Tick32(now), d.rebindAt) <==> now >= c.base + 1000 * c.terms.t2)
  {
    DueIsLater(now, c.Expiry());
    if now < c.Expiry() {
      DueIsLater(now, c.base + 1000 * c.terms.t1);
      DueIsLater(now, c.base + 1000 * c.terms.t2);
    }
  }

  lemma ElapsedIs(since: nat, now: nat)
    requires since <= now < since + TWO32
    ensures Elapsed(Tick32(since), Tick32(now)) == now - since
  {
    WrapDifference(now, since);
  }

  // ------------------------------------------------------------- each call

  lemma FreshSelecting(d: Client, now: nat)
    ensures Send(Reselect(d, Tick32(now)).(nextSend := Tick32(now), error := 3), Tick32(now)).sendType == 1
    ensures Due(Tick32(now), d.nextSend) ==> Send(Reselect(d, Tick32(now)), Tick32(now)).sendType == 1
    ensures Send(Reselect(d, Tick32(now)).(nextSend := Tick32(now), error := 3), Tick32(now)).state == Selecting
    ensures Due(Tick32(now), d.nextSend) ==> Send(Reselect(d, Tick32(now)), Tick32(now)).state == Selecting
  {
    ElapsedIs(now, now);
    DueIsLater(now, now);
    hide Later;
  }

  /** Sending changes neither lease nor exchange, and gives up selecting after 30 seconds. */
  lemma SendKeeps(d: Client, now: Tick)
    ensures var e := Send(d, now);
      && e.valid == d.valid && e.lease == d.lease && e.haveRequest == d.haveRequest && e.requestedAt == d.requestedAt
      && e.started == d.started && e.renewAt == d.renewAt && e.rebindAt == d.rebindAt && e.expiresAt == d.expiresAt
      && (e.state == d.state || (e.state == Backoff && !d.valid))
      && (d.valid || d.state == Bound ==> e.state == d.state)
      && (!d.valid && d.state != Bound ==>
            (e.state == d.state <==> d.state == Backoff || Elapsed(d.started, now) < 30000))
      && (e.sendType == 3 && d.state == Selecting ==> d.sendType == 3)
  {
    hide Elapsed, Due, Later, Backlog;
  }

  lemma RenewKeeps(d: Client, now: Tick)
    ensures var e := Renew(d, now);
      && e.valid == d.valid && e.lease == d.lease
      && e.renewAt == d.renewAt && e.rebindAt == d.rebindAt && e.expiresAt == d.expiresAt
         && e.requestedAt == d.requestedAt
      && (e.state == d.state || ((d.state == Bound || d.valid) && (e.state == Renewing || e.state == Rebinding)))
      && (e.haveRequest == if d.state == Bound && e.state != Bound then false else d.haveRequest)
      && (e.state == d.state ==> e.started == d.started && e.sendType == d.sendType)
      && (d.state != Bound && e.state == Renewing ==> d.state == Renewing)
  {
    hide Due;
  }

  /** A tick: an expired lease is given up, an unexpired one kept, T1 and T2 start and continue exchanges. */
  lemma TockKeeps(d: Client, c: Clock, now: nat, link: bool)
    requires Inv(d, c) && Timely(c, Tock(link), now)
    ensures Core(React(d, Tock(link), Tick32(now)), Advance(c, d, Tock(link), now))
    ensures var e := React(d, Tock(link), Tick32(now));
            e.valid ==> now < c.Expiry() && e.expiresAt == d.expiresAt && d.valid
  {
    hide React, Advance, Core, Origin, Sending, Due;
    if d.state == Off || !link {
      UnlinkedTock(d, c, now, link);
    } else if Leased(d) && Due(Tick32(now), d.expiresAt) {
      ExpiredTock(d, c, now);
    } else if d.state == Backoff {
      BackoffTock(d, c, now);
    } else if d.state == Probing {
      ProbingTock(d, c, now);
    } else {
      LiveTock(d, c, now);
    }
  }

  lemma UnlinkedTock(d: Client, c: Clock, now: nat, link: bool)
    requires Inv(d, c) && Timely(c, Tock(link), now) && (d.state == Off || !link)
    ensures Core(React(d, Tock(link), Tick32(now)), Advance(c, d, Tock(link), now))
    ensures !React(d, Tock(link), Tick32(now)).valid
  {
    hide Origin, Sending, Due, Elapsed, Later, LeaseOk;
  }

  lemma ProbingTock(d: Client, c: Clock, now: nat)
    requires Inv(d, c) && Timely(c, Tock(true), now) && d.state == Probing && !Due(Tick32(now), d.expiresAt)
    ensures Core(React(d, Tock(true), Tick32(now)), Advance(c, d, Tock(true), now))
    ensures !React(d, Tock(true), Tick32(now)).valid
  {
    hide Origin, Sending, Due, Elapsed, Renew, Send;
    LeaseTimesRead(d, c, now);
  }

  lemma ExpiredTock(d: Client, c: Clock, now: nat)
    requires Inv(d, c) && Timely(c, Tock(true), now) && Leased(d) && Due(Tick32(now), d.expiresAt)
    ensures Core(React(d, Tock(true), Tick32(now)), Advance(c, d, Tock(true), now))
    ensures var e := React(d, Tock(true), Tick32(now)); !e.valid && e.state == Selecting
  {
    FreshSelecting(d, now);
    SendKeeps(Reselect(d, Tick32(now)).(nextSend := Tick32(now), error := 3), Tick32(now));
    hide Send, Due, Elapsed, LeaseOk;
  }

  lemma BackoffTock(d: Client, c: Clock, now: nat)
    requires Inv(d, c) && Timely(c, Tock(true), now) && d.state == Backoff
    ensures Core(React(d, Tock(true), Tick32(now)), Advance(c, d, Tock(true), now))
    ensures !React(d, Tock(true), Tick32(now)).valid
  {
    FreshSelecting(d, now);
    SendKeeps(Reselect(d, Tick32(now)), Tick32(now));
    hide Send, Due, Elapsed, LeaseOk;
  }

  lemma LiveTock(d: Client, c: Clock, now: nat)
    requires Inv(d, c) && Timely(c, Tock(true), now) && d.state != Off && d.state != Backoff && d.state != Probing
    requires !(Leased(d) && Due(Tick32(now), d.expiresAt))
    ensures Core(React(d, Tock(true), Tick32(now)), Advance(c, d, Tock(true), now))
    ensures var e := React(d, Tock(true), Tick32(now));
            e.valid ==> now < c.Expiry() && e.expiresAt == d.expiresAt && d.valid
  {
    hide Renew, Send, Due, Elapsed, Step, Origin, Sending, Later, NextWord;
    var t := Tick32(now);
    if Leased(d) {
      LeaseTimesRead(d, c, now);
    } else {
      ElapsedIs(c.started, now);
    }
    RenewKeeps(d, t);
    SendKeeps(Renew(d, t), t);
    LiveStep(d, t);
  }

  lemma LiveStep(d: Client, t: Tick)
    requires d.state != Off && d.state != Backoff && d.state != Probing && !(Leased(d) && Due(t, d.expiresAt))
    ensures Step(d, t, true) == Send(Renew(d, t), t)
  {
    hide Renew, Send, Due;
  }

  /** The base of a new lease is the first REQUEST of its exchange, or the moment of the reply without one. */
  lemma BaseRead(d: Client, c: Clock, now: nat)
    requires Inv(d, c) && c.last <= now < c.checked + TWO31 && Listening(d.state)
    requires d.valid ==> now < c.Expiry()
    ensures var base := if c.request.Some? && InExchange(d.state) then c.request.value else now;
            && base <= now && Elapsed(LeaseBase(d, Tick32(now)), Tick32(now)) == now - base
            && LeaseBase(d, Tick32(now)) == Tick32(base)
  {
    ElapsedIs(now, now);
    if c.request.Some? && InExchange(d.state) {
      ElapsedIs(c.request.value, now);
    }
    hide Elapsed;
  }

  lemma TermsAreAcceptable(o: Options)
    ensures TermsOf(o).Some? ==> Acceptable(TermsOf(o).value)
  {
  }

  lemma AfterGrant(d: Client, d': Client, c': Clock, l: Lease, server: Word, now: nat)
    requires InExchange(d.state) && Acceptable(c'.terms)
    requires d' == Granted(d, l, server, c'.terms, Tick32(now)) && LeaseBase(d, Tick32(now)) == Tick32(c'.base)
    requires c'.last == c'.checked == now && c'.base <= now < c'.Expiry()
    requires d.valid ==> d.state != Probing
    ensures Core(d', c')
  {
    LaterIs(c'.base, 1000 * c'.terms.t1);
    LaterIs(c'.base, 1000 * c'.terms.t2);
    LaterIs(c'.base, 1000 * c'.terms.lifetime);
    hide Later, LeaseBase, Acceptable;
    assert Granted(d, l, server, c'.terms, Tick32(now)).valid ==> d.valid;
  }

  lemma ClockOfGrant(d: Client, c: Clock, now: nat, e: Event)
    requires e.Reply? && Grants(d, e, Tick32(now)) && |e.packet| >= 240
    ensures var c' := Advance(c, d, e, now);
      && c'.last == c'.checked == now && c'.terms == TermsIn(d, e)
      && c'.base == if c.request.Some? && InExchange(d.state) then c.request.value else now
  {
    hide Grants, React, TermsIn;
  }

  /** A granting reply: the new lease counts from its base, is unexpired, and is in good order. */
  lemma GrantKeeps(d: Client, c: Clock, now: nat, e: Event)
    requires Inv(d, c) && Timely(c, e, now) && e.Reply? && Grants(d, e, Tick32(now))
    ensures Core(React(d, e, Tick32(now)), Advance(c, d, e, now))
    ensures now < Advance(c, d, e, now).Expiry()
    ensures |e.packet| >= 240
  {
    var t := Tick32(now);
    if d.valid {
      LeaseTimesRead(d, c, now);
    }
    GrantedIs(d, e, t);
    BaseRead(d, c, now);
    ClockOfGrant(d, c, now, e);
    var o := Scan(e.packet[240..], NO_OPTIONS).value;
    TermsAreAcceptable(o);
    AfterGrant(d, React(d, e, t), Advance(c, d, e, now), LeaseOf(Get32(e.packet[16..]), o, TermsOf(o).value.lifetime),
               o.server.value, now);
    hide Inv, Core, LeaseOk, Acceptable, Receive, Scan, TermsOf, Due, Elapsed, LeaseBase, LeaseOf, Granted, Grants,
         React, Advance;
  }

  /** What a granting reply does, read off its options. */
  lemma GrantedIs(d: Client, e: Event, t: Tick)
    requires e.Reply? && Grants(d, e, t)
    ensures |e.packet| >= 241 && Scan(e.packet[240..], NO_OPTIONS).Some?
    ensures var o := Scan(e.packet[240..], NO_OPTIONS).value;
      && InExchange(d.state) && TermsOf(o).Some? && o.netmask.Some? && o.server.Some?
      && !(d.valid && Due(t, d.expiresAt))
      && Elapsed(LeaseBase(d, t), t) < 1000 * TermsOf(o).value.lifetime
      && React(d, e, t) ==
         Granted(d, LeaseOf(Get32(e.packet[16..]), o, TermsOf(o).value.lifetime), o.server.value, TermsOf(o).value, t)
  {
    hide Scan, TermsOf, Elapsed, Granted, LeaseBase, LeaseOf, Step;
  }

  /** A reply that grants nothing: an offer opens an exchange, a refusal ends one, an expired lease is given up. */
  lemma ReplyKeeps(d: Client, c: Clock, now: nat, e: Event)
    requires Inv(d, c) && Timely(c, e, now) && e.Reply? && !Grants(d, e, Tick32(now))
    ensures Core(React(d, e, Tick32(now)), Advance(c, d, e, now))
  {
    var t := Tick32(now);
    if d.valid && Due(t, d.expiresAt) && HeaderOk(d, e.packet) && Listening(d.state) {
      ExpiredReplyKeeps(d, c, now, e);
    } else {
      QuietReplyKeeps(d, c, now, e);
    }
    hide React, Advance, Inv, Core, Due, HeaderOk;
  }

  lemma ExpiredReplyKeeps(d: Client, c: Clock, now: nat, e: Event)
    requires Inv(d, c) && Timely(c, e, now) && e.Reply? && !Grants(d, e, Tick32(now))
    requires d.valid && Due(Tick32(now), d.expiresAt) && HeaderOk(d, e.packet) && Listening(d.state)
    ensures Core(React(d, e, Tick32(now)), Advance(c, d, e, now))
  {
    hide Step, Due, HeaderOk, Scan, Elapsed;
    LeaseTimesRead(d, c, now);
    ExpiredTock(d, c, now);
    assert React(d, e, Tick32(now)) == Step(d, Tick32(now), true);
  }

  lemma QuietReplyKeeps(d: Client, c: Clock, now: nat, e: Event)
    requires Inv(d, c) && Timely(c, e, now) && e.Reply? && !Grants(d, e, Tick32(now))
    requires !(d.valid && Due(Tick32(now), d.expiresAt) && HeaderOk(d, e.packet) && Listening(d.state))
    ensures Core(React(d, e, Tick32(now)), Advance(c, d, e, now))
  {
    hide Receive, Due, HeaderOk, Scan, Elapsed, Later;
    if d.valid {
      LeaseTimesRead(d, c, now);
    }
    QuietReply(d, e, Tick32(now));
  }

  lemma QuietReply(d: Client, e: Event, t: Tick)
    requires e.Reply? && !Grants(d, e, t)
    requires !(d.valid && Due(t, d.expiresAt) && HeaderOk(d, e.packet) && Listening(d.state))
    ensures var d' := React(d, e, t);
      || d' == d
      || (d'.state == Backoff && !d'.valid && d.state != Selecting)
      || (d.state == Selecting && d'.state == Requesting && !d'.haveRequest && d'.valid == d.valid
          && d'.started == d.started)
  {
    hide Scan, TermsOf, Elapsed, LeaseBase, LeaseOf, Step, HeaderOk, Due;
  }

  lemma ProbeKeeps(d: Client, c: Clock, now: nat)
    requires Inv(d, c) && Timely(c, ProbeDone, now)
    ensures Core(React(d, ProbeDone, Tick32(now)), Advance(c, d, ProbeDone, now))
    ensures Probed(d, Tick32(now)).1 == 0 ==> now < c.Expiry() && Advance(c, d, ProbeDone, now).Expiry() == c.Expiry()
  {
    hide Step, Due, Elapsed, Origin, Sending;
    if d.state == Probing {
      LeaseTimesRead(d, c, now);
      if Due(Tick32(now), d.expiresAt) {
        ExpiredTock(d, c, now);
      }
    }
  }

  lemma TransmitKeeps(d: Client, c: Clock, now: nat, capacity: nat)
    requires Inv(d, c) && Timely(c, Transmit(capacity), now)
    ensures Core(React(d, Transmit(capacity), Tick32(now)), Advance(c, d, Transmit(capacity), now))
  {
    hide Elapsed, Due, Origin, Sending;
  }

  lemma CoreKeeps(d: Client, c: Clock, e: Event, now: nat)
    requires Inv(d, c) && Timely(c, e, now)
    ensures Core(React(d, e, Tick32(now)), Advance(c, d, e, now))
  {
    hide Step, Receive, Probed, Packet, Due, Elapsed, Scan;
    match e {
      case Tock(link) => TockKeeps(d, c, now, link);
      case Reply(p, ok) => if Grants(d, e, Tick32(now)) { GrantKeeps(d, c, now, e); } else { ReplyKeeps(d, c, now, e); }
      case ProbeDone => ProbeKeeps(d, c, now);
      case Transmit(capacity) => TransmitKeeps(d, c, now, capacity);
      case _ =>
    }
  }

  /** A step leaves the lease alone or gives it up, and takes none into use. */
  lemma StepAndLease(d: Client, now: Tick, link: bool)
    ensures var e := Step(d, now, link);
      && (Leased(e) ==> Leased(d) && e.lease == d.lease && e.valid == d.valid && e.probes == d.probes)
      && (e.state == Probing <==> d.state == Probing && Leased(e))
  {
    hide Renew, Send, Elapsed, Due, Later, NextWord;
    if d.state != Off && link {
      var e := Expire(d, now);
      var f := if e.state == Backoff then Reselect(e, now) else e;
      RenewKeeps(f, now);
      SendKeeps(Renew(f, now), now);
      RenewAndProbes(f, now);
    }
  }

  lemma RenewAndProbes(d: Client, now: Tick)
    ensures Renew(d, now).probes == d.probes && Send(Renew(d, now), now).probes == d.probes
  {
    hide Due, Elapsed, Later, NextWord;
  }

  lemma GrantOrigin(d: Client, c: Clock, e: Event, now: nat)
    requires Inv(d, c) && e.Reply? && Grants(d, e, Tick32(now))
    ensures Origin(React(d, e, Tick32(now)), Advance(c, d, e, now))
  {
    GrantedIs(d, e, Tick32(now));
    LeaseOfGrant(d, c, now, e);
    hide Core, Sending, Receive, Scan, TermsOf, Elapsed, Due, Grants, React, Advance, LeaseOf, Later, LeaseBase;
  }

  lemma LeaseOfGrant(d: Client, c: Clock, now: nat, e: Event)
    requires e.Reply? && Grants(d, e, Tick32(now)) && |e.packet| >= 240
    ensures var c' := Advance(c, d, e, now); c'.granted == LeaseIn(e) && c'.sent == [] && c'.probed == c.probed
  {
    hide Grants, React, LeaseIn, TermsIn, Probed;
  }

  lemma QuietOrigin(d: Client, c: Clock, e: Event, now: nat)
    requires Inv(d, c) && (e.Reply? ==> !Grants(d, e, Tick32(now)))
    requires !e.ProbeDone?
    ensures var c' := Advance(c, d, e, now);
            && c'.granted == c.granted && c'.probed == c.probed
            && c'.sent == if e.ProbeSent? && d.state == Probing then c.sent + [now] else c.sent
  {
    hide React, Probed, Inv, Receive;
  }

  /** The lease stays the one granted, and is taken into use only by probing its address. */
  lemma OriginKeeps(d: Client, c: Clock, e: Event, now: nat)
    requires Inv(d, c)
    ensures Origin(React(d, e, Tick32(now)), Advance(c, d, e, now))
  {
    var t := Tick32(now);
    if e.Reply? && Grants(d, e, t) {
      GrantOrigin(d, c, e, now);
    } else if e.ProbeDone? {
      StepAndLease(d, t, true);
      hide Core, Sending, Step, Due, Elapsed;
    } else {
      QuietOrigin(d, c, e, now);
      if e.Tock? {
        StepAndLease(d, t, e.link);
      } else if e.Reply? {
        StepAndLease(d, t, true);
        QuietLease(d, e, t);
      }
      hide Core, Sending, Step, Receive, Advance, Grants;
    }
  }

  /** A reply that grants nothing takes no lease into use. */
  lemma QuietLease(d: Client, e: Event, t: Tick)
    requires e.Reply? && !Grants(d, e, t) && (d.state == Selecting ==> !d.valid)
    ensures var d' := React(d, e, t);
      || d' == d
      || (d' == Step(d, t, true) && d.valid && Due(t, d.expiresAt))
      || (!Leased(d') && (d'.state == Backoff || d'.state == Requesting) && d'.nextSend == Later(t, 1000))
  {
    hide Scan, TermsOf, Elapsed, LeaseBase, LeaseOf, Step, HeaderOk, Due, Later;
  }

  // -------------------------------------------------------- when it sends next

  lemma UnwrapIs(now: nat, at: nat)
    requires at < now + TWO31 && now < at + TWO31
    ensures Unwrap(now, Tick32(at)) == at
  {
    WrapDifference(at, now);
    if at < now {
      ModShift(at - now, 1);
    }
  }

  /** The next moment the client waits for is `at`. */
  lemma SendsAt(d: Client, c: Clock, now: nat, at: nat)
    requires c.last == now && c.checked <= at <= now + PAUSE_MAX && now < at + TWO31 && d.nextSend == Tick32(at)
    ensures Sending(d, c) && NextSend(d, c) == at
  {
    UnwrapIs(now, at);
  }

  /** The pause after the n-th message of an exchange, counted from 0: 1, 2, 4, 8, and then 16 seconds. */
  function Pause(n: nat): nat { if n == 0 then 1000 else if n <= 4 then 2 * Pause(n - 1) else Pause(4) }

  lemma PauseIs(d: Client)
    ensures Backlog(d) == Pause(d.retries) <= 16000
  {
    var n := d.retries;
    assert Pause(1) == 2000 && Pause(2) == 4000 && Pause(3) == 8000 && Pause(4) == 16000;
    assert n > 4 ==> Pause(n) == Pause(4);
    assert n < 4 ==> n == 0 || n == 1 || n == 2 || n == 3;
  }

  /** `Send` in unwrapped time: `next` is when it is due, and `started` when the exchange without a lease began. */
  lemma SendIs(f: Client, now: nat, next: nat, started: nat)
    requires f.state != Bound && f.nextSend == Tick32(next) && now < next + TWO31 && next < now + TWO31
    requires !f.valid ==> f.started == Tick32(started) && started <= now < started + TWO32
    ensures Send(f, Tick32(now)) ==
      if !f.valid && now >= started + 30000
      then f.(state := Backoff, nextSend := Tick32(now + 10000), sendType := 0, error := 1)
      else if now >= next
      then f.(sendType := if f.state == Selecting then 1 else 3,
              nextSend := Tick32(now + Pause(f.retries) + f.xid % 256),
              retries := if f.retries < 4 then f.retries + 1 else f.retries)
      else f
  {
    DueIsLater(now, next);
    LaterIs(now, 10000);
    PauseIs(f);
    LaterIs(now, Pause(f.retries) + f.xid % 256);
    if !f.valid {
      ElapsedIs(started, now);
    }
    hide Due, Later, Elapsed, Tick32, Pause, Backlog;
  }

  lemma TockClock(d: Client, c: Clock, link: bool, now: nat)
    ensures var c' := Advance(c, d, Tock(link), now);
            c'.last == now && c'.checked == now && c'.Expiry() == c.Expiry() && c'.base == c.base && c'.terms == c.terms
  {
    hide React;
  }

  /** A step over a link, once an expired lease is given up and a pause is over. */
  function Current(d: Client, now: Tick): Client {
    var e := Expire(d, now);
    if e.state == Backoff && Due(now, e.nextSend) then Reselect(e, now) else e
  }

  lemma StepIs(d: Client, now: Tick)
    requires d.state != Off
    ensures var f := Current(d, now);
            Step(d, now, true) == if f.state == Backoff || f.state == Probing then f else Send(Renew(f, now), now)
  {
    hide Expire, Renew, Send, Due;
  }

  /** What the step works on still waits for the moment it waited for, or for now. */
  lemma CurrentWaits(d: Client, c: Clock, now: nat) returns (next: nat, started: nat)
    requires Inv(d, c) && Timely(c, Tock(true), now) && d.state != Off
    ensures var f := Renew(Current(d, Tick32(now)), Tick32(now));
      Waits(f.state) ==>
        && f.nextSend == Tick32(next) && now < next + TWO31 && next <= now + PAUSE_MAX
        && (f.state == Backoff ==> now < next)
        && (!f.valid && f.state != Backoff ==> f.started == Tick32(started) && started <= now < started + TWO32)
  {
    var t := Tick32(now);
    next, started := if Waits(d.state) then NextSend(d, c) else now, c.started;
    if Waits(d.state) {
      DueIsLater(now, next);
    }
    var f := Current(d, t);
    if f.state != d.state {
      started := now;
      if d.state != Backoff {
        next := now;
      }
    } else if Renew(f, t).state != f.state {
      next := now;
    }
    hide Unwrap, Due, NextWord;
  }

  lemma TockSends(d: Client, c: Clock, link: bool, now: nat)
    requires Inv(d, c) && Timely(c, Tock(link), now)
    ensures Sending(React(d, Tock(link), Tick32(now)), Advance(c, d, Tock(link), now))
  {
    TockClock(d, c, link, now);
    var c' := Advance(c, d, Tock(link), now);
    var d' := React(d, Tock(link), Tick32(now));
    if d.state != Off && !link {
      LaterIs(now, 1000);
      SendsAt(d', c', now, now + 1000);
    } else if d.state != Off {
      LinkedTockSends(d, c, c', now);
    }
    hide Advance, Step, Inv, Unwrap, Later;
  }

  lemma LinkedTockSends(d: Client, c: Clock, c': Clock, now: nat)
    requires Inv(d, c) && Timely(c, Tock(true), now) && c'.last == c'.checked == now && d.state != Off
    ensures Sending(Step(d, Tick32(now), true), c')
  {
    hide Inv, Send, Current, Step, Unwrap, Pause, Tick32, Renew, Backlog, Sending;
    var t := Tick32(now);
    StepIs(d, t);
    var next, started := CurrentWaits(d, c, now);
    var f := Renew(Current(d, t), t);
    var g := Step(d, t, true);
    CurrentIsPlain(d, c, t);
    RenewKeeps(Current(d, t), t);
    SendKeeps(f, t);
    if !Waits(g.state) {
      NotWaiting(g, c');
    } else {
      if g.state == Backoff && Current(d, t).state == Backoff {
        SendsAt(g, c', now, next);
      } else {
        SendIs(f, now, next, started);
        PauseIs(f);
        SendsAt(g, c', now, if !f.valid && now >= started + 30000 then now + 10000
                            else if now >= next then now + Pause(f.retries) + f.xid % 256 else next);
      }
    }
  }

  lemma CurrentIsPlain(d: Client, c: Clock, t: Tick)
    requires Inv(d, c) && d.state != Off
    ensures var f := Current(d, t); f.state != Off && (f.state == Backoff ==> Renew(f, t) == f)
  {
    hide Due, Origin, Sending, LeaseOk, RequestOk;
  }

  lemma NotWaiting(d: Client, c: Clock)
    requires !Waits(d.state)
    ensures Sending(d, c)
  {
  }

  /** Nothing was re-armed. */
  lemma StillSends(d: Client, c: Clock, d': Client, c': Clock, now: nat)
    requires Sending(d, c) && c.last <= now < c.checked + TWO31 && c'.last == now && c'.checked == c.checked
    requires d'.state == d.state && d'.nextSend == d.nextSend
    ensures Sending(d', c')
  {
    if Waits(d.state) {
      SendsAt(d', c', now, NextSend(d, c));
    }
    hide Unwrap;
  }

  lemma SameClock(d: Client, c: Clock, e: Event, now: nat)
    requires !e.Begin? && !e.Tock? && !(e.Reply? && Grants(d, e, Tick32(now))) && !(e.ProbeDone? && d.state == Probing)
    requires !(e.Reply? && d.valid && React(d, e, Tick32(now)).state == Selecting)
    ensures Advance(c, d, e, now).last == now && Advance(c, d, e, now).checked == c.checked
  {
    hide React, Receive, Probed;
  }

  /** The clock is looked at when an expired lease is given up. */
  lemma LookedAt(d: Client, c: Clock, e: Event, now: nat)
    requires (e.ProbeDone? && d.state == Probing)
             || (e.Reply? && d.valid && React(d, e, Tick32(now)).state == Selecting)
    ensures Advance(c, d, e, now).last == now && Advance(c, d, e, now).checked == now
  {
    hide React, Receive, Probed, Grants;
  }

  lemma TockIsStep(d: Client, t: Tick)
    ensures React(d, Tock(true), t) == Step(d, t, true)
  {
  }

  lemma QuietSends(d: Client, c: Clock, e: Event, now: nat)
    requires Inv(d, c) && Timely(c, e, now) && e.Reply? && !Grants(d, e, Tick32(now))
    ensures Sending(React(d, e, Tick32(now)), Advance(c, d, e, now))
  {
    hide Advance, React, Step, Later, Due, Sending, Origin, LeaseOk, RequestOk, Grants, Tick32;
    var t := Tick32(now);
    var d', c' := React(d, e, t), Advance(c, d, e, now);
    assert d.state == Selecting ==> !d.valid;
    QuietLease(d, e, t);
    if d' == d {
      SameClock(d, c, e, now);
      StillSends(d, c, d', c', now);
    } else if d' == Step(d, t, true) && d.valid && Due(t, d.expiresAt) {
      ExpiredTock(d, c, now);
      TockIsStep(d, t);
      LookedAt(d, c, e, now);
      LinkedTockSends(d, c, c', now);
    } else {
      SameClock(d, c, e, now);
      LaterIs(now, 1000);
      CheckedIsPast(d, c);
      SendsAt(d', c', now, now + 1000);
    }
  }

  lemma ProbeDoneSends(d: Client, c: Clock, now: nat)
    requires Inv(d, c) && Timely(c, ProbeDone, now)
    ensures Sending(React(d, ProbeDone, Tick32(now)), Advance(c, d, ProbeDone, now))
  {
    var d', c' := React(d, ProbeDone, Tick32(now)), Advance(c, d, ProbeDone, now);
    if d.state == Probing {
      LookedAt(d, c, ProbeDone, now);
      if Due(Tick32(now), d.expiresAt) {
        LinkedTockSends(d, c, c', now);
      }
    } else {
      SameClock(d, c, ProbeDone, now);
      StillSends(d, c, d', c', now);
    }
    hide Advance, Step, Due, Inv, Sending;
  }

  lemma SendingKeeps(d: Client, c: Clock, e: Event, now: nat)
    requires Inv(d, c) && Timely(c, e, now)
    ensures Sending(React(d, e, Tick32(now)), Advance(c, d, e, now))
  {
    hide Advance, Step, Receive, Later, Due, Core, Origin, Grants, Unwrap, Packet, Probed;
    var d', c' := React(d, e, Tick32(now)), Advance(c, d, e, now);
    match e {
      case Begin(mac, xid) =>
        BeginClock(d, c, e, now);
        SendsAt(d', c', now, now);
      case Halt =>
      case Tock(link) => TockSends(d, c, link, now);
      case Reply(p, ok) =>
        if Grants(d, e, Tick32(now)) {
          GrantWaits(d, e, Tick32(now));
        } else {
          QuietSends(d, c, e, now);
        }
      case ProbeSent => SameClock(d, c, e, now); ProbeSentSends(d, c, d', c', now);
      case ProbeDone => ProbeDoneSends(d, c, now);
      case Transmit(capacity) => SameClock(d, c, e, now); TransmitSends(d, c, capacity, d', c', now);
      case AddressConflict =>
        SameClock(d, c, e, now);
        LaterIs(now, 10000);
        SendsAt(d', c', now, now + 10000) by { assert c.checked <= now by { CheckedIsPast(d, c); } }
    }
  }

  lemma CheckedIsPast(d: Client, c: Clock)
    requires Inv(d, c)
    ensures c.checked <= c.last
  {
    hide Sending, Origin, LeaseOk, RequestOk;
  }

  lemma BeginClock(d: Client, c: Clock, e: Event, now: nat)
    requires e.Begin?
    ensures Advance(c, d, e, now).last == now && Advance(c, d, e, now).checked == now
  {
  }

  lemma GrantWaits(d: Client, e: Event, t: Tick)
    requires e.Reply? && Grants(d, e, t)
    ensures !Waits(React(d, e, t).state)
  {
    GrantedIs(d, e, t);
    hide React, Grants, Scan, TermsOf, Elapsed, Due, Later, LeaseBase, LeaseOf;
  }

  lemma ProbeSentSends(d: Client, c: Clock, d': Client, c': Clock, now: nat)
    requires Sending(d, c) && c.last <= now < c.checked + TWO31 && c'.last == now && c'.checked == c.checked
    requires d' == React(d, ProbeSent, Tick32(now))
    ensures Sending(d', c')
  {
    StillSends(d, c, d', c', now);
    hide Sending;
  }

  lemma TransmitSends(d: Client, c: Clock, capacity: nat, d': Client, c': Clock, now: nat)
    requires Sending(d, c) && c.last <= now < c.checked + TWO31 && c'.last == now && c'.checked == c.checked
    requires d' == Packet(d, capacity, Tick32(now))
    ensures Sending(d', c')
  {
    StillSends(d, c, d', c', now);
    hide Sending;
  }

  /** Every call keeps the books of the lease. */
  lemma ReactKeeps(d: Client, c: Clock, e: Event, now: nat)
    requires Inv(d, c) && Timely(c, e, now)
    ensures Inv(React(d, e, Tick32(now)), Advance(c, d, e, now))
  {
    CoreKeeps(d, c, e, now);
    OriginKeeps(d, c, e, now);
    SendingKeeps(d, c, e, now);
    hide React, Advance, Core, Origin, Sending;
  }

  // --------------------------------------------------------------- histories

  function Run(d: Client, es: seq<(nat, Event)>): Client
    decreases |es|
  {
    if es == [] then d else Run(React(d, es[0].1, Tick32(es[0].0)), es[1..])
  }

  function Clocked(c: Clock, d: Client, es: seq<(nat, Event)>): Clock
    decreases |es|
  {
    if es == [] then c else
    Clocked(Advance(c, d, es[0].1, es[0].0), React(d, es[0].1, Tick32(es[0].0)), es[1..])
  }

  ghost predicate AllTimely(c: Clock, d: Client, es: seq<(nat, Event)>)
    decreases |es|
  {
    es == [] ||
    (Timely(c, es[0].1, es[0].0)
     && AllTimely(Advance(c, d, es[0].1, es[0].0), React(d, es[0].1, Tick32(es[0].0)), es[1..]))
  }

  lemma {:induction false} HistoryKeeps(d: Client, c: Clock, es: seq<(nat, Event)>)
    requires Inv(d, c) && AllTimely(c, d, es)
    ensures Inv(Run(d, es), Clocked(c, d, es))
    decreases |es|
  {
    hide Inv, React, Advance, Timely;
    if es != [] {
      ReactKeeps(d, c, es[0].1, es[0].0);
      HistoryKeeps(React(d, es[0].1, Tick32(es[0].0)), Advance(c, d, es[0].1, es[0].0), es[1..]);
    }
  }

  function FirstClock(now: nat): Clock {
    Clock(now, now, now, None, 0, Terms(0, 0, 0), NO_LEASE, [], None)
  }

  /**
   * From the start of a client, over every timely history: a lease is valid in
   * BOUND, RENEWING and REBINDING only, T1 < T2 < expiry, and the expiry the
   * client holds is that of the granted lifetime, at most twenty days, counted
   * from the first REQUEST of the exchange that granted it.
   */
  lemma LeaseIsBounded(mac: Mac, xid: Word, at: nat, es: seq<(nat, Event)>)
    requires AllTimely(FirstClock(at), StartClient(mac, xid, Tick32(at)), es)
    ensures var d := Run(StartClient(mac, xid, Tick32(at)), es);
            var c := Clocked(FirstClock(at), StartClient(mac, xid, Tick32(at)), es);
            && (d.valid <==> d.state == Bound || d.state == Renewing || d.state == Rebinding)
            && (Leased(d) ==>
                  && 0 < c.terms.t1 < c.terms.t2 < c.terms.lifetime <= MAX_LIFETIME
                  && d.renewAt == Tick32(c.base + 1000 * c.terms.t1)
                  && d.rebindAt == Tick32(c.base + 1000 * c.terms.t2)
                  && d.expiresAt == Tick32(c.base + 1000 * c.terms.lifetime))
  {
    hide Run, Clocked, AllTimely;
    HistoryKeeps(StartClient(mac, xid, Tick32(at)), FirstClock(at), es);
  }

  /** After a tick no expired lease is valid, and a lease still valid is the one the client had. */
  lemma ValidAfterTick(d: Client, c: Clock, now: nat, link: bool)
    requires Inv(d, c) && Timely(c, Tock(link), now)
    ensures React(d, Tock(link), Tick32(now)).valid <==> link && d.valid && now < c.Expiry()
  {
    TockKeeps(d, c, now, link);
    if link && d.valid && now < c.Expiry() {
      LeaseTimesRead(d, c, now);
      RenewKeeps(d, Tick32(now));
      SendKeeps(Renew(d, Tick32(now)), Tick32(now));
    }
    hide Renew, Send, Due;
  }

  /** A lease granted by a reply has not expired when the reply is taken in. */
  lemma ValidAfterGrant(d: Client, c: Clock, e: Event, now: nat)
    requires Inv(d, c) && Timely(c, e, now) && e.Reply? && Grants(d, e, Tick32(now))
    ensures var c' := Advance(c, d, e, now);
            && now < c'.Expiry() == (if c.request.Some? then c.request.value else now) + 1000 * c'.terms.lifetime
            && Leased(React(d, e, Tick32(now)))
  {
    GrantKeeps(d, c, now, e);
    GrantedIs(d, e, Tick32(now));
    hide Receive, Scan, TermsOf, Inv;
  }

  /**
   * A reply leaves an expired lease valid exactly when it is turned away before
   * the client looks at the lease: a bad header, or a state that does not listen.
   */
  lemma ExpiredAfterReply(d: Client, c: Clock, p: seq<Byte>, ok: bool, now: nat)
    requires Inv(d, c) && Timely(c, Reply(p, ok), now) && d.valid && now >= c.Expiry()
    ensures Receive(d, p, Tick32(now), ok).0.valid <==> !HeaderOk(d, p) || !Listening(d.state)
    ensures Receive(d, p, Tick32(now), ok).0.valid ==> Receive(d, p, Tick32(now), ok) == (d, -1)
  {
    LeaseTimesRead(d, c, now);
    ExpiredTock(d, c, now);
    hide HeaderOk, Due, Step;
  }

  // ------------------------------------------------- a conflict, and the end

  /**
   * After an address conflict no lease is valid and a DECLINE is waiting to be
   * sent; for ten seconds a step changes nothing, and the first one after that
   * drops the lease and starts selecting in a new exchange.
   */
  lemma ConflictDeclines(d: Client, now: nat, later: nat)
    requires now <= later < now + TWO31
    ensures var c := Conflict(d, Tick32(now));
            var e := Step(c, Tick32(later), true);
      && !c.valid && c.sendType == 4 && c.error == 2
      && (later < now + 10000 ==> e == c)
      && (later >= now + 10000 ==> e.state == Selecting && !e.valid && e.lease == NO_LEASE && e.xid == NextWord(d.xid)
                                   && e.sendType == 1)
  {
    LaterIs(now, 10000);
    DueIsLater(later, now + 10000);
    DueIsLater(later, now);
    var c := Conflict(d, Tick32(now));
    if later >= now + 10000 {
      var f := Reselect(c, Tick32(later));
      assert f.state == Selecting && f.started == Tick32(later) && !f.valid;
      assert Due(Tick32(later), f.nextSend);
      assert Elapsed(f.started, Tick32(later)) == 0;
    }
    hide Due, Later, Elapsed, NextWord;
  }

  /**
   * A stopped client holds no lease and sends nothing, no station can be in
   * conflict with it, and only a new start wakes it: a reply to what it asked
   * before changes nothing.
   */
  lemma StoppedStays(d: Client, e: Event, now: Tick)
    requires !e.Begin? && !e.AddressConflict?
    ensures var q := StopClient(d);
      && q.state == Off && !q.valid && q.sendType == 0 && q.lease.address == 0 && q.xid != d.xid
      && (e.Halt? || React(q, e, now) == q) && (e.Halt? ==> StopClient(q) == q.(xid := NextWord(q.xid)))
  {
  }
}
