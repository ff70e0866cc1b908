/**
 * What every turn of a LAN under DHCP keeps: the books of its client, and that an
 * address is taken into use only after three probes of it, a second apart, and two
 * seconds more.
 */
module LanProperties {
  import opened Base
  import opened Deadline
  import opened DhcpOptions
  import opened DhcpClient
  import opened DhcpLease
  import opened NetworkOwner

  /** Probes that nobody answered: three, at least a second apart, the address in use two seconds later. */
  ghost predicate Enough(p: ProbedAddress) {
    |p.sent| == 3 && Spaced(p.sent) && p.at >= p.sent[2] + 2000
  }

  ghost predicate Spaced(sent: seq<nat>) {
    forall i | 0 < i < |sent| :: sent[i] >= sent[i - 1] + 1000
  }

  /** A lease in use had its address probed. */
  ghost predicate Vouched(l: LanState) {
    l.client.valid ==> l.clock.probed.Some? && Enough(l.clock.probed.value)
  }

  /** When the next probe is due. */
  function ProbeDue(l: LanState): nat { Unwrap(l.clock.checked, l.probeAt) }

  const PROBE_PAUSE_MAX := 5000

  /** Probes are sent a second apart, and the last is waited for two seconds. */
  ghost predicate Pacing(l: LanState) {
    l.client.state == Probing ==>
      && |l.clock.sent| <= 3 && Spaced(l.clock.sent)
      && l.probeAt == Tick32(ProbeDue(l)) && ProbeDue(l) <= l.clock.checked + PROBE_PAUSE_MAX
      && l.clock.checked < ProbeDue(l) + TWO31
      && (l.clock.sent != [] ==>
            ProbeDue(l) >= l.clock.sent[|l.clock.sent| - 1] + if |l.clock.sent| == 3 then 2000 else 1000)
  }

  /** The next probe was not due when the clock was last looked at. */
  ghost predicate Rested(l: LanState) { l.client.state == Probing ==> ProbeDue(l) >= l.clock.checked }

  ghost predicate Books(l: LanState) { Inv(l.client, l.clock) && Vouched(l) && Pacing(l) }

  /** The clock was looked at less than 2^31 ms ago. */
  ghost predicate Read(l: LanState, now: nat) {
    l.clock.last <= now && (l.client.state != Off ==> now < l.clock.checked + TWO31)
  }

  /** In the middle of a turn: the books are in order and the lease has not expired. */
  ghost predicate Busy(l: LanState, now: nat) {
    Books(l) && Read(l, now) && (l.client.valid ==> now < l.clock.Expiry())
  }

  /** The books of a client are in order and its lease has not expired. */
  ghost predicate Good(l: LanState, now: nat) { Busy(l, now) && Rested(l) }

  /** The same, before the clock has been looked at. */
  ghost predicate Kept(l: LanState, now: nat) { Books(l) && Read(l, now) && Rested(l) }

  // ----------------------------------------------------------------- one call

  /** A call that is not the end of probing keeps what the lease in use rests on, and takes none into use. */
  lemma ProbedStays(d: Client, c: Clock, e: Event, now: nat)
    requires Inv(d, c) && !e.ProbeDone?
    ensures Advance(c, d, e, now).probed == c.probed && (React(d, e, Tick32(now)).valid ==> d.valid)
  {
    var t := Tick32(now);
    if e.Tock? {
      StepAndLease(d, t, e.link);
    } else if e.Reply? {
      if Grants(d, e, t) {
        GrantedIs(d, e, t);
      } else {
        StepAndLease(d, t, true);
        assert d.state == Selecting ==> !d.valid;
        QuietLease(d, e, t);
      }
    }
    hide Inv, Step, Receive, Later, Due, Elapsed, Scan, TermsOf, LeaseOf, LeaseBase;
  }

  lemma ClockIs(l: LanState, e: Event, now: nat)
    ensures Do(l, e, now).clock.last == now
    ensures e.Tock? || e.Begin? ==> Do(l, e, now).clock.checked == now
    ensures !e.Reply? ==>
              Do(l, e, now).clock.Expiry() == l.clock.Expiry()
              && Do(l, e, now).clock.sent == if e.ProbeSent? && l.client.state == Probing then l.clock.sent + [now]
                                             else l.clock.sent
    ensures e.Halt? || e.Transmit? || e.ProbeSent? || e.AddressConflict? ==>
              Do(l, e, now).clock.checked == l.clock.checked
    ensures e.ProbeDone? ==> Do(l, e, now).clock.checked == if l.client.state == Probing then now else l.clock.checked
  {
    hide React, Receive, Probed;
  }

  lemma OffStays(l: LanState, e: Event, now: nat)
    requires l.client.state == Off && !e.Begin? && !e.AddressConflict? && !e.Halt?
    ensures Do(l, e, now).client.state == Off && (!e.Transmit? ==> Do(l, e, now).client == l.client)
  {
    hide Advance;
  }

  /** Every call keeps the books of the client. */
  lemma CallKeeps(l: LanState, e: Event, now: nat)
    requires Inv(l.client, l.clock) && l.clock.last <= now && (Read(l, now) || e.Begin?)
    requires e.AddressConflict? ==> l.client.state != Off
    ensures Inv(Do(l, e, now).client, Do(l, e, now).clock)
  {
    if l.client.state != Off || e.Begin? {
      ReactKeeps(l.client, l.clock, e, now);
    } else {
      OffIsInOrder(l, e, now);
    }
    hide Inv, React, Advance;
  }

  lemma OffIsInOrder(l: LanState, e: Event, now: nat)
    requires Inv(l.client, l.clock) && l.clock.last <= now && l.client.state == Off && !e.Begin? && !e.AddressConflict?
    ensures Inv(Do(l, e, now).client, Do(l, e, now).clock) && Do(l, e, now).client.state == Off
  {
    OffFacts(l, e, now);
    hide Do, Unwrap;
  }

  lemma OffFacts(l: LanState, e: Event, now: nat)
    requires l.client.state == Off && !l.client.valid && !e.Begin? && !e.AddressConflict?
    requires l.clock.checked <= l.clock.last <= now
    ensures var m := Do(l, e, now); m.client.state == Off && !m.client.valid && m.clock.checked <= m.clock.last
  {
    hide Scan;
  }

  /** A call that does not end probing. */
  lemma StillVouched(l: LanState, e: Event, now: nat)
    requires Inv(l.client, l.clock) && Vouched(l) && !e.ProbeDone?
    ensures Vouched(Do(l, e, now))
  {
    ProbedStays(l.client, l.clock, e, now);
    hide Inv, React, Advance, Enough;
  }

  /** What a call leaves of the probing it is in the middle of. */
  lemma ProbingStays(d: Client, e: Event, now: Tick)
    requires e.Tock? || e.Transmit? || (e.Reply? && !Grants(d, e, now)) || e.AddressConflict? || e.Begin? || e.Halt?
    requires d.state == Selecting ==> !d.valid
    ensures React(d, e, now).state == Probing ==> d.state == Probing
  {
    if e.Tock? {
      StepAndLease(d, now, e.link);
    } else if e.Reply? {
      StepAndLease(d, now, true);
      QuietLease(d, e, now);
    }
    hide Step, Receive, Later, Due, Grants;
  }

  // ------------------------------------------------------- the calls of a turn

  lemma TockIsGood(l: LanState, link: bool, now: nat)
    requires Kept(l, now)
    ensures Busy(Do(l, Tock(link), now), now) && (l.client.state != Probing ==> Good(Do(l, Tock(link), now), now))
    ensures l.client.state == Off ==> Do(l, Tock(link), now).client == l.client
    ensures l.client.state != Off ==> Do(l, Tock(link), now).client.state != Off
    ensures ReadNow(Do(l, Tock(link), now), now) && Do(l, Tock(link), now).open == l.open
  {
    OpenStays(l, Tock(link), now);
    var m := Do(l, Tock(link), now);
    CallKeeps(l, Tock(link), now);
    ClockIs(l, Tock(link), now);
    StillVouched(l, Tock(link), now);
    SelectingHasNone(l.client, l.clock);
    ProbingStays(l.client, Tock(link), Tick32(now));
    if l.client.state == Off {
      OffStays(l, Tock(link), now);
      OffHasNoLease(l.client, l.clock);
    } else {
      TockNotOff(l, link, now);
      TockKeeps(l.client, l.clock, now, link);
      TockPacing(l, link, now);
    }
    hide React, Inv, Advance, Due, Elapsed, Vouched, Pacing, Do;
  }

  lemma OffHasNoLease(d: Client, c: Clock)
    requires Inv(d, c) && d.state == Off
    ensures !d.valid
  {
    hide Sending, Origin;
  }

  lemma TockPacing(l: LanState, link: bool, now: nat)
    requires Kept(l, now) && l.client.state != Off
    ensures Pacing(Do(l, Tock(link), now))
  {
    hide Inv, React, Advance, Unwrap, Vouched, Spaced, Tick32;
    var m := Do(l, Tock(link), now);
    ClockIs(l, Tock(link), now);
    if m.client.state == Probing {
      SelectingHasNone(l.client, l.clock);
      ProbingStays(l.client, Tock(link), Tick32(now));
      assert l.clock.checked <= now by { CheckedIsPast(l.client, l.clock); }
      UnwrapIs(now, ProbeDue(l));
    }
  }

  lemma SelectingHasNone(d: Client, c: Clock)
    requires Inv(d, c)
    ensures d.state == Selecting ==> !d.valid
  {
    hide Sending, Origin;
  }

  lemma TockNotOff(l: LanState, link: bool, now: nat)
    requires l.client.state != Off
    ensures Do(l, Tock(link), now).client.state != Off
  {
    var t := Tick32(now);
    if link {
      var e := Expire(l.client, t);
      var f := if e.state == Backoff then Reselect(e, t) else e;
      RenewKeeps(f, t);
      SendKeeps(Renew(f, t), t);
    }
    hide Renew, Send, Due, Advance;
  }

  lemma HaltIsGood(l: LanState, now: nat)
    requires Books(l) && l.clock.last <= now
    ensures Good(Do(l, Halt, now), now) && Do(l, Halt, now).client.state == Off
  {
    HaltFacts(l, now);
    hide Do, Unwrap, Enough;
  }

  lemma HaltFacts(l: LanState, now: nat)
    requires l.clock.checked <= l.clock.last <= now
    ensures var m := Do(l, Halt, now);
            m.client.state == Off && !m.client.valid && m.clock.checked <= m.clock.last == now
  {
  }

  lemma BeginIsGood(l: LanState, mac: Mac, xid: Word, now: nat)
    ensures Good(Do(l, Begin(mac, xid), now), now) && Do(l, Begin(mac, xid), now).client.state == Selecting
  {
    var m := Do(l, Begin(mac, xid), now);
    BeginFacts(l, mac, xid, now);
    SendsAt(m.client, m.clock, now, now);
    hide Do, Sending, Unwrap, Enough;
  }

  lemma BeginFacts(l: LanState, mac: Mac, xid: Word, now: nat)
    ensures var m := Do(l, Begin(mac, xid), now);
      && m.client.state == Selecting && !m.client.valid && !m.client.haveRequest && m.client.sendType == 0
      && m.client.started == m.client.nextSend == Tick32(now)
      && m.clock.last == m.clock.checked == m.clock.started == now
  {
  }

  lemma ConflictIsGood(l: LanState, now: nat)
    requires Busy(l, now) && l.client.state != Off
    ensures Good(Do(l, AddressConflict, now), now)
    ensures Do(l, AddressConflict, now).client == Conflict(l.client, Tick32(now))
  {
    CallKeeps(l, AddressConflict, now);
    ClockIs(l, AddressConflict, now);
    StillVouched(l, AddressConflict, now);
    ReactsToConflict(l, now);
    hide Do, Inv, Unwrap, Enough, Later;
  }

  lemma ReactsToConflict(l: LanState, now: nat)
    ensures Do(l, AddressConflict, now).client == Conflict(l.client, Tick32(now))
  {
  }

  lemma TransmitIsGood(l: LanState, capacity: nat, now: nat)
    requires Busy(l, now)
    ensures Busy(Do(l, Transmit(capacity), now), now)
    ensures ReadNow(l, now) ==> ReadNow(Do(l, Transmit(capacity), now), now)
    ensures Do(l, Transmit(capacity), now).client.state == l.client.state
  {
    CallKeeps(l, Transmit(capacity), now);
    ClockIs(l, Transmit(capacity), now);
    StillVouched(l, Transmit(capacity), now);
    TransmitFacts(l, capacity, now);
    hide Do, Inv, Unwrap, Enough;
  }

  lemma TransmitFacts(l: LanState, capacity: nat, now: nat)
    ensures var m := Do(l, Transmit(capacity), now);
            m.client.state == l.client.state && m.client.valid == l.client.valid && m.probeAt == l.probeAt
  {
  }

  // ---------------------------------------------------------------- a reply

  /** While an address is probed the clock has been looked at in this turn. */
  ghost predicate ReadNow(l: LanState, now: nat) { l.client.state == Probing ==> l.clock.checked == now }

  lemma ReplyIsGood(l: LanState, p: seq<Byte>, ok: bool, now: nat)
    requires Busy(l, now) && l.client.state != Off && ReadNow(l, now)
    ensures var m := TakeIn(l, Packet(p, ok), now);
            Busy(m, now) && m.client.state != Off && m.open == l.open && ReadNow(m, now)
  {
    hide Busy, Grants, Do, Later, ReadNow;
    var e := Reply(p, ok);
    if Grants(l.client, e, Tick32(now)) {
      GrantIsGood(l, e, now);
    } else {
      QuietIsGood(l, e, now);
    }
  }

  lemma GrantIsGood(l: LanState, e: Event, now: nat)
    requires Busy(l, now) && e.Reply? && Grants(l.client, e, Tick32(now)) && l.client.state != Off
    ensures var m := Do(l, e, now);
            var n := if m.client.state == Probing then m.(probeAt := Later(Tick32(now), m.client.xid % 1000)) else m;
            Busy(n, now) && n.client.state != Off && n.open == l.open && ReadNow(n, now)
  {
    hide Inv, Do, Grants, Enough, Unwrap, Later;
    CallKeeps(l, e, now);
    ClockIs(l, e, now);
    StillVouched(l, e, now);
    GrantIsTaken(l, e, now);
    assert Do(l, e, now).open == l.open by { OpenStays(l, e, now); }
  }

  lemma QuietIsGood(l: LanState, e: Event, now: nat)
    requires Busy(l, now) && e.Reply? && !Grants(l.client, e, Tick32(now)) && l.client.state != Off && ReadNow(l, now)
    ensures var m := Do(l, e, now); Busy(m, now) && m.client.state != Off && m.open == l.open && ReadNow(m, now)
  {
    hide Inv, Do, Grants, Enough, Unwrap, Pacing;
    CallKeeps(l, e, now);
    ClockIs(l, e, now);
    StillVouched(l, e, now);
    QuietIsTaken(l, e, now);
    OpenStays(l, e, now);
  }

  lemma OpenStays(l: LanState, e: Event, now: nat)
    ensures Do(l, e, now).open == l.open && Do(l, e, now).probeAt == l.probeAt
  {
    hide React, Advance;
  }

  lemma GrantIsTaken(l: LanState, e: Event, now: nat)
    requires Busy(l, now) && e.Reply? && Grants(l.client, e, Tick32(now)) && l.client.state != Off
    ensures var m := Do(l, e, now);
      && m.clock.checked == now < m.clock.Expiry() && (m.client.state == Probing || m.client.state == Bound)
      && (m.client.state == Probing ==> Pacing(m.(probeAt := Later(Tick32(now), m.client.xid % 1000))))
  {
    hide Inv, Grants, React, Advance, Unwrap, Later, Pacing, Vouched, Tick32;
    GrantKeeps(l.client, l.clock, now, e);
    ClockOfGrant(l.client, l.clock, now, e);
    LeaseOfGrant(l.client, l.clock, now, e);
    GrantedStates(l.client, e, Tick32(now));
    FreshlyPaced(Do(l, e, now), now);
  }

  lemma GrantedStates(d: Client, e: Event, t: Tick)
    requires e.Reply? && Grants(d, e, t)
    ensures React(d, e, t).state == Probing || React(d, e, t).state == Bound
  {
    GrantedIs(d, e, t);
    hide React, Grants, Scan, TermsOf, Elapsed, Due, Later, LeaseBase, LeaseOf;
  }

  /** No probe was sent, and the first is due within a second. */
  lemma FreshlyPaced(m: LanState, now: nat)
    requires m.clock.sent == [] && m.clock.checked == now
    ensures Pacing(m.(probeAt := Later(Tick32(now), m.client.xid % 1000)))
  {
    hide Unwrap, Later, Tick32;
    LaterIs(now, m.client.xid % 1000);
    UnwrapIs(now, now + m.client.xid % 1000);
  }

  /** A reply that grants nothing leaves the lease and its probing alone or ends them. */
  lemma QuietIsTaken(l: LanState, e: Event, now: nat)
    requires Busy(l, now) && e.Reply? && !Grants(l.client, e, Tick32(now)) && l.client.state != Off
    ensures var m := Do(l, e, now);
      && m.client.state != Off && now < m.clock.checked + TWO31 && Pacing(m) && (ReadNow(l, now) ==> ReadNow(m, now))
      && (m.client.valid ==> now < m.clock.Expiry())
  {
    QuietClock(l, e, now);
    var m := Do(l, e, now);
    SelectingHasNone(l.client, l.clock);
    ProbingStays(l.client, e, Tick32(now));
    hide Inv, React, Advance, Unwrap, Enough, Grants;
  }

  lemma QuietClock(l: LanState, e: Event, now: nat)
    requires Busy(l, now) && e.Reply? && !Grants(l.client, e, Tick32(now)) && l.client.state != Off
    ensures var c := Advance(l.clock, l.client, e, now);
      && c.last == now && c.Expiry() == l.clock.Expiry() && (c.checked == now || c.checked == l.clock.checked)
      && c.sent == l.clock.sent && (l.client.state == Probing ==> c.checked == l.clock.checked)
    ensures React(l.client, e, Tick32(now)).valid ==> l.client.valid
    ensures React(l.client, e, Tick32(now)).state != Off
  {
    if l.client.valid {
      LeaseTimesRead(l.client, l.clock, now);
    }
    QuietReply(l.client, e, Tick32(now));
    hide React, Grants, Due, Elapsed, Vouched, Pacing, Sending;
  }

  lemma TakeInIsGood(l: LanState, i: Incoming, now: nat)
    requires Busy(l, now) && (i.Arp? || i.Packet?) && l.client.state != Off && ReadNow(l, now)
    ensures var m := TakeIn(l, i, now); Busy(m, now) && m.open == l.open && m.client.state != Off && ReadNow(m, now)
  {
    match i {
      case Arp(a) => ConflictIsGood(l, now);
      case Packet(p, ok) => ReplyIsGood(l, p, ok, now);
    }
    hide Books, React, Advance, Grants, Read, Rested;
  }

  /** An open socket has a client that is not off. */
  ghost predicate Paired(l: LanState) { l.open <==> l.client.state != Off }

  lemma {:induction false} DrainIsGood(l: LanState, s: seq<Incoming>, n: nat, now: nat)
    requires Busy(l, now) && Paired(l) && l.open && ReadNow(l, now)
    ensures var (m, broken) := Drain(l, s, n, now);
            Busy(m, now) && Paired(m) && (broken <==> !m.open) && ReadNow(m, now)
    decreases n
  {
    hide Busy, Do, TakeIn;
    if n != 0 && s != [] && s[0] != Nothing {
      if s[0] == Broken {
        HaltOfBusy(l, now);
      } else {
        TakeInIsGood(l, s[0], now);
        DrainIsGood(TakeIn(l, s[0], now), s[1..], n - 1, now);
      }
    }
  }

  lemma HaltOfBusy(l: LanState, now: nat)
    requires Busy(l, now)
    ensures var m := Do(l, Halt, now).(open := false); Busy(m, now) && m.client.state == Off
  {
    HaltIsGood(l, now);
    hide Inv, Do, Enough, Unwrap;
  }

  // ------------------------------------------------------------------ a probe

  lemma ProbeIsGood(l: LanState, ok: bool, now: nat)
    requires Busy(l, now) && Paired(l) && ReadNow(l, now)
    ensures Good(Probe(l, ok, now), now) && Paired(Probe(l, ok, now)) && Probe(l, ok, now).open == l.open
  {
    if l.client.state == Probing {
      DueIsLater(now, ProbeDue(l)) by { hide Inv; }
      if Due(Tick32(now), l.probeAt) {
        assert ProbeDue(l) <= now by { hide Inv, Due; }
        if l.client.probes >= 3 {
          ProbesAreCounted(l.client, l.clock);
          ProbeDoneIsGood(l, now);
        } else if ok {
          ProbesAreCounted(l.client, l.clock);
          ProbeSentIsGood(l, now);
        } else {
          ConflictIsGood(l, now);
        }
      }
    }
    hide Inv, React, Advance, Due, Vouched, Unwrap;
  }

  lemma ProbesAreCounted(d: Client, c: Clock)
    requires Inv(d, c) && d.state == Probing
    ensures d.probes == |c.sent|
  {
    hide Core, Sending;
  }

  lemma ProbeDoneIsGood(l: LanState, now: nat)
    requires Busy(l, now) && l.client.state == Probing && |l.clock.sent| >= 3 && ProbeDue(l) <= now
    ensures Good(Do(l, ProbeDone, now), now) && Do(l, ProbeDone, now).client.state != Off
  {
    var m := Do(l, ProbeDone, now);
    CallKeeps(l, ProbeDone, now);
    ClockIs(l, ProbeDone, now);
    LeaseTimesRead(l.client, l.clock, now);
    ProbeKeeps(l.client, l.clock, now);
    ProbeDoneFacts(l, now);
    hide Inv, Due, Step, Do, Unwrap;
  }

  lemma ProbeDoneFacts(l: LanState, now: nat)
    requires Inv(l.client, l.clock) && l.client.state == Probing && Read(l, now)
    ensures var m := Do(l, ProbeDone, now);
      && m.client.state != Off && m.client.state != Probing
      && (m.client.valid ==> Probed(l.client, Tick32(now)).1 == 0 && m.clock.probed.Some?
                             && m.clock.probed.value.sent == l.clock.sent && m.clock.probed.value.at == now)
  {
    StepAndLease(l.client, Tick32(now), true);
    if Due(Tick32(now), l.client.expiresAt) {
      ExpiredTock(l.client, l.clock, now);
    }
    hide Step, Due, Unwrap;
  }

  lemma ProbeSentIsGood(l: LanState, now: nat)
    requires Busy(l, now) && l.client.state == Probing && |l.clock.sent| < 3 && ProbeDue(l) <= now
    requires l.clock.checked == now && l.client.probes == |l.clock.sent|
    ensures var n := Do(l, ProbeSent, now);
            var pause := if n.client.probes == 3 then 2000 else 1000 + n.client.xid % 1000;
            var m := n.(probeAt := Later(Tick32(now), pause));
            Good(m, now) && m.client.state == Probing
  {
    hide Inv, Do, Unwrap, Later, Enough, Tick32;
    var n := Do(l, ProbeSent, now);
    CallKeeps(l, ProbeSent, now);
    ClockIs(l, ProbeSent, now);
    StillVouched(l, ProbeSent, now);
    ProbeSentFacts(l, now);
    var pause := if n.client.probes == 3 then 2000 else 1000 + n.client.xid % 1000;
    LaterIs(now, pause);
    UnwrapIs(now, now + pause);
  }

  lemma ProbeSentFacts(l: LanState, now: nat)
    requires l.client.state == Probing
    ensures Do(l, ProbeSent, now).client == l.client.(probes := l.client.probes + 1)
  {
    hide Advance;
  }

  lemma ChangedIsNotInBooks(l: LanState, now: nat)
    requires Good(l, now)
    ensures Good(l.(client := l.client.(changed := false)), now)
  {
    hide Unwrap, Enough;
  }

  lemma OpenIsNotInBooks(l: LanState, now: nat)
    requires Good(l, now)
    ensures Good(l.(open := true), now)
  {
    hide Inv, Unwrap, Enough;
  }

  /** Serving a LAN keeps its books, and no lease it holds afterwards has expired. */
  lemma ServeIsGood(l: LanState, link: bool, a: LanAnswers, now: nat)
    requires Kept(l, now) && Paired(l) && l.open
    ensures Good(Serve(l, link, a, now), now) && Paired(Serve(l, link, a, now))
  {
    hide Books, Kept, Drain, Probe, React, Advance, Good, Busy;
    var t := Do(l, Tock(link), now);
    TockIsGood(l, link, now);
    DrainIsGood(t, a.incoming, 4, now);
    var d := Drain(t, a.incoming, 4, now).0;
    TransmitIsGood(d, a.capacity, now);
    ProbeIsGood(Transmitted(d, a.capacity, now), a.probe, now);
    var n := Probe(Transmitted(d, a.capacity, now), a.probe, now);
    ChangedIsNotInBooks(n, now);
  }
}
