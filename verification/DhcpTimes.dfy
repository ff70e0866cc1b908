/**
 * What a step of the DHCP client does when, in time that does not wrap: T1, T2
 * and expiry of section 4.4.5 of RFC 2131, and the pauses between messages.
 */
module DhcpTimes {
  import opened Base
  import opened Deadline
  import opened DhcpClient
  import opened DhcpLease

  /** A message of the kind waits to be sent, in the exchange; the next is due after the n-th pause. */
  ghost predicate Asks(d: Client, c: Clock, kind: SendType, xid: Word, n: nat, now: nat) {
    && d.sendType == kind && d.xid == xid && d.retries == (if n < 4 then n + 1 else n)
    && NextSend(d, c) == now + Pause(n) + xid % 256
  }

  /** A new exchange for a new lease, the DISCOVER waiting. */
  ghost predicate StartsOver(d: Client, d': Client, c': Clock, now: nat) {
    && d'.state == Selecting && !d'.valid && d'.lease == NO_LEASE && !d'.haveRequest
    && d'.started == Tick32(now) && c'.started == now && Asks(d', c', 1, NextWord(d.xid), 0, now)
  }

  /** The lease is as it was. */
  ghost predicate SameLease(d: Client, d': Client) {
    && d'.valid == d.valid && d'.lease == d.lease && d'.server == d.server
    && d'.renewAt == d.renewAt && d'.rebindAt == d.rebindAt && d'.expiresAt == d.expiresAt
  }

  /** A REQUEST for the lease held waits, in a new exchange in which none was sent. */
  ghost predicate AsksAnew(d: Client, d': Client, c': Clock, s: ClientState, now: nat) {
    && SameLease(d, d') && d'.state == s && !d'.haveRequest && c'.request.None? && d'.started == Tick32(now)
    && Asks(d', c', 3, NextWord(d.xid), 0, now)
  }

  /** The lease and the exchange are as they were. */
  ghost predicate SameExchange(d: Client, d': Client) {
    && SameLease(d, d') && d'.xid == d.xid && d'.started == d.started
    && d'.haveRequest == d.haveRequest && d'.requestedAt == d.requestedAt
  }

  /** The message of the exchange is sent again once its pause is over; until then nothing changes. */
  ghost predicate AsksAgain(d: Client, c: Clock, d': Client, c': Clock, kind: SendType, now: nat) {
    if now < NextSend(d, c) then d' == d
    else d'.state == d.state && SameExchange(d, d') && Asks(d', c', kind, d.xid, d.retries, now)
  }

  /** Without an answer for 30 seconds the client gives up for ten. */
  ghost predicate GivesUp(d: Client, d': Client, c': Clock, now: nat) {
    && d'.state == Backoff && !d'.valid && d'.sendType == 0 && d'.error == 1 && NextSend(d', c') == now + 10000
  }

  /** When T1 and T2 of the lease are. */
  function T1(c: Clock): nat { c.base + 1000 * c.terms.t1 }

  function T2(c: Clock): nat { c.base + 1000 * c.terms.t2 }

  // ------------------------------------------------------------- small steps

  lemma AsksAt(f: Client, g: Client, c': Clock, n: nat, now: nat)
    requires c'.last == now && g.xid == f.xid && f.retries == n
    requires g.sendType == 1 || g.sendType == 3
    requires g.nextSend == Tick32(now + Pause(n) + f.xid % 256) && g.retries == if n < 4 then n + 1 else n
    ensures Asks(g, c', g.sendType, f.xid, n, now)
  {
    PauseIs(f);
    UnwrapIs(now, now + Pause(n) + f.xid % 256);
    hide Pause, Tick32, Unwrap;
  }

  /** What a step does to what was recorded. */
  lemma TockRecord(d: Client, c: Clock, link: bool, now: nat)
    ensures var d' := React(d, Tock(link), Tick32(now)); var c' := Advance(c, d, Tock(link), now);
      && c'.last == now && c'.checked == now
      && (OpensExchange(d, d') ==> c'.request == None) && (!OpensExchange(d, d') ==> c'.request == c.request)
      && c'.started == if d.state != Selecting && d'.state == Selecting then now else c.started
  {
    hide React;
  }

  lemma Reselected(d: Client, c: Clock, f: Client, c': Clock, now: nat, next: nat)
    requires f == Reselect(d, Tick32(now)).(nextSend := Tick32(next), error := f.error)
    requires next <= now < next + TWO31 && c'.last == c'.started == now
    ensures StartsOver(d, Send(f, Tick32(now)), c', now)
    ensures Send(f, Tick32(now)).error == f.error
  {
    SendIs(f, now, next, now);
    AsksAt(f, Send(f, Tick32(now)), c', 0, now);
    hide Send, Tick32, NextWord, Asks, Pause;
  }

  // -------------------------------------------------------------- a client bound

  /**
   * A client that is bound: nothing changes before T1; from then on the first step
   * asks the server that granted the lease in a new exchange, from T2 on any
   * server, and once the lease has expired the client starts over.
   */
  lemma BoundStep(d: Client, c: Clock, now: nat)
    requires Inv(d, c) && Timely(c, Tock(true), now) && d.state == Bound
    ensures var d' := React(d, Tock(true), Tick32(now)); var c' := Advance(c, d, Tock(true), now);
      && (now < T1(c) ==> d' == d)
      && (T1(c) <= now < T2(c) ==> AsksAnew(d, d', c', Renewing, now))
      && (T2(c) <= now < c.Expiry() ==> AsksAnew(d, d', c', Rebinding, now))
      && (c.Expiry() <= now ==> StartsOver(d, d', c', now) && d'.error == 3)
  {
    LeaseTimesRead(d, c, now);
    var t, c' := Tick32(now), Advance(c, d, Tock(true), now);
    StepIs(d, t);
    if now >= c.Expiry() {
      ExpiredStep(d, c, now);
    } else if now >= T1(c) {
      BoundAsks(d, c, now);
    }
    hide Due, Elapsed, Later, Tick32, Unwrap, NextWord, Send, Advance, Step, StartsOver, AsksAnew, Pause;
  }

  lemma ExpiredStep(d: Client, c: Clock, now: nat)
    requires Leased(d) && d.state != Off && Due(Tick32(now), d.expiresAt)
    requires d.state != Selecting
    ensures var d' := React(d, Tock(true), Tick32(now)); var c' := Advance(c, d, Tock(true), now);
            StartsOver(d, d', c', now) && d'.error == 3
  {
    var t := Tick32(now);
    StepIs(d, t);
    TockRecord(d, c, true, now);
    var f := Reselect(d, t).(nextSend := t, error := 3);
    assert Current(d, t) == f && Renew(f, t) == f;
    SendKeeps(f, t);
    SendIs(f, now, now, now);
    Reselected(d, c, f, Advance(c, d, Tock(true), now), now, now);
    hide Due, Elapsed, Later, Tick32, Unwrap, NextWord, Send, Advance, Step, StartsOver, Pause;
  }

  lemma BoundAsks(d: Client, c: Clock, now: nat)
    requires Inv(d, c) && Timely(c, Tock(true), now) && d.state == Bound && T1(c) <= now < c.Expiry()
    ensures var d' := React(d, Tock(true), Tick32(now)); var c' := Advance(c, d, Tock(true), now);
            AsksAnew(d, d', c', if now < T2(c) then Renewing else Rebinding, now)
  {
    var t := Tick32(now);
    LeaseTimesRead(d, c, now);
    StepIs(d, t);
    TockRecord(d, c, true, now);
    var f := Renew(d, t);
    assert Current(d, t) == d;
    SendIs(f, now, now, now);
    SendKeeps(f, t);
    AsksAt(f, Send(f, t), Advance(c, d, Tock(true), now), 0, now);
    assert f.server == d.server && Send(f, t).server == d.server;
    hide Due, Elapsed, Later, Tick32, Unwrap, NextWord, Send, Advance, Step, Asks, Pause;
  }

  // --------------------------------------------------------------- an exchange

  /** A step in which nothing but sending is to be done. */
  lemma SendingStep(d: Client, c: Clock, now: nat, kind: SendType)
    requires Inv(d, c) && Timely(c, Tock(true), now) && Waits(d.state) && d.state != Backoff
    requires Current(d, Tick32(now)) == d && Renew(d, Tick32(now)) == d
    requires kind == if d.state == Selecting then 1 else 3
    ensures var d' := React(d, Tock(true), Tick32(now)); var c' := Advance(c, d, Tock(true), now);
            if !d.valid && now >= c.started + 30000 then GivesUp(d, d', c', now)
            else AsksAgain(d, c, d', c', kind, now)
  {
    hide Due, Elapsed, Later, Tick32, Unwrap, NextWord, Send, Advance, Step, Asks, Pause, Renew, Current, Core, Origin;
    var t, c', next := Tick32(now), Advance(c, d, Tock(true), now), NextSend(d, c);
    StepIs(d, t);
    StartedWhen(d, c, now);
    TockRecord(d, c, true, now);
    SendIs(d, now, next, c.started);
    SendKeeps(d, t);
    var g := Send(d, t);
    assert g.server == d.server;
    if !d.valid && now >= c.started + 30000 {
      UnwrapIs(now, now + 10000);
    } else if now >= next {
      AsksAt(d, g, c', d.retries, now);
    }
  }

  /** An exchange without a lease began less than 30 seconds before the clock was last looked at. */
  lemma StartedWhen(d: Client, c: Clock, now: nat)
    requires Inv(d, c) && c.last <= now < c.checked + TWO31 && Waits(d.state) && d.state != Backoff
    ensures !d.valid ==> d.started == Tick32(c.started) && c.started <= now < c.started + TWO32
    ensures c.checked <= now && (d.valid ==> d.state != Selecting)
  {
    hide Sending, Origin, LeaseOk, RequestOk;
  }

  /** A client that asks for a first lease: it asks again when the pause is over, and gives up after 30 seconds. */
  lemma AskingStep(d: Client, c: Clock, now: nat)
    requires Inv(d, c) && Timely(c, Tock(true), now) && (d.state == Selecting || d.state == Requesting)
    ensures var d' := React(d, Tock(true), Tick32(now)); var c' := Advance(c, d, Tock(true), now);
            if now >= c.started + 30000 then GivesUp(d, d', c', now)
            else AsksAgain(d, c, d', c', if d.state == Selecting then 1 else 3, now)
  {
    assert !d.valid by { hide Sending, Origin; }
    assert Current(d, Tick32(now)) == d && Renew(d, Tick32(now)) == d;
    SendingStep(d, c, now, if d.state == Selecting then 1 else 3);
    hide Inv, Advance, React, AsksAgain, GivesUp;
  }

  /**
   * A client that renews its lease asks the server again whenever a pause is over;
   * from T2 on it asks any server, in the same exchange; once the lease has expired
   * it starts over.
   */
  lemma RenewingStep(d: Client, c: Clock, now: nat)
    requires Inv(d, c) && Timely(c, Tock(true), now) && d.state == Renewing
    ensures var d' := React(d, Tock(true), Tick32(now)); var c' := Advance(c, d, Tock(true), now);
      && (now < T2(c) ==> AsksAgain(d, c, d', c', 3, now))
      && (T2(c) <= now < c.Expiry() ==>
            d'.state == Rebinding && SameExchange(d, d') && c'.request == c.request && Asks(d', c', 3, d.xid, 0, now))
      && (c.Expiry() <= now ==> StartsOver(d, d', c', now) && d'.error == 3)
  {
    LeaseTimesRead(d, c, now);
    if now < T2(c) {
      SendingStep(d, c, now, 3);
    } else if now < c.Expiry() {
      RebindingBegins(d, c, now);
    } else {
      ExpiredStep(d, c, now);
    }
    hide Due, Advance, React, AsksAgain, StartsOver, Asks, Sending, Origin, Unwrap, Tick32;
  }

  lemma RebindingBegins(d: Client, c: Clock, now: nat)
    requires Inv(d, c) && Timely(c, Tock(true), now) && d.state == Renewing && T2(c) <= now < c.Expiry()
    ensures var d' := React(d, Tock(true), Tick32(now)); var c' := Advance(c, d, Tock(true), now);
            d'.state == Rebinding && SameExchange(d, d') && c'.request == c.request && Asks(d', c', 3, d.xid, 0, now)
  {
    var t := Tick32(now);
    LeaseTimesRead(d, c, now);
    StepIs(d, t);
    TockRecord(d, c, true, now);
    var f := Renew(d, t);
    assert Current(d, t) == d;
    SendIs(f, now, now, now);
    SendKeeps(f, t);
    AsksAt(f, Send(f, t), Advance(c, d, Tock(true), now), 0, now);
    assert f.server == d.server && Send(f, t).server == d.server;
    hide Due, Elapsed, Later, Tick32, Unwrap, NextWord, Send, Advance, Step, Asks, Pause;
  }

  /** A client that asks any server does so again whenever a pause is over, until the lease has expired. */
  lemma RebindingStep(d: Client, c: Clock, now: nat)
    requires Inv(d, c) && Timely(c, Tock(true), now) && d.state == Rebinding
    ensures var d' := React(d, Tock(true), Tick32(now)); var c' := Advance(c, d, Tock(true), now);
            if now < c.Expiry() then AsksAgain(d, c, d', c', 3, now)
            else StartsOver(d, d', c', now) && d'.error == 3
  {
    LeaseTimesRead(d, c, now);
    if now < c.Expiry() {
      SendingStep(d, c, now, 3);
    } else {
      ExpiredStep(d, c, now);
    }
    hide Due, Advance, React, AsksAgain, StartsOver, Sending, Origin, Unwrap, Tick32;
  }

  // --------------------------------------------------------- pauses and probing

  /** A client that pauses starts over once the pause is over. */
  lemma PausedStep(d: Client, c: Clock, now: nat)
    requires Inv(d, c) && Timely(c, Tock(true), now) && d.state == Backoff
    ensures var d' := React(d, Tock(true), Tick32(now)); var c' := Advance(c, d, Tock(true), now);
            if now < NextSend(d, c) then d' == d else StartsOver(d, d', c', now)
  {
    var t, next := Tick32(now), NextSend(d, c);
    assert !Leased(d) by { hide Sending, Origin; }
    DueIsLater(now, next);
    StepIs(d, t);
    TockRecord(d, c, true, now);
    if now >= next {
      var f := Reselect(d, t);
      SendIs(f, now, next, now);
      SendKeeps(f, t);
      Reselected(d, c, f, Advance(c, d, Tock(true), now), now, next);
    }
    hide Due, Elapsed, Later, Tick32, Unwrap, NextWord, Send, Advance, Step, StartsOver, Pause;
  }

  /** While its address is probed a lease is left alone until it has expired. */
  lemma ProbingStep(d: Client, c: Clock, now: nat)
    requires Inv(d, c) && Timely(c, Tock(true), now) && d.state == Probing
    ensures var d' := React(d, Tock(true), Tick32(now)); var c' := Advance(c, d, Tock(true), now);
            if now < c.Expiry() then d' == d else StartsOver(d, d', c', now) && d'.error == 3
  {
    LeaseTimesRead(d, c, now);
    StepIs(d, Tick32(now));
    if now >= c.Expiry() {
      ExpiredStep(d, c, now);
    }
    hide Due, Advance, Step, StartsOver, Sending, Origin, Unwrap, Tick32;
  }

  /** Without a link the client gives everything up, and pauses from the last step without one for a second. */
  lemma UnlinkedStep(d: Client, c: Clock, now: nat)
    requires Inv(d, c) && Timely(c, Tock(false), now)
    ensures var d' := React(d, Tock(false), Tick32(now)); var c' := Advance(c, d, Tock(false), now);
            if d.state == Off then d' == d
            else d'.state == Backoff && !d'.valid && d'.lease == NO_LEASE && d'.sendType == 0
                 && NextSend(d', c') == now + 1000
  {
    TockRecord(d, c, false, now);
    LaterIs(now, 1000);
    UnwrapIs(now, now + 1000);
    hide Later, Tick32, Unwrap, Advance, Inv;
  }
}
