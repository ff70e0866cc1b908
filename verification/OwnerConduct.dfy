/**
 * How the network owner behaves where something is in its way: a station that
 * claims a leased address, leases that cannot be combined, a writer that takes too
 * long, a socket that breaks, and a stop.
 */
module OwnerConduct {
  import opened Base
  import opened Deadline
  import opened DhcpClient
  import opened DhcpLease
  import opened NetworkOwner
  import opened LanProperties
  import opened Claims = OwnerProperties

  // ------------------------------------------------------------- a claimed address

  /** The client gave its lease up for another station's sake; a DECLINE is waiting or was sent. */
  ghost predicate GaveWay(d: Client) {
    d.state == Backoff && !d.valid && d.error == 2 && (d.sendType == 4 || d.sendType == 0)
  }

  lemma ClaimIsHeeded(l: LanState, now: nat)
    requires l.client.lease.address != 0
    ensures var m := TakeIn(l, Arp(l.client.lease.address), now);
            GaveWay(m.client) && m.client.sendType == 4 && m.client.lease == l.client.lease && m.open == l.open
    ensures forall a | a != l.client.lease.address :: TakeIn(l, Arp(a), now) == l
  {
    hide Later, Advance;
  }

  /** Among the packets taken in a turn, a claim to the address held is heeded, whatever other claims come first. */
  lemma {:induction false} ClaimAmongFour(l: LanState, s: seq<Incoming>, n: nat, k: nat, now: nat)
    requires k < n && k < |s| && l.client.lease.address != 0 && s[k] == Arp(l.client.lease.address)
    requires forall i | 0 <= i <= k :: s[i].Arp?
    requires forall i | k < i < |s| :: s[i].Arp? || s[i].Nothing?
    ensures var (m, broken) := Drain(l, s, n, now);
            GaveWay(m.client) && m.client.sendType == 4 && !broken
    decreases n
  {
    ClaimIsHeeded(l, now);
    hide Later, Advance;
    if s[0] == Arp(l.client.lease.address) {
      OthersChangeNothing(TakeIn(l, s[0], now), s[1..], n - 1, now);
    } else {
      assert s[1..][k - 1] == s[k];
      ClaimAmongFour(l, s[1..], n - 1, k - 1, now);
    }
  }

  lemma {:induction false} OthersChangeNothing(l: LanState, s: seq<Incoming>, n: nat, now: nat)
    requires GaveWay(l.client) && l.client.sendType == 4 && forall i | 0 <= i < |s| :: s[i].Arp? || s[i].Nothing?
    ensures var (m, broken) := Drain(l, s, n, now);
            GaveWay(m.client) && m.client.sendType == 4 && !broken
    decreases n
  {
    hide Later, Advance;
    if n != 0 && s != [] && s[0] != Nothing {
      OthersChangeNothing(TakeIn(l, s[0], now), s[1..], n - 1, now);
    }
  }

  /** A turn in which the address held is claimed ends without the lease. */
  lemma ClaimedTurn(l: LanState, link: bool, a: LanAnswers, k: nat, now: nat)
    requires var t := Do(l, Tock(link), now);
      && k < 4 && k < |a.incoming| && t.client.lease.address != 0 && a.incoming[k] == Arp(t.client.lease.address)
      && forall i | 0 <= i < |a.incoming| :: a.incoming[i].Arp? || (i > k && a.incoming[i].Nothing?)
    ensures GaveWay(Serve(l, link, a, now).client)
  {
    var t := Do(l, Tock(link), now);
    ClaimAmongFour(t, a.incoming, 4, k, now);
    hide Do, Drain;
    var d := Drain(t, a.incoming, 4, now).0;
    SendingStaysAway(d, a.capacity, now);
  }

  lemma SendingStaysAway(d: LanState, capacity: nat, now: nat)
    requires GaveWay(d.client)
    ensures GaveWay(Transmitted(d, capacity, now).client)
  {
    hide Advance;
  }

  // ----------------------------------------------------- leases that do not combine

  /** What the step makes of an unacceptable target: every lease wanted is given up, and the target rebuilt without. */
  lemma UnacceptableIsDeclined(ph: Phase, k: Checks, now: nat)
    requires ph.go && TargetNow(ph.o, k).None?
    ensures var q := Rebuild(ph, k, now);
      && !q.eligible && q.o.error == 5
      && (ph.o.policy.first.dhcp && Leased(ph.o.first.client) ==>
            q.o.first.client == Conflict(ph.o.first.client, Tick32(now)))
      && (ph.o.policy.second.dhcp && Leased(ph.o.second.client) ==>
            q.o.second.client == Conflict(ph.o.second.client, Tick32(now)))
      && (q.go ==> q.o.dirty && TargetNow(q.o, k) == Some((q.o.target, q.o.resolver)))
      && (!q.go ==> TargetNow(q.o, k).None? && q.o.target == ph.o.target)
  {
    hide Target, Advance;
  }

  /** An acceptable one is taken over, and nothing else changes. */
  lemma AcceptableIsTaken(ph: Phase, k: Checks, now: nat)
    requires ph.go && TargetNow(ph.o, k).Some?
    ensures var q := Rebuild(ph, k, now);
            var (v, text) := TargetNow(ph.o, k).value;
            q == ph.(o := ph.o.(target := v, resolver := text))
  {
    hide Target;
  }

  // ------------------------------------------------------------- a slow writer

  /**
   * A write that was begun at `began` and is awaited at `now`: it is cancelled,
   * unless it is already, exactly if its policy or its target is no longer the one
   * wanted or 1000 ms have passed; and it is polled unless that was refused.
   */
  lemma WriterIsBounded(o: Owner, a: Answers, began: nat, now: nat)
    requires o.job && o.jobDeadline == Tick32(began + 1000) && began <= now < began + TWO31
    ensures var late := o.jobGeneration != o.generation || !Same(o.writing, o.target) || now >= began + 1000;
            var q := Await(o, a, now);
      && (!late || o.canceling ==> q.log == o.log + [Polled(a.poll)])
      && (late && !o.canceling ==> q.log == o.log + [Cancelled(a.cancel)] + if a.cancel then [Polled(a.poll)] else [])
      && (late && !o.canceling && !a.cancel ==> q.job && q.error == 6)
      && (a.poll != 0 && (!late || o.canceling || a.cancel) ==> !q.job)
      && (a.poll == 0 ==> q.job)
  {
    hide Due, Same, Later, Tick32, Reap, Cancel;
    DueIsLater(now, began + 1000);
    CancelAsks(o, a.cancel);
    ReapPolls(if Outdated(o, now) then Cancel(o, a.cancel) else o, a.poll, now);
  }

  lemma CancelAsks(o: Owner, ok: bool)
    ensures var c := Cancel(o, ok);
      && c.job == o.job && c.log == (if o.canceling then o.log else o.log + [Cancelled(ok)])
      && c.canceling == (o.canceling || ok)
  {
  }

  lemma ReapPolls(c: Owner, poll: int, now: nat)
    requires c.job
    ensures var q := Reap(c, poll, now); q.log == c.log + [Polled(poll)] && (q.job <==> poll == 0)
  {
    hide Same, Later;
  }

  lemma WriteSetsDeadline(o: Owner, a: Answers, now: nat)
    requires a.apply
    ensures var q := Write(o, a, now);
      && q.job && q.jobDeadline == Tick32(now + 1000) && q.jobGeneration == o.generation && q.writing == o.target
      && !q.dirty
  {
    LaterIs(now, 1000);
    hide Later, Tick32;
  }

  /** A write that failed, or was refused, is followed by a pause of 1000 ms; one that ended by a look at once. */
  lemma WriteEnds(c: Owner, poll: int, now: nat)
    requires c.job && poll != 0
    ensures var q := Reap(c, poll, now);
      && !q.job && !q.canceling && q.nextObserve == Tick32(now)
      && q.dirty == (c.canceling || c.jobGeneration != c.generation || !Same(c.writing, c.target))
      && (if poll < 0 && !c.canceling then q.error == 7 && q.retryAt == Tick32(now + 1000) else q.retryAt == c.retryAt)
  {
    LaterIs(now, 1000);
    hide Same, Later, Tick32;
  }

  lemma RefusedWritePauses(o: Owner, a: Answers, now: nat)
    requires !a.apply
    ensures var q := Write(o, a, now);
      q.error == 8 && q.retryAt == Tick32(now + 1000) && q.job == o.job && q.dirty == o.dirty
  {
    LaterIs(now, 1000);
    hide Later, Tick32;
  }

  /** A lease that expires is given up before anything is looked at, and there is something to write. */
  lemma ExpiryIsWritten(o: Owner, lan: nat, now: nat)
    requires lan == 1 || lan == 2
    requires LanOk(o, lan) && o.last <= now && LanTimely(o, lan, now) && o.At(lan).client.valid
    ensures var q := ExpireLan(o, lan, now);
      if now < o.At(lan).clock.Expiry() then q == o
      else q.dirty && !q.At(lan).client.valid && q.At(lan).client.state == Selecting && q.At(3 - lan) == o.At(3 - lan)
  {
    var l := o.At(lan);
    BooksOf(o, lan);
    ValidIsLeased(l, now);
    LeaseTimesRead(l.client, l.clock, now);
    if now >= l.clock.Expiry() {
      ExpiredTock(l.client, l.clock, now);
    }
    hide Inv, Due, Step, Advance, Pacing, Vouched;
  }

  lemma ValidIsLeased(l: LanState, now: nat)
    requires Books(l) && l.client.valid && l.clock.last <= now < l.clock.checked + TWO31
    ensures LeaseOk(l.client, l.clock) && l.clock.checked <= now && l.client.state != Off
  {
    hide Origin, Sending, Pacing, Vouched;
  }

  // ---------------------------------------------------------- what is to be sent

  /** What a turn finds to send it sends; only the DECLINE of a refused probe waits for the next. */
  lemma TurnSends(l: LanState, link: bool, a: LanAnswers, now: nat)
    requires Kept(l, now) && Paired(l) && l.open && a.capacity >= 300
    ensures var m := Serve(l, link, a, now); m.client.sendType == 0 || (GaveWay(m.client) && m.client.sendType == 4)
  {
    hide Books, Kept, Drain, Probe, React, Advance, Good, Busy;
    var t := Do(l, Tock(link), now);
    TockIsGood(l, link, now);
    DrainIsGood(t, a.incoming, 4, now);
    var d := Drain(t, a.incoming, 4, now).0;
    TransmitIsGood(d, a.capacity, now);
    var s := Transmitted(d, a.capacity, now);
    Sent(d, a.capacity, now);
    ProbeSendsNothing(s, a.probe, now);
  }

  lemma Sent(d: LanState, capacity: nat, now: nat)
    requires capacity >= 300
    ensures Transmitted(d, capacity, now).client.sendType == 0
  {
    hide Advance;
  }

  lemma ProbeSendsNothing(l: LanState, ok: bool, now: nat)
    requires Busy(l, now) && ReadNow(l, now) && l.client.sendType == 0
    ensures var d := Probe(l, ok, now).client; d.sendType == 0 || (GaveWay(d) && d.sendType == 4)
  {
    if l.client.state == Probing {
      UnexpiredProbe(l, now);
    }
    hide Busy, Advance, Due, Step, Later;
  }

  lemma UnexpiredProbe(l: LanState, now: nat)
    requires Busy(l, now) && ReadNow(l, now) && l.client.state == Probing
    ensures !Due(Tick32(now), l.client.expiresAt)
  {
    LeaseTimesRead(l.client, l.clock, now);
    hide Due, Origin, Sending, Pacing, Vouched;
  }

  // ------------------------------------------------------------ broken sockets

  /** A socket that breaks is closed and its client stopped; the next step opens it anew, once the pause is over. */
  lemma BrokenIsClosed(l: LanState, rest: seq<Incoming>, n: nat, now: nat)
    requires n > 0
    ensures var (m, broken) := Drain(l, [Broken] + rest, n, now);
            broken && !m.open && m.client.state == Off && !m.client.valid
  {
    hide Advance;
  }

  lemma OpensAgain(ph: Phase, lan: nat, a: LanAnswers, now: nat)
    requires lan == 1 || lan == 2
    requires ph.go && ph.o.policy.At(lan).dhcp && !ph.o.stopping && !ph.o.At(lan).open
    ensures var q := ServeLan(ph, lan, a, now);
      && (!Due(Tick32(now), ph.o.retryAt) ==> q == ph.(eligible := false))
      && (Due(Tick32(now), ph.o.retryAt) && !a.opens ==>
            !q.go && q.o.error == 2 && q.o.retryAt == Tick32(now + 1000) && SameLans(ph.o, q.o))
      && (Due(Tick32(now), ph.o.retryAt) && a.opens ==> q.go)
  {
    hide Due, Later, Opened, ServeOpen, Tick32;
    LaterIs(now, 1000);
    if a.opens {
      ServesOn(Opened(ph.o, lan, now), ph.eligible, lan, a, now);
    }
  }

  lemma ServesOn(o: Owner, eligible: bool, lan: nat, a: LanAnswers, now: nat)
    ensures ServeOpen(o, eligible, lan, a, now).go
  {
    hide Serve, ServeError;
  }

  /** Opened, its client asks for a lease, with the hardware address seen and a number of its own. */
  lemma BeginsAnew(o: Owner, lan: nat, now: nat)
    requires lan == 1 || lan == 2
    ensures var q := Opened(o, lan, now); var d := q.At(lan).client;
      && q.At(lan).open && q.At(3 - lan) == o.At(3 - lan) && q.nextXid == NextWord(o.nextXid)
      && d.state == Selecting && d.mac == LanSeen(o.observed, lan).mac
      && d.xid == (if q.nextXid == 0 then 1 else q.nextXid) && !d.valid
  {
    hide Advance, NextWord;
  }

  // ------------------------------------------------------------------- a stop

  ghost predicate SameLans(o: Owner, q: Owner) {
    q.first == o.first && q.second == o.second && q.stopping == o.stopping && q.policy == o.policy
  }

  /** Stopped: no client is on, no socket open, and none will be opened. */
  ghost predicate Resting(o: Owner) {
    && o.stopping && !o.first.open && !o.second.open
    && o.first.client.state == Off && o.second.client.state == Off && !o.first.client.valid && !o.second.client.valid
  }

  lemma StopRests(o: Owner, cancel: bool, now: nat)
    ensures var q := StopOwner(o, cancel, now);
      && Resting(q) && !q.settled && !q.ready && q.dirty && q.policy == o.policy
      && (o.job && !o.canceling ==> q.canceling == cancel && q.log == o.log + [Cancelled(cancel)])
  {
    hide Advance;
  }

  /** Until the next policy it stays so, whatever the steps find. */
  lemma RestsOn(o: Owner, e: OwnerEvent, k: Checks, now: nat)
    requires Resting(o) && !e.PolicySet?
    ensures Resting(OwnerReact(o, e, k, now))
  {
    match e {
      case Stopped(cancel) => StopRests(o, cancel, now);
      case StepOnce(a) => StepRests(o, a, k, now);
    }
    hide OwnerStep, StopOwner;
  }

  lemma StepRests(o: Owner, a: Answers, k: Checks, now: nat)
    requires Resting(o)
    ensures Resting(OwnerStep(o, a, k, now))
  {
    var r := Refreshed(o, now);
    assert SameLans(o, r);
    LookRests(r, a, now);
    var s := Served(o, a, now);
    assert SameLans(o, s.o) by { hide Look, Refreshed; }
    RebuildRests(s, k, now);
    ConcludeRests(Rebuild(s, k, now), a, now);
    hide Served, Rebuild, Conclude, Refreshed, Look;
  }

  lemma LookRests(o: Owner, a: Answers, now: nat)
    ensures SameLans(o, Look(o, a, now).o)
  {
    hide Look;
    LookIsElsewhere(o, a, now);
  }

  lemma RebuildRests(ph: Phase, k: Checks, now: nat)
    requires Resting(ph.o)
    ensures SameLans(ph.o, Rebuild(ph, k, now).o)
  {
    hide Target;
    var w := WithoutLeases(ph.o, now);
    NothingToWithdraw(ph.o, now);
    hide WithoutLeases;
  }

  lemma NothingToWithdraw(o: Owner, now: nat)
    requires Resting(o)
    ensures WithoutLeases(o, now) == o.(error := 5)
  {
    hide Do;
  }

  lemma ConcludeRests(ph: Phase, a: Answers, now: nat)
    ensures SameLans(ph.o, Conclude(ph, a, now))
  {
    hide Await, Due, Later, Same, Eligible;
    AwaitIsElsewhere(ph.o, a, now);
  }

  /** A policy taken wakes it; a LAN that keeps its mode keeps its client, one that changes it starts anew. */
  lemma PolicyIsTaken(o: Owner, p: Policy, cancel: bool, k: Checks, now: nat)
    requires k.policy(p) && (o.job && !o.canceling ==> cancel)
    ensures var (q, r) := TakePolicy(o, p, cancel, k, now);
      && r == 0 && q.policy == p && q.active && !q.stopping && !q.settled && !q.ready && q.dirty
      && q.nextObserve == Tick32(now) && q.retryAt == Tick32(now)
      && (o.active && p.first.dhcp == o.policy.first.dhcp ==> q.first == o.first)
      && (!(o.active && p.first.dhcp == o.policy.first.dhcp) ==> !q.first.open && q.first.client.state == Off)
      && (o.active && p.second.dhcp == o.policy.second.dhcp ==> q.second == o.second)
      && (!(o.active && p.second.dhcp == o.policy.second.dhcp) ==> !q.second.open && q.second.client.state == Off)
      && (o.job ==> q.canceling)
  {
    hide SwitchLan, Cancel;
    var c := if o.job then Cancel(o, cancel) else o;
    CancelIsElsewhere(o, cancel);
    CancelAsks(o, cancel);
    SwitchMeans(c, p, 1, now);
    SwitchMeans(SwitchLan(c, p, 1, now), p, 2, now);
  }

  lemma SwitchMeans(o: Owner, p: Policy, lan: nat, now: nat)
    requires lan == 1 || lan == 2
    ensures var q := SwitchLan(o, p, lan, now);
      && q.At(3 - lan) == o.At(3 - lan) && q == o.(first := q.first, second := q.second)
      && (if o.active && p.At(lan).dhcp == o.policy.At(lan).dhcp then q.At(lan) == o.At(lan)
          else !q.At(lan).open && q.At(lan).client.state == Off)
  {
    hide Advance;
  }

  // ------------------------------------------------------------------ readiness

  /** A LAN that counts for readiness: under DHCP, of an owner that is not stopping. */
  predicate Counts(o: Owner, lan: nat) { o.policy.At(lan).dhcp && !o.stopping }

  lemma EligibleByLease(ph: Phase, lan: nat, a: LanAnswers, now: nat)
    requires lan == 1 || lan == 2
    requires LanGood(ph.o, lan) && ph.o.last == now && ph.o.active
    ensures var q := ServeLan(ph, lan, a, now);
      q.go ==> (q.eligible <==> ph.eligible && (Counts(ph.o, lan) ==> q.o.At(lan).client.valid))
  {
    hide ServeOpen, Opened, Due, Later, Good;
    if ph.go && Counts(ph.o, lan) {
      if ph.o.At(lan).open {
        EligibleIfValid(ph.o, ph.eligible, lan, a, now);
      } else {
        EligibleIfValid(Opened(ph.o, lan, now), ph.eligible, lan, a, now);
        ClosedIsInvalid(ph.o, lan);
      }
    }
  }

  lemma ClosedIsInvalid(o: Owner, lan: nat)
    requires LanGood(o, lan) && !o.At(lan).open
    ensures !o.At(lan).client.valid
  {
  }

  lemma EligibleIfValid(o: Owner, eligible: bool, lan: nat, a: LanAnswers, now: nat)
    requires lan == 1 || lan == 2
    ensures var ph := ServeOpen(o, eligible, lan, a, now); ph.eligible <==> eligible && ph.o.At(lan).client.valid
  {
    hide Serve, ServeError;
  }

  /** Every LAN that counts holds a lease. */
  predicate AllLeased(o: Owner) {
    (Counts(o, 1) ==> o.first.client.valid) && (Counts(o, 2) ==> o.second.client.valid)
  }

  lemma ServedEligible(ph: Phase, a: Answers, now: nat)
    requires BothGood(ph.o) && ph.o.last == now && ph.o.active && ph.eligible
    ensures var q := ServeLan(ServeLan(ph, 1, a.first, now), 2, a.second, now);
      q.go ==> (q.eligible <==> AllLeased(q.o))
  {
    hide ServeLan, LanGood, OnlyLans;
    EligibleByLease(ph, 1, a.first, now);
    ServeLanIsGood(ph, 1, a.first, now);
    var p := ServeLan(ph, 1, a.first, now);
    OnlyLansSame(ph.o, p.o);
    GoodElsewhere(ph.o, p.o, 2);
    EligibleByLease(p, 2, a.second, now);
    ServeLanIsGood(p, 2, a.second, now);
    OnlyLansSame(p.o, ServeLan(p, 2, a.second, now).o);
  }

  /** A target that could be rebuilt only without leases means a lease that is missing now. */
  lemma DeclinedIsUnleased(ph: Phase, k: Checks, now: nat)
    requires BothGood(ph.o) && ph.o.last == now && ph.go && TargetNow(ph.o, k).None? && Rebuild(ph, k, now).go
    ensures !AllLeased(Rebuild(ph, k, now).o)
  {
    hide TargetNow, Rebuild, LanGood;
    UnacceptableIsDeclined(ph, k, now);
    SomethingWithdrawn(ph, k, now);
    if ph.o.stopping {
      StoppedHasNoLease(ph.o, 1);
      StoppedHasNoLease(ph.o, 2);
    }
    RebuildIsGood(ph, k, now);
  }

  lemma SomethingWithdrawn(ph: Phase, k: Checks, now: nat)
    requires ph.go && TargetNow(ph.o, k).None? && Rebuild(ph, k, now).go
    ensures (ph.o.policy.first.dhcp && Leased(ph.o.first.client))
         || (ph.o.policy.second.dhcp && Leased(ph.o.second.client))
  {
    hide Target, WithoutLeases, Leased;
    NothingWithdrawn(ph.o, now);
  }

  lemma NothingWithdrawn(o: Owner, now: nat)
    ensures !(o.policy.first.dhcp && Leased(o.first.client)) && !(o.policy.second.dhcp && Leased(o.second.client)) ==>
              WithoutLeases(o, now) == o.(error := 5)
  {
    hide Do;
  }

  lemma StoppedHasNoLease(o: Owner, lan: nat)
    requires LanGood(o, lan) && o.stopping
    ensures !Leased(o.At(lan).client)
  {
  }

  /**
   * A step that settles, in any timely history, finds the owner ready exactly if
   * every LAN under DHCP holds a lease, the route wanted is there and so is a name
   * server where they come from a lease.
   */
  lemma ReadyExactly(seed: Word, es: seq<(nat, OwnerEvent)>, a: Answers, k: Checks, now: nat)
    requires var o := OwnerRun(InitOwner(seed), es, k);
             Claims.AllTimely(InitOwner(seed), es, k) && Claims.Timely(o, now) && o.active
    ensures var q := OwnerStep(OwnerRun(InitOwner(seed), es, k), a, k, now);
      q.settled ==>
        (q.ready <==> && AllLeased(q) && (q.policy.defaultLan != 0 ==> q.target.defaultLan != 0)
                      && (q.policy.automaticDns ==> q.target.dns.0 != ""))
  {
    hide OwnerInv, OwnerStep, OwnerRun, InitOwner, Claims.Timely, Claims.AllTimely;
    InitIsGood(seed, k);
    OwnerHistoryKeeps(InitOwner(seed), es, k);
    StepIsReady(OwnerRun(InitOwner(seed), es, k), a, k, now);
  }

  lemma StepIsReady(o: Owner, a: Answers, k: Checks, now: nat)
    requires OwnerInv(o, k) && Claims.Timely(o, now) && o.active
    ensures var q := OwnerStep(o, a, k, now);
      q.settled ==>
        (q.ready <==> && AllLeased(q) && (q.policy.defaultLan != 0 ==> q.target.defaultLan != 0)
                      && (q.policy.automaticDns ==> q.target.dns.0 != ""))
  {
    hide Refreshed, Look, ServeLan, Rebuild, Conclude, WriterOk, LookOk, LanOk, LanGood, Watched, Target,
         SettledMeans, ReadyMeans, Same, AllLeased;
    var r := Refreshed(o, now);
    RefreshedIsGood(o, now);
    LookLeavesLans(r, a, now);
    LooksEligible(r, a, now);
    var l := Look(r, a, now);
    ServedIsGood(l, a, now);
    ServedEligible(l, a, now);
    var s := Served(o, a, now);
    RebuildIsGood(s, k, now);
    RebuildEligible(s, k, now);
    ReadyIfEligible(Rebuild(s, k, now), a, now);
  }

  lemma LooksEligible(o: Owner, a: Answers, now: nat)
    ensures Look(o, a, now).eligible
  {
    hide Due, Blind, Later;
  }

  lemma RebuildEligible(ph: Phase, k: Checks, now: nat)
    requires BothGood(ph.o) && ph.o.last == now && (ph.go ==> (ph.eligible <==> AllLeased(ph.o)))
    ensures var q := Rebuild(ph, k, now); q.go ==> (q.eligible <==> AllLeased(q.o))
  {
    hide Target, LanGood, Declined;
    if ph.go && TargetNow(ph.o, k).Some? {
      AcceptableIsTaken(ph, k, now);
    } else if Rebuild(ph, k, now).go {
      DeclinedIsUnleased(ph, k, now);
      UnacceptableIsDeclined(ph, k, now);
    }
  }

  lemma ReadyIfEligible(ph: Phase, a: Answers, now: nat)
    requires !ph.o.settled && (ph.go ==> (ph.eligible <==> AllLeased(ph.o)))
    ensures var q := Conclude(ph, a, now);
      q.settled ==>
        (q.ready <==> && AllLeased(q) && (q.policy.defaultLan != 0 ==> q.target.defaultLan != 0)
                      && (q.policy.automaticDns ==> q.target.dns.0 != ""))
  {
    hide Await, Write, NeedsWrite, Same;
    AwaitIsElsewhere(ph.o, a, now);
    WriteSettlesNothing(ph.o, a, now);
  }

  lemma WriteSettlesNothing(o: Owner, a: Answers, now: nat)
    ensures Write(o, a, now).settled == o.settled
  {
    hide Later;
  }
}
