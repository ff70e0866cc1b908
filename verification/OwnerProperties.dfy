/**
 * What the network owner promises over every history: writers are serialized,
 * and "settled" means the network was seen to be the one wanted now, by the
 * policy and the unexpired leases, after a write begun under that policy.
 */
module OwnerProperties {
  import opened Base
  import opened Deadline
  import opened DhcpClient
  import opened DhcpLease
  import opened NetworkOwner
  import opened LanProperties

  // ------------------------------------------------------------------ both LANs

  /** A socket is open only under a policy that is not stopping and wants DHCP on the LAN. */
  ghost predicate Rightful(o: Owner, lan: nat) {
    && Paired(o.At(lan))
    && (o.At(lan).open ==> o.active && !o.stopping && o.policy.At(lan).dhcp)
  }

  ghost predicate LanOk(o: Owner, lan: nat) {
    var l := o.At(lan);
    Books(l) && Rested(l) && l.clock.last <= o.last && Rightful(o, lan)
  }

  ghost predicate LanGood(o: Owner, lan: nat) {
    Good(o.At(lan), o.last) && Rightful(o, lan)
  }

  /** No clock of a client in use goes unread for 2^31 ms. */
  ghost predicate LanTimely(o: Owner, lan: nat, now: nat) {
    o.At(lan).client.state != Off ==> now < o.At(lan).clock.checked + TWO31
  }

  /** The parts of the owner that serving its LANs leaves alone. */
  ghost predicate OnlyLans(o: Owner, o': Owner) {
    o' == o.(first := o'.first, second := o'.second, error := o'.error, retryAt := o'.retryAt, nextXid := o'.nextXid)
  }

  lemma ExpireLanIsGood(o: Owner, lan: nat, now: nat)
    requires lan == 1 || lan == 2
    requires LanOk(o, lan) && o.last == now && LanTimely(o, lan, now)
    ensures var o' := ExpireLan(o, lan, now);
      && LanGood(o', lan) && o'.At(3 - lan) == o.At(3 - lan)
      && o' == o.(first := o'.first, second := o'.second, dirty := o'.dirty) && (o.dirty ==> o'.dirty)
  {
    var l := o.At(lan);
    if l.client.valid {
      LeaseTimesRead(l.client, l.clock, now);
      TockIsGood(l, true, now);
    }
    hide Books, Due, React, Advance;
  }

  lemma ServeLanIsGood(ph: Phase, lan: nat, a: LanAnswers, now: nat)
    requires lan == 1 || lan == 2
    requires LanGood(ph.o, lan) && ph.o.last == now && ph.o.active
    ensures var ph' := ServeLan(ph, lan, a, now);
      && LanGood(ph'.o, lan) && ph'.o.At(3 - lan) == ph.o.At(3 - lan) && OnlyLans(ph.o, ph'.o)
      && (ph'.go ==> ph.go) && (ph'.eligible ==> ph.eligible)
      && (ph'.go && ph'.eligible && ph.o.policy.At(lan).dhcp && !ph.o.stopping ==> ph'.o.At(lan).client.valid)
  {
    hide Good, Due, ServeOpen, Opened, Paired, OnlyLans, LanGood, Owner.Put, Later;
    var o := ph.o;
    OnlyLansItself(o);
    if ph.go && o.policy.At(lan).dhcp && !o.stopping {
      if o.At(lan).open {
        ServeOpenIsGood(o, ph.eligible, lan, a, now);
      } else if Due(Tick32(now), o.retryAt) {
        if a.opens {
          var q := Opened(o, lan, now);
          OpenedIsGood(o, lan, now);
          ServeOpenIsGood(q, ph.eligible, lan, a, now);
          OnlyLansThen(o, q, ServeOpen(q, ph.eligible, lan, a, now).o);
        } else {
          RetryIsOnlyLans(o, lan, Later(Tick32(now), 1000));
        }
      }
    }
  }

  lemma OnlyLansItself(o: Owner)
    ensures OnlyLans(o, o)
  {
  }

  lemma OnlyLansThen(o: Owner, p: Owner, q: Owner)
    requires OnlyLans(o, p) && OnlyLans(p, q)
    ensures OnlyLans(o, q)
    ensures q.active == o.active && q.stopping == o.stopping && q.policy == o.policy && q.last == o.last
  {
  }

  lemma RetryIsOnlyLans(o: Owner, lan: nat, at: Tick)
    requires lan == 1 || lan == 2
    ensures var q := o.(error := 2, retryAt := at);
      && OnlyLans(o, q) && q.At(3 - lan) == o.At(3 - lan) && (LanGood(o, lan) ==> LanGood(q, lan))
  {
  }

  lemma ServeOpenIsGood(o: Owner, eligible: bool, lan: nat, a: LanAnswers, now: nat)
    requires lan == 1 || lan == 2
    requires LanGood(o, lan) && o.last == now && o.At(lan).open
    ensures var ph := ServeOpen(o, eligible, lan, a, now);
      && LanGood(ph.o, lan) && ph.o.At(3 - lan) == o.At(3 - lan) && OnlyLans(o, ph.o)
      && ph.go && (ph.eligible <==> eligible && ph.o.At(lan).client.valid)
  {
    GoodIsKept(o.At(lan), now);
    ServeIsGood(o.At(lan), LanSeen(o.observed, lan).link, a, now);
    hide Good, Kept, Serve, ServeError, Paired;
  }

  lemma GoodIsKept(l: LanState, now: nat)
    requires Good(l, now)
    ensures Kept(l, now)
  {
    hide Books;
  }

  lemma OpenedIsGood(o: Owner, lan: nat, now: nat)
    requires lan == 1 || lan == 2
    requires o.last == now && o.active && o.policy.At(lan).dhcp && !o.stopping
    ensures var q := Opened(o, lan, now);
      && LanGood(q, lan) && q.At(lan).open && q.At(3 - lan) == o.At(3 - lan) && OnlyLans(o, q) && q.last == now
  {
    BeginIsGood(o.At(lan), LanSeen(o.observed, lan).mac, NextWord(o.nextXid), now);
    var m := Do(o.At(lan), Begin(LanSeen(o.observed, lan).mac, NextWord(o.nextXid)), now);
    OpenIsNotInBooks(m, now);
    hide Books, React, Advance, NextWord, Good;
  }

  // ---------------------------------------------------- seen from the provider

  datatype Writer = Writer(epoch: nat, cancelled: bool)

  /**
   * What the provider knows from the calls it got: the write not yet reaped, the
   * policy epoch of the last write if it was reaped uncancelled, the observation
   * in force since then, and whether writers were serialized: none asked for
   * before the one before was reaped, none cancelled or polled that is not there.
   */
  datatype Watch = Watch(writer: Option<Writer>, finished: Option<nat>, looked: Option<(View, nat)>, serial: bool)

  function Note(w: Watch, op: Op): Watch {
    match op
    case Looked(v, at) => w.(looked := if v.Some? then Some((v.value, at)) else None)
    case Began(e) => w.(writer := Some(Writer(e, false)), finished := None, serial := w.serial && w.writer.None?)
    case Refused(e) => w.(serial := w.serial && w.writer.None?)
    case Cancelled(ok) =>
      if w.writer.None? then w.(serial := false)
      else w.(writer := Some(Writer(w.writer.value.epoch, w.writer.value.cancelled || ok)))
    case Polled(r) =>
      if w.writer.None? then w.(serial := false)
      else if r == 0 then w
      else w.(writer := None, looked := None,
              finished := if w.writer.value.cancelled then None else Some(w.writer.value.epoch))
  }

  function Watched(log: seq<Op>): Watch
    decreases |log|
  {
    if log == [] then Watch(None, None, None, true) else Note(Watched(log[..|log| - 1]), log[|log| - 1])
  }

  lemma WatchedMore(log: seq<Op>, op: Op)
    ensures Watched(log + [op]) == Note(Watched(log), op)
  {
    hide Note;
    assert (log + [op])[..|log|] == log;
  }

  // ------------------------------------------------------------ the invariants

  ghost predicate WriterOk(o: Owner) {
    var w := Watched(o.log);
    && w.serial && (o.job <==> w.writer.Some?) && (o.job ==> o.active)
    && o.generation == Tick32(o.epoch)
    && (o.job ==> w.writer.value.cancelled == o.canceling && o.jobGeneration == Tick32(w.writer.value.epoch)
                  && w.writer.value.epoch <= o.epoch)
    && (!o.job ==> !o.canceling)
    && (o.active && !o.dirty && !o.job ==> w.finished == Some(o.epoch))
  }

  ghost predicate LookOk(o: Owner) {
    var w := Watched(o.log);
    && (o.active ==> o.nextObserve == Tick32(o.nextAt))
    && (o.active && o.nextAt > o.last ==>
          w.looked.Some? && w.looked.value.1 <= o.last && o.nextAt <= w.looked.value.1 + 250)
    && (w.looked.Some? ==> w.looked.value.0 == o.observed)
  }

  ghost predicate LeaseInForce(l: LanState, now: nat) { l.client.valid ==> now < l.clock.Expiry() }

  /** What "settled" vouches for. */
  ghost predicate SettledMeans(o: Owner, k: Checks) {
    var w := Watched(o.log);
    o.settled ==>
      && o.active && w.writer.None? && w.finished == Some(o.epoch)
      && w.looked.Some? && w.looked.value.0 == o.observed && o.last < w.looked.value.1 + 250
      && TargetNow(o, k) == Some((o.target, o.resolver)) && Same(o.observed, o.target)
      && LeaseInForce(o.first, o.last) && LeaseInForce(o.second, o.last)
  }

  /** What "ready" vouches for beyond that. */
  ghost predicate ReadyMeans(o: Owner) {
    o.ready ==>
      && o.settled
      && (!o.stopping && o.policy.first.dhcp ==> o.first.client.valid)
      && (!o.stopping && o.policy.second.dhcp ==> o.second.client.valid)
      && (o.policy.defaultLan != 0 ==> o.target.defaultLan != 0) && (o.policy.automaticDns ==> o.target.dns.0 != "")
  }

  ghost predicate OwnerInv(o: Owner, k: Checks) {
    LanOk(o, 1) && LanOk(o, 2) && WriterOk(o) && LookOk(o) && SettledMeans(o, k) && ReadyMeans(o)
  }

  /**
   * Calls do not run backwards, every clock is read within 2^31 ms, and fewer
   * than 2^32 policies and stops come while one write is not reaped.
   */
  ghost predicate Timely(o: Owner, now: nat) {
    && o.last <= now && (o.active ==> now < o.nextAt + TWO31)
    && LanTimely(o, 1, now) && LanTimely(o, 2, now)
    && (Watched(o.log).writer.Some? ==> o.epoch < Watched(o.log).writer.value.epoch + TWO32)
  }

  // ------------------------------------------------------------- phase by phase

  /** The log grows by an observation. */
  lemma LookedKeeps(o: Owner, q: Owner, seen: Option<View>, now: nat)
    requires WriterOk(o) && q.log == o.log + [Looked(seen, now)]
    requires q.job == o.job && q.canceling == o.canceling && q.dirty == o.dirty && q.active == o.active
    requires q.generation == o.generation && q.jobGeneration == o.jobGeneration && q.epoch == o.epoch
    ensures WriterOk(q) && Watched(q.log).writer == Watched(o.log).writer
    ensures Watched(q.log).looked == if seen.Some? then Some((seen.value, now)) else None
  {
    WatchedMore(o.log, Looked(seen, now));
    hide Watched;
  }

  ghost predicate InView(o: Owner, now: nat) {
    Watched(o.log).looked.Some? && now < Watched(o.log).looked.value.1 + 250
  }

  lemma LookKeeps(o: Owner, a: Answers, now: nat)
    requires o.active && o.last == now && now < o.nextAt + TWO31 && WriterOk(o) && LookOk(o)
    ensures var ph := Look(o, a, now);
      && WriterOk(ph.o) && LookOk(ph.o) && ph.eligible && (ph.go ==> InView(ph.o, now))
      && (ph.go ==> Watched(ph.o.log).writer == Watched(o.log).writer && ph.o.epoch == o.epoch)
  {
    if !Due(Tick32(now), o.nextObserve) {
      DueIsLater(now, o.nextAt);
    } else if a.look && !a.view.unsupported {
      ClearLook(o, a, now);
    } else {
      BlindLook(o, a, now);
    }
    hide Due, Blind, Later, Watched, WriterOk;
  }

  lemma ClearLook(o: Owner, a: Answers, now: nat)
    requires o.last == now && WriterOk(o) && LookOk(o) && Due(Tick32(now), o.nextObserve) && a.look
             && !a.view.unsupported
    ensures var ph := Look(o, a, now);
      && WriterOk(ph.o) && LookOk(ph.o) && ph.eligible && InView(ph.o, now)
      && Watched(ph.o.log).writer == Watched(o.log).writer && ph.o.epoch == o.epoch
  {
    LaterIs(now, 250);
    LookedKeeps(o, Look(o, a, now).o, Some(a.view), now);
    hide Due, Blind, Later, Watched, WriterOk;
  }

  lemma BlindLook(o: Owner, a: Answers, now: nat)
    requires o.active && o.last == now && now < o.nextAt + TWO31 && WriterOk(o) && LookOk(o)
    requires Due(Tick32(now), o.nextObserve) && (!a.look || a.view.unsupported)
    ensures var ph := Look(o, a, now); WriterOk(ph.o) && LookOk(ph.o) && ph.eligible && !ph.go
  {
    DueIsLater(now, o.nextAt);
    var q := Unsighted(o, a.view, now);
    LookedKeeps(o, q, None, now);
    BlindKeeps(q, a);
    assert Look(o, a, now) == Phase(Blind(q, a), true, false);
    hide Due, Blind, Later, Watched, WriterOk;
  }

  /** One poll of an outstanding writer. */
  lemma PolledKeeps(c: Owner, q: Owner, r: int)
    requires WriterOk(c) && c.job && q.log == c.log + [Polled(r)] && q.active == c.active
    requires q.generation == c.generation && q.epoch == c.epoch
    requires r == 0 ==> q.job && q.canceling == c.canceling && q.jobGeneration == c.jobGeneration
    requires r != 0 ==> !q.job && !q.canceling
    requires r != 0 && !q.dirty ==> !c.canceling && Watched(c.log).writer.value.epoch == c.epoch
    ensures WriterOk(q)
    ensures Watched(q.log).looked == if r == 0 then Watched(c.log).looked else None
  {
    WatchedMore(c.log, Polled(r));
    hide Watched;
  }

  lemma BlindKeeps(q: Owner, a: Answers)
    requires WriterOk(q) && q.active && q.nextAt <= q.last && q.nextObserve == Tick32(q.nextAt)
    requires Watched(q.log).looked.None?
    ensures WriterOk(Blind(q, a)) && LookOk(Blind(q, a))
  {
    if q.job {
      CancelKeeps(q, a.cancel);
      PolledKeeps(Cancel(q, a.cancel), Blind(q, a), a.poll);
    }
    hide Watched, Cancel, WriterOk;
  }

  lemma CancelKeeps(o: Owner, ok: bool)
    requires WriterOk(o) && o.job
    ensures var c := Cancel(o, ok);
      && WriterOk(c) && c == o.(canceling := c.canceling, log := c.log) && (o.canceling ==> c.canceling)
      && Watched(c.log).looked == Watched(o.log).looked
      && Watched(c.log).writer.Some? && Watched(c.log).writer.value.epoch == Watched(o.log).writer.value.epoch
  {
    WatchedMore(o.log, Cancelled(ok));
    hide Watched;
  }

  /** A writer awaited: only one that began under this policy and was not cancelled can leave the owner content. */
  lemma AwaitKeeps(o: Owner, a: Answers, now: nat)
    requires WriterOk(o) && LookOk(o) && o.active && o.job && o.last == now
    requires o.epoch < Watched(o.log).writer.value.epoch + TWO32
    ensures var r := Await(o, a, now); WriterOk(r) && LookOk(r)
  {
    CancelKeeps(o, a.cancel);
    var c := if Outdated(o, now) then Cancel(o, a.cancel) else o;
    if Outdated(o, now) && !c.canceling {
      ErrorIsFree(c, 6);
    } else {
      ReapKeeps(c, a.poll, now);
    }
    hide Watched, Cancel, WriterOk, Reap, Same, Due;
  }

  lemma ErrorIsFree(o: Owner, error: nat)
    requires WriterOk(o) && LookOk(o)
    ensures WriterOk(o.(error := error)) && LookOk(o.(error := error))
  {
    hide Watched;
  }

  lemma ReapKeeps(c: Owner, poll: int, now: nat)
    requires WriterOk(c) && LookOk(c) && c.active && c.job && c.last == now
    requires c.jobGeneration != c.generation ==> c.canceling
    requires c.epoch < Watched(c.log).writer.value.epoch + TWO32
    ensures WriterOk(Reap(c, poll, now)) && LookOk(Reap(c, poll, now))
  {
    hide Watched, Same, Later;
    SameGeneration(Watched(c.log).writer.value.epoch, c.epoch);
    PolledKeeps(c, Reap(c, poll, now), poll);
  }

  lemma SameGeneration(a: nat, b: nat)
    requires a <= b < a + TWO32
    ensures Tick32(a) == Tick32(b) <==> a == b
  {
    WrapDifference(b, a);
  }

  // ------------------------------------------------------------ the whole step

  /** What the writer's books are about is unchanged, but for more to write. */
  ghost predicate SameWriter(o: Owner, q: Owner) {
    && q.log == o.log && q.job == o.job && q.canceling == o.canceling && q.active == o.active && (o.dirty ==> q.dirty)
    && q.generation == o.generation && q.jobGeneration == o.jobGeneration && q.epoch == o.epoch
    && q.nextObserve == o.nextObserve && q.nextAt == o.nextAt && q.observed == o.observed && o.last <= q.last
  }

  lemma SameWriterKeeps(o: Owner, q: Owner)
    requires WriterOk(o) && LookOk(o) && SameWriter(o, q)
    ensures WriterOk(q) && LookOk(q)
  {
    hide Watched;
  }

  /** The policy in force, and the step's readiness flags, are unchanged. */
  ghost predicate SamePolicy(o: Owner, q: Owner) {
    && q.policy == o.policy && q.active == o.active && q.stopping == o.stopping && q.last == o.last
    && q.settled == o.settled && q.ready == o.ready
  }

  ghost predicate BothGood(o: Owner) { LanGood(o, 1) && LanGood(o, 2) }

  lemma GoodElsewhere(o: Owner, q: Owner, lan: nat)
    requires LanGood(o, lan) && q.At(lan) == o.At(lan) && SamePolicy(o, q)
    ensures LanGood(q, lan)
  {
    hide Good, Paired;
  }

  lemma RefreshedIsGood(o: Owner, now: nat)
    requires LanOk(o, 1) && LanOk(o, 2) && LanTimely(o, 1, now) && LanTimely(o, 2, now) && o.last <= now
    ensures var q := Refreshed(o, now);
      BothGood(q) && SameWriter(o, q) && q.policy == o.policy && q.last == now && !q.settled && !q.ready
  {
    var z := o.(ready := false, settled := false, last := now);
    LastIsLater(o, z, 1);
    LastIsLater(o, z, 2);
    ExpireLanIsGood(z, 1, now);
    var y := ExpireLan(z, 1, now);
    LastIsLater(z, y, 2);
    ExpireLanIsGood(y, 2, now);
    var q := ExpireLan(y, 2, now);
    GoodElsewhere(y, q, 1);
    hide ExpireLan, LanOk, LanGood;
  }

  lemma LastIsLater(o: Owner, q: Owner, lan: nat)
    requires LanOk(o, lan) && q.At(lan) == o.At(lan) && o.last <= q.last
    requires q.policy == o.policy && q.active == o.active && q.stopping == o.stopping
    ensures LanOk(q, lan)
  {
    hide Books, Paired;
  }

  lemma LookLeavesLans(o: Owner, a: Answers, now: nat)
    requires BothGood(o) && o.last == now
    ensures BothGood(Look(o, a, now).o) && SamePolicy(o, Look(o, a, now).o)
  {
    var q := Look(o, a, now).o;
    LookIsElsewhere(o, a, now);
    GoodElsewhere(o, q, 1);
    GoodElsewhere(o, q, 2);
    hide LanGood, Look;
  }

  lemma LookIsElsewhere(o: Owner, a: Answers, now: nat)
    ensures var q := Look(o, a, now).o; q.first == o.first && q.second == o.second && SamePolicy(o, q)
  {
    UnsightedIsElsewhere(o, a.view, now);
    BlindIsElsewhere(Unsighted(o, a.view, now), a);
    hide Blind, Unsighted, Due, Later;
  }

  lemma UnsightedIsElsewhere(o: Owner, v: View, now: nat)
    ensures var q := Unsighted(o, v, now); q.first == o.first && q.second == o.second && SamePolicy(o, q)
  {
  }

  lemma BlindIsElsewhere(o: Owner, a: Answers)
    ensures var q := Blind(o, a); q.first == o.first && q.second == o.second && SamePolicy(o, q)
  {
    CancelIsElsewhere(o, a.cancel);
    hide Cancel;
  }

  lemma CancelIsElsewhere(o: Owner, ok: bool)
    ensures var q := Cancel(o, ok); q.first == o.first && q.second == o.second && SamePolicy(o, q)
  {
  }

  lemma OnlyLansSame(o: Owner, q: Owner)
    requires OnlyLans(o, q)
    ensures SameWriter(o, q) && SamePolicy(o, q)
  {
  }

  /** After both LANs were served: no lease held has expired, and eligibility means every lease wanted is held. */
  lemma ServedIsGood(ph: Phase, a: Answers, now: nat)
    requires BothGood(ph.o) && ph.o.last == now && ph.o.active
    ensures var q := ServeLan(ServeLan(ph, 1, a.first, now), 2, a.second, now);
      && BothGood(q.o) && SameWriter(ph.o, q.o) && SamePolicy(ph.o, q.o) && (q.go ==> ph.go)
      && (q.go && q.eligible && !q.o.stopping ==> (q.o.policy.first.dhcp ==> q.o.first.client.valid)
                                                  && (q.o.policy.second.dhcp ==> q.o.second.client.valid))
  {
    ServeLanIsGood(ph, 1, a.first, now);
    var p := ServeLan(ph, 1, a.first, now);
    OnlyLansSame(ph.o, p.o);
    GoodElsewhere(ph.o, p.o, 2);
    ServeLanIsGood(p, 2, a.second, now);
    var q := ServeLan(p, 2, a.second, now);
    OnlyLansSame(p.o, q.o);
    GoodElsewhere(p.o, q.o, 1);
    hide ServeLan, LanGood, OnlyLans;
  }

  lemma WithdrawIsGood(o: Owner, lan: nat, now: nat)
    requires lan == 1 || lan == 2
    requires BothGood(o) && o.last == now
    ensures var q := Withdraw(o, lan, now);
      BothGood(q) && SameWriter(o, q) && SamePolicy(o, q) && q.dirty == o.dirty
  {
    var l := o.At(lan);
    var q := Withdraw(o, lan, now);
    if o.policy.At(lan).dhcp && Leased(l.client) {
      assert l.client.state != Off by { LeasedIsOn(l, now); }
      ConflictIsGood(l, now);
      assert Do(l, AddressConflict, now).client == Conflict(l.client, Tick32(now)) by { ReactsToConflict(l, now); }
      assert Rightful(q, lan);
      GoodElsewhere(o, q, 3 - lan);
    }
    hide Good, React, Advance;
  }

  lemma LeasedIsOn(l: LanState, now: nat)
    requires Good(l, now) && Leased(l.client)
    ensures l.client.state != Off
  {
  }

  lemma RebuildIsGood(ph: Phase, k: Checks, now: nat)
    requires BothGood(ph.o) && ph.o.last == now
    ensures var q := Rebuild(ph, k, now);
      && BothGood(q.o) && SameWriter(ph.o, q.o) && SamePolicy(ph.o, q.o) && (q.go ==> ph.go)
      && (q.go ==> TargetNow(q.o, k) == Some((q.o.target, q.o.resolver)))
      && (q.eligible ==> ph.eligible && (q.go ==> q.o.first == ph.o.first && q.o.second == ph.o.second))
  {
    if ph.go && TargetNow(ph.o, k).None? {
      RebuildWithout(ph, k, now);
    } else {
      GoodElsewhere(ph.o, Rebuild(ph, k, now).o, 1);
      GoodElsewhere(ph.o, Rebuild(ph, k, now).o, 2);
    }
    hide LanGood, Target, Withdraw;
  }

  lemma RebuildWithout(ph: Phase, k: Checks, now: nat)
    requires BothGood(ph.o) && ph.o.last == now && ph.go && TargetNow(ph.o, k).None?
    ensures var q := Rebuild(ph, k, now);
      && BothGood(q.o) && SameWriter(ph.o, q.o) && SamePolicy(ph.o, q.o) && !q.eligible
      && (q.go ==> TargetNow(q.o, k) == Some((q.o.target, q.o.resolver)))
  {
    hide Declined;
    DeclinedIsGood(ph.o, k, now);
  }

  lemma WithoutLeasesIsGood(o: Owner, now: nat)
    requires BothGood(o) && o.last == now
    ensures var w := WithoutLeases(o, now); BothGood(w) && SameWriter(o, w) && SamePolicy(o, w)
  {
    hide LanGood, Withdraw;
    var e := o.(error := 5);
    GoodElsewhere(o, e, 1);
    GoodElsewhere(o, e, 2);
    WithdrawIsGood(e, 1, now);
    WithdrawIsGood(Withdraw(e, 1, now), 2, now);
  }

  lemma DeclinedIsGood(o: Owner, k: Checks, now: nat)
    requires BothGood(o) && o.last == now
    ensures var q := Declined(o, k, now);
      && BothGood(q.o) && SameWriter(o, q.o) && SamePolicy(o, q.o) && !q.eligible
      && (q.go ==> TargetNow(q.o, k) == Some((q.o.target, q.o.resolver)))
  {
    hide LanGood, WithoutLeases, Target;
    var w := WithoutLeases(o, now);
    WithoutLeasesIsGood(o, now);
    var q := Declined(o, k, now).o;
    assert q == w || q == w.(target := q.target, resolver := q.resolver, dirty := true);
    GoodElsewhere(w, q, 1);
    GoodElsewhere(w, q, 2);
  }

  lemma ConcludeKeeps(ph: Phase, a: Answers, k: Checks, now: nat)
    requires BothGood(ph.o) && ph.o.last == now && ph.o.active && !ph.o.settled && !ph.o.ready
    requires WriterOk(ph.o) && LookOk(ph.o)
    requires ph.go && Watched(ph.o.log).writer.Some? ==> ph.o.epoch < Watched(ph.o.log).writer.value.epoch + TWO32
    requires ph.go ==> InView(ph.o, now) && TargetNow(ph.o, k) == Some((ph.o.target, ph.o.resolver))
    requires ph.go && ph.eligible && !ph.o.stopping ==> (ph.o.policy.first.dhcp ==> ph.o.first.client.valid)
                                                        && (ph.o.policy.second.dhcp ==> ph.o.second.client.valid)
    ensures OwnerInv(Conclude(ph, a, now), k)
  {
    var o := ph.o;
    var q := Conclude(ph, a, now);
    if ph.go && !o.job && !NeedsWrite(o, now) && Same(o.observed, o.target) && !o.dirty {
      SettleKeeps(ph, a, k, now);
    } else {
      if ph.go && o.job {
        assert Watched(o.log).writer.Some? by { WriterIsThere(o); }
        AwaitKeeps(o, a, now);
        AwaitIsElsewhere(o, a, now);
      } else if ph.go && NeedsWrite(o, now) {
        WriteKeeps(o, a, now);
      }
      assert q.first == o.first && q.second == o.second && SamePolicy(o, q);
      StayGood(o, q);
    }
    hide Await, Write, NeedsWrite, WriterOk, LookOk, Same, Watched, Target, LanGood, LanOk, Eligible;
  }

  lemma WriterIsThere(o: Owner)
    requires WriterOk(o)
    ensures o.job <==> Watched(o.log).writer.Some?
  {
    hide Watched;
  }

  lemma StayGood(o: Owner, q: Owner)
    requires BothGood(o) && q.first == o.first && q.second == o.second && SamePolicy(o, q)
    ensures BothGood(q) && LanOk(q, 1) && LanOk(q, 2)
  {
    GoodElsewhere(o, q, 1);
    GoodElsewhere(o, q, 2);
    hide Books;
  }

  lemma AwaitIsElsewhere(o: Owner, a: Answers, now: nat)
    ensures var q := Await(o, a, now); q.first == o.first && q.second == o.second && SamePolicy(o, q)
  {
    CancelIsElsewhere(o, a.cancel);
    ReapIsElsewhere(if Outdated(o, now) then Cancel(o, a.cancel) else o, a.poll, now);
    hide Cancel, Outdated, Reap;
  }

  lemma ReapIsElsewhere(o: Owner, poll: int, now: nat)
    ensures var q := Reap(o, poll, now); q.first == o.first && q.second == o.second && SamePolicy(o, q)
  {
    var d := o.Did(Polled(poll));
    assert d.first == o.first && d.second == o.second && SamePolicy(o, d);
    hide Same, Later, Owner.Did;
  }

  /** A write is asked for only when none is outstanding. */
  lemma WriteKeeps(o: Owner, a: Answers, now: nat)
    requires WriterOk(o) && LookOk(o) && o.active && !o.job
    ensures var q := Write(o, a, now);
      && WriterOk(q) && LookOk(q) && q.first == o.first && q.second == o.second && SamePolicy(o, q)
  {
    WatchedMore(o.log, Began(o.epoch));
    WatchedMore(o.log, Refused(o.epoch));
    hide Watched, Later;
  }

  lemma SettleKeeps(ph: Phase, a: Answers, k: Checks, now: nat)
    requires var o := ph.o; ph.go && !o.job && !NeedsWrite(o, now) && Same(o.observed, o.target) && !o.dirty
    requires BothGood(ph.o) && ph.o.last == now && ph.o.active
    requires WriterOk(ph.o) && LookOk(ph.o) && InView(ph.o, now)
    requires TargetNow(ph.o, k) == Some((ph.o.target, ph.o.resolver))
    requires ph.eligible && !ph.o.stopping ==> (ph.o.policy.first.dhcp ==> ph.o.first.client.valid)
                                               && (ph.o.policy.second.dhcp ==> ph.o.second.client.valid)
    ensures OwnerInv(Conclude(ph, a, now), k)
  {
    var o := ph.o;
    var q := Conclude(ph, a, now);
    assert q == o.(error := 0, ready := Eligible(ph), settled := true) by {
      hide NeedsWrite, Same, Eligible;
    }
    SettledIsGood(o, q);
    assert TargetNow(q, k) == TargetNow(o, k);
    hide Conclude, Same, Watched, Target, LanOk, LanGood, Books;
  }

  lemma SettledIsGood(o: Owner, q: Owner)
    requires BothGood(o) && WriterOk(o) && LookOk(o)
             && q == o.(error := q.error, ready := q.ready, settled := q.settled)
    ensures LanOk(q, 1) && LanOk(q, 2) && WriterOk(q) && LookOk(q)
    ensures LeaseInForce(q.first, q.last) && LeaseInForce(q.second, q.last)
  {
    hide Watched, Books;
  }

  lemma StepKeeps(o: Owner, a: Answers, k: Checks, now: nat)
    requires OwnerInv(o, k) && Timely(o, now)
    ensures OwnerInv(OwnerStep(o, a, k, now), k)
  {
    if o.active {
      var r := Refreshed(o, now);
      RefreshedIsGood(o, now);
      SameWriterKeeps(o, r);
      LookKeeps(r, a, now);
      LookLeavesLans(r, a, now);
      var l := Look(r, a, now);
      ServedIsGood(l, a, now);
      var s := Served(o, a, now);
      SameWriterKeeps(l.o, s.o);
      RebuildIsGood(s, k, now);
      var t := Rebuild(s, k, now);
      SameWriterKeeps(s.o, t.o);
      ConcludeKeeps(t, a, k, now);
    }
    hide Refreshed, Look, ServeLan, Rebuild, Conclude, WriterOk, LookOk, LanOk, LanGood, Watched, Target,
         SettledMeans, ReadyMeans;
  }

  // ----------------------------------------------------------- policy and stop

  /** Closing a LAN is always in order. */
  lemma CloseIsGood(o: Owner, lan: nat, now: nat)
    requires lan == 1 || lan == 2
    requires var l := o.At(lan); Books(l) && l.clock.last <= now
    ensures var q := CloseLan(o, lan, now);
      && q.At(3 - lan) == o.At(3 - lan) && q == o.(first := q.first, second := q.second)
      && !q.At(lan).open && Paired(q.At(lan)) && Good(q.At(lan), now)
  {
    HaltIsGood(o.At(lan), now);
    hide Books, React, Advance;
  }

  lemma ClosedIsOk(o: Owner, lan: nat)
    requires Good(o.At(lan), o.last) && Paired(o.At(lan)) && !o.At(lan).open
    ensures LanOk(o, lan)
  {
    hide Books;
  }

  lemma BooksOf(o: Owner, lan: nat)
    requires LanOk(o, lan)
    ensures var l := o.At(lan); Books(l) && l.clock.last <= o.last
  {
    hide Books;
  }

  /** A LAN that keeps its mode keeps its client; one that changes it is closed. */
  lemma SwitchIsGood(o: Owner, p: Policy, lan: nat, now: nat)
    requires lan == 1 || lan == 2
    requires LanOk(o, lan) && o.last <= now
    ensures var q := SwitchLan(o, p, lan, now);
      && q.At(3 - lan) == o.At(3 - lan) && q == o.(first := q.first, second := q.second)
      && forall z: Owner | z.At(lan) == q.At(lan) && z.policy == p && z.active && !z.stopping && z.last == now ::
           LanOk(z, lan)
  {
    var q := SwitchLan(o, p, lan, now);
    BooksOf(o, lan);
    CloseIsGood(o, lan, now);
    forall z: Owner | z.At(lan) == q.At(lan) && z.policy == p && z.active && !z.stopping && z.last == now
      ensures LanOk(z, lan)
    {
      SwitchedIsOk(o, z, p, lan, now);
    }
    hide Books, Good, Paired, CloseLan, LanOk;
  }

  lemma SwitchedIsOk(o: Owner, z: Owner, p: Policy, lan: nat, now: nat)
    requires lan == 1 || lan == 2
    requires LanOk(o, lan) && o.last <= now
    requires z.At(lan) == SwitchLan(o, p, lan, now).At(lan)
    requires z.policy == p && z.active && !z.stopping && z.last == now
    ensures LanOk(z, lan)
  {
    BooksOf(o, lan);
    CloseIsGood(o, lan, now);
    if !o.active || p.At(lan).dhcp != o.policy.At(lan).dhcp {
      ClosedIsOk(z, lan);
    }
    hide Books, Good, CloseLan;
  }

  lemma CancelOk(o: Owner, ok: bool, k: Checks)
    requires OwnerInv(o, k) && o.job
    ensures OwnerInv(Cancel(o, ok), k) && !o.settled && Cancel(o, ok).epoch == o.epoch
  {
    CancelKeeps(o, ok);
    var c := Cancel(o, ok);
    assert !o.settled && !o.ready by { WriterIsThere(o); }
    assert LookOk(c) by { hide Watched, Cancel; }
    LanStays(o, c, 1);
    LanStays(o, c, 2);
    hide Watched, Cancel, LanOk, WriterOk;
  }

  lemma LanStays(o: Owner, c: Owner, lan: nat)
    requires LanOk(o, lan) && c == o.(canceling := c.canceling, log := c.log)
    ensures LanOk(c, lan)
  {
    hide Books, Paired;
  }

  lemma PolicyKeeps(o: Owner, p: Policy, cancel: bool, k: Checks, now: nat)
    requires OwnerInv(o, k) && o.last <= now
    ensures OwnerInv(TakePolicy(o, p, cancel, k, now).0, k)
  {
    var c := if o.job then Cancel(o, cancel) else o;
    if o.job {
      CancelOk(o, cancel, k);
      CancelIsElsewhere(o, cancel);
      CancelKeeps(o, cancel);
    }
    if k.policy(p) && !(c.job && !c.canceling) {
      SwitchIsGood(c, p, 1, now);
      var a := SwitchLan(c, p, 1, now);
      LastIsLater(c, a, 2);
      SwitchIsGood(a, p, 2, now);
      var b := SwitchLan(a, p, 2, now);
      var q := TakePolicy(o, p, cancel, k, now).0;
      EpochKeeps(c, q);
      assert q.At(1) == a.At(1) && q.At(2) == b.At(2);
    }
    hide Watched, Cancel, LanOk, WriterOk, SwitchLan, SettledMeans;
  }

  /** A new epoch with everything to write: the writer's books stay in order. */
  lemma EpochKeeps(o: Owner, q: Owner)
    requires WriterOk(o) && LookOk(o) && q.log == o.log && q.job == o.job && q.canceling == o.canceling
    requires q.dirty && q.epoch == o.epoch + 1 && q.generation == NextWord(o.generation)
    requires q.jobGeneration == o.jobGeneration && q.observed == o.observed && o.last <= q.last
    requires q.job ==> q.active
    requires q.active ==>
               q.nextObserve == Tick32(q.nextAt) && (q.nextAt <= q.last || (o.active && q.nextAt == o.nextAt))
    ensures WriterOk(q) && LookOk(q)
  {
    WrapSum(o.epoch, 1);
    hide Watched;
  }

  lemma StopKeeps(o: Owner, cancel: bool, k: Checks, now: nat)
    requires OwnerInv(o, k) && o.last <= now
    ensures OwnerInv(StopOwner(o, cancel, now), k)
  {
    BooksOf(o, 1);
    BooksOf(o, 2);
    CloseIsGood(o, 1, now);
    var a := CloseLan(o, 1, now);
    CloseIsGood(a, 2, now);
    var b := CloseLan(a, 2, now);
    SameWriterKeeps(o, b);
    if b.job {
      CancelKeeps(b, cancel);
    }
    var c := if b.job then Cancel(b, cancel) else b;
    var q := StopOwner(o, cancel, now);
    EpochKeeps(c, q);
    ClosedIsOk(q, 1);
    ClosedIsOk(q, 2);
    hide Watched, Cancel, LanOk, WriterOk, CloseLan, Good, Paired, Books, SettledMeans;
  }

  lemma OwnerReactKeeps(o: Owner, e: OwnerEvent, k: Checks, now: nat)
    requires OwnerInv(o, k) && Timely(o, now)
    ensures OwnerInv(OwnerReact(o, e, k, now), k)
  {
    hide OwnerStep, TakePolicy, StopOwner, OwnerInv;
    assert o.last <= now by { hide LanTimely; }
    match e {
      case PolicySet(p, cancel) => PolicyKeeps(o, p, cancel, k, now);
      case StepOnce(a) => StepKeeps(o, a, k, now);
      case Stopped(cancel) => StopKeeps(o, cancel, k, now);
    }
  }

  ghost predicate AllTimely(o: Owner, es: seq<(nat, OwnerEvent)>, k: Checks)
    decreases |es|
  {
    es == [] || (Timely(o, es[0].0) && AllTimely(OwnerReact(o, es[0].1, k, es[0].0), es[1..], k))
  }

  lemma {:induction false} OwnerHistoryKeeps(o: Owner, es: seq<(nat, OwnerEvent)>, k: Checks)
    requires OwnerInv(o, k) && AllTimely(o, es, k)
    ensures OwnerInv(OwnerRun(o, es, k), k)
    decreases |es|
  {
    hide OwnerInv, Timely, OwnerReact;
    if es != [] {
      OwnerReactKeeps(o, es[0].1, k, es[0].0);
      OwnerHistoryKeeps(OwnerReact(o, es[0].1, k, es[0].0), es[1..], k);
    }
  }

  lemma InitIsGood(seed: Word, k: Checks)
    ensures OwnerInv(InitOwner(seed), k)
  {
  }

  /** Over every timely history a write is asked for, cancelled or polled only in turn. */
  lemma WritersAreSerial(seed: Word, es: seq<(nat, OwnerEvent)>, k: Checks)
    requires AllTimely(InitOwner(seed), es, k)
    ensures var o := OwnerRun(InitOwner(seed), es, k); Watched(o.log).serial && (o.job <==> Watched(o.log).writer.Some?)
  {
    InitIsGood(seed, k);
    OwnerHistoryKeeps(InitOwner(seed), es, k);
    hide OwnerRun, AllTimely, Watched, LookOk, LanOk, SettledMeans, ReadyMeans, InitOwner;
  }

  /**
   * Settled means converged: no writer is outstanding, the network observed
   * usable within the last 250 ms and since the last write was reaped is, in the
   * fields a write can change, the one rebuilt now from the current policy and
   * from leases none of which has expired, and the last write was begun under
   * that policy and reaped uncancelled.
   */
  lemma SettledIsConverged(seed: Word, es: seq<(nat, OwnerEvent)>, k: Checks)
    requires AllTimely(InitOwner(seed), es, k) && OwnerRun(InitOwner(seed), es, k).settled
    ensures var o := OwnerRun(InitOwner(seed), es, k);
            var w := Watched(o.log);
      && w.writer.None? && w.finished == Some(o.epoch)
      && w.looked.Some? && w.looked.value.0 == o.observed && o.last < w.looked.value.1 + 250
      && TargetNow(o, k).Some? && Same(o.observed, TargetNow(o, k).value.0)
      && (o.first.client.valid ==> o.last < o.first.clock.Expiry())
      && (o.second.client.valid ==> o.last < o.second.clock.Expiry())
  {
    InitIsGood(seed, k);
    OwnerHistoryKeeps(InitOwner(seed), es, k);
    hide OwnerRun, AllTimely, Watched, WriterOk, LookOk, LanOk, ReadyMeans, InitOwner, Target, Same;
  }

  /**
   * The last write need not have succeeded: one that failed while it was current
   * is not repeated for its own sake. The next step that goes through settles
   * exactly when it sees the wanted network, written or not.
   */
  lemma FailedWriteMaySettle(c: Owner, v: View, a: Answers, eligible: bool, now: nat, next: nat)
    requires !c.settled && !c.canceling && c.jobGeneration == c.generation && Same(c.writing, c.target)
    ensures Conclude(Phase(Reap(c, -1, now).(observed := v), eligible, true), a, next).settled <==> Same(v, c.target)
  {
    hide Same, Later, Due;
  }

  const STATIC := LanPolicy(false, "10.0.0.2", "255.0.0.0", "", Some("10.255.255.255"))
  const STATIC_POLICY := Policy(STATIC, STATIC, 0, 0, false, ("", ""), "")
  const PLUGGED := LanView(true, true, true, [0, 0, 0, 0, 0, 0], "10.0.0.2", "255.0.0.0", "10.255.255.255")
  const PLUGGED_VIEW := View(PLUGGED, PLUGGED, false, 0, 0, "", ("", ""))

  function Seen(poll: int): Answers {
    var quiet := LanAnswers(true, [], 0, true);
    Answers(true, PLUGGED_VIEW, quiet, quiet, true, poll, true)
  }

  /** A static policy, a write of it that fails, and one more look. */
  function FailingRun(): seq<(nat, OwnerEvent)> {
    [(0, PolicySet(STATIC_POLICY, true)), (0, StepOnce(Seen(0))), (10, StepOnce(Seen(-1))), (20, StepOnce(Seen(0)))]
  }

  /** The owner of a static policy whose LANs are plugged in. */
  ghost predicate Idle(o: Owner) {
    && o.active && o.policy == STATIC_POLICY && !o.canceling && o.jobGeneration <= o.generation == o.epoch == 1
    && o.first.client.state == Off && !o.first.client.valid && o.second.client.state == Off && !o.second.client.valid
  }

  /** The owner when a step of it comes to the writer. */
  function Rebuilt(o: Owner, now: nat): Owner {
    var r := o.(ready := false, settled := false, last := now);
    (if Due(Tick32(now), o.nextObserve) then Sighted(r, PLUGGED_VIEW, now) else r)
      .(target := PLUGGED_VIEW, resolver := "")
  }

  lemma StaticStep(o: Owner, poll: int, k: Checks, now: nat)
    requires Idle(o) && k.settings(PLUGGED_VIEW) && (Due(Tick32(now), o.nextObserve) || o.observed == PLUGGED_VIEW)
    ensures OwnerStep(o, Seen(poll), k, now) == Conclude(Phase(Rebuilt(o, now), true, true), Seen(poll), now)
  {
    var s := Served(o, Seen(poll), now);
    assert s.go && s.eligible && s.o.observed == PLUGGED_VIEW by { hide Due, Later; }
    assert TargetNow(s.o, k) == Some((PLUGGED_VIEW, "")) by { hide Due, Later, Served; }
    hide Due, Later, Conclude, TargetNow;
  }

  lemma IdleIsTimely(o: Owner, now: nat)
    requires Idle(o) && o.last <= now < o.nextAt + TWO31
    ensures Timely(o, now)
  {
    hide Watched;
  }

  /** Before the first write, while it runs, and after it failed. */
  ghost predicate Fresh(o: Owner) {
    && Idle(o) && !o.job && o.dirty && o.last == 0 && o.nextAt == 0 && o.nextObserve == o.retryAt == 0 && o.log == []
  }

  ghost predicate Writing(o: Owner) {
    && Idle(o) && o.job && !o.dirty && o.jobGeneration == 1 && o.observed == o.target == o.writing == PLUGGED_VIEW
    && o.last == 0 && o.nextAt == 250 && o.nextObserve == 250 && o.jobDeadline == 1000
    && o.log == [Looked(Some(PLUGGED_VIEW), 0), Began(1)]
  }

  ghost predicate Failed(o: Owner) {
    && Idle(o) && !o.job && !o.dirty && o.last == 10 && o.nextAt == 10 && o.nextObserve == 10
    && o.log == [Looked(Some(PLUGGED_VIEW), 0), Began(1), Polled(-1)]
  }

  lemma StartsFresh(seed: Word, k: Checks)
    requires k.policy(STATIC_POLICY)
    ensures Timely(InitOwner(seed), 0) && Fresh(TakePolicy(InitOwner(seed), STATIC_POLICY, true, k, 0).0)
  {
  }

  lemma BeginsToWrite(o: Owner, k: Checks)
    requires Fresh(o) && k.settings(PLUGGED_VIEW)
    ensures Writing(OwnerStep(o, Seen(0), k, 0))
  {
    StaticStep(o, 0, k, 0);
    hide OwnerStep;
  }

  lemma FailsToWrite(o: Owner, k: Checks)
    requires Writing(o) && k.settings(PLUGGED_VIEW)
    ensures Failed(OwnerStep(o, Seen(-1), k, 10))
  {
    hide OwnerStep;
    StaticStep(o, -1, k, 10);
  }

  lemma SettlesAnyway(o: Owner, k: Checks)
    requires Failed(o) && k.settings(PLUGGED_VIEW)
    ensures var q := OwnerStep(o, Seen(0), k, 20); q.settled && q.log == o.log + [Looked(Some(PLUGGED_VIEW), 20)]
  {
    StaticStep(o, 0, k, 20);
    hide OwnerStep;
  }

  /** A run whose one write failed and which is settled. */
  lemma FailedWriteSettles(seed: Word, k: Checks)
    requires k.policy(STATIC_POLICY) && k.settings(PLUGGED_VIEW)
    ensures var o := OwnerRun(InitOwner(seed), FailingRun(), k);
      && AllTimely(InitOwner(seed), FailingRun(), k)
      && o.settled && o.log == [Looked(Some(PLUGGED_VIEW), 0), Began(1), Polled(-1), Looked(Some(PLUGGED_VIEW), 20)]
  {
    hide TakePolicy, OwnerStep, Timely, InitOwner;
    var es := FailingRun();
    var o := InitOwner(seed);
    var p := TakePolicy(o, STATIC_POLICY, true, k, 0).0;
    var w := OwnerStep(p, Seen(0), k, 0);
    var f := OwnerStep(w, Seen(-1), k, 10);
    StartsFresh(seed, k);
    BeginsToWrite(p, k);
    FailsToWrite(w, k);
    SettlesAnyway(f, k);
    IdleIsTimely(p, 0);
    IdleIsTimely(w, 10);
    IdleIsTimely(f, 20);
    RunOfFour(o, es, k);
  }

  lemma RunOfFour(o: Owner, es: seq<(nat, OwnerEvent)>, k: Checks)
    requires |es| == 4
    ensures var p := OwnerReact(o, es[0].1, k, es[0].0);
            var q := OwnerReact(p, es[1].1, k, es[1].0);
            var r := OwnerReact(q, es[2].1, k, es[2].0);
      && OwnerRun(o, es, k) == OwnerReact(r, es[3].1, k, es[3].0)
      && (Timely(o, es[0].0) && Timely(p, es[1].0) && Timely(q, es[2].0) && Timely(r, es[3].0) ==> AllTimely(o, es, k))
  {
    hide OwnerReact, Timely;
    var p := OwnerReact(o, es[0].1, k, es[0].0);
    var q := OwnerReact(p, es[1].1, k, es[1].0);
    var r := OwnerReact(q, es[2].1, k, es[2].0);
    var t1, t2, t3 := es[1..], es[2..], es[3..];
    assert t1[1..] == t2 && t2[1..] == t3 && t1[0] == es[1] && t2[0] == es[2] && t3[0] == es[3];
    var t4 := t3[1..];
    assert |t4| == 0;
    assert OwnerRun(r, t3, k) == OwnerReact(r, es[3].1, k, es[3].0);
    assert OwnerRun(q, t2, k) == OwnerRun(r, t3, k);
    assert OwnerRun(p, t1, k) == OwnerRun(q, t2, k);
    assert AllTimely(r, t3, k) <==> Timely(r, es[3].0);
    assert AllTimely(q, t2, k) <==> Timely(q, es[2].0) && AllTimely(r, t3, k);
    assert AllTimely(p, t1, k) <==> Timely(p, es[1].0) && AllTimely(q, t2, k);
  }
}
