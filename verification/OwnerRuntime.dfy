/**
 * The network owner as the program keeps it: one record over its two LANs and
 * their DHCP clients, updated in place call by call.
 */
module OwnerRuntime {
  import opened Base
  import opened Deadline
  import opened DhcpClient
  import opened DhcpLease
  import opened NetworkOwner
  import opened LanRuntime

  class OwnerRecord {
    const first: LanRecord
    const second: LanRecord
    var policy: Policy
    var observed: View
    var target: View
    var writing: View
    var resolver: string
    var nextObserve: Tick
    var retryAt: Tick
    var jobDeadline: Tick
    var generation: Word
    var jobGeneration: Word
    var job: bool
    var canceling: bool
    var dirty: bool
    var ready: bool
    var settled: bool
    var error: nat
    var active: bool
    var stopping: bool
    var nextXid: Word
    /** Records for the proofs. */
    var last: nat
    var nextAt: nat
    var epoch: nat
    ghost var log: seq<Op>
    ghost const Repr: set<object>

    ghost predicate Valid()
      reads Repr
    {
      && Repr == {this} + first.Repr + second.Repr && first.Repr !! second.Repr
      && this !in first.Repr && this !in second.Repr && first.Valid() && second.Valid()
    }

    ghost function Abs(): Owner
      requires Valid()
      reads Repr
    {
      Owner(policy, first.Abs(), second.Abs(), observed, target, writing, resolver, nextObserve, retryAt, jobDeadline,
            generation, jobGeneration, job, canceling, dirty, ready, settled, error, active, stopping, nextXid, last,
            nextAt, epoch, log)
    }

    /** `gateway_network_owner_init`. */
    constructor (seed: Word)
      ensures Valid() && Abs() == InitOwner(seed) && fresh(Repr)
    {
      var a := new LanRecord();
      var b := new LanRecord();
      policy, first, second := NO_POLICY, a, b;
      observed, target, writing, resolver := NO_VIEW, NO_VIEW, NO_VIEW, "";
      nextObserve, retryAt, jobDeadline, generation, jobGeneration := 0, 0, 0, 0, 0;
      job, canceling, dirty, ready, settled, error := false, false, false, false, false, 0;
      active, stopping, nextXid := false, false, if seed == 0 then 1 else seed;
      last, nextAt, epoch, log := 0, 0, 0, [];
      Repr := {this} + a.Repr + b.Repr;
    }

    function Lan(lan: nat): LanRecord { if lan == 1 then first else second }

    /** One LAN has had a turn: nothing else has changed. */
    twostate lemma Turn(lan: nat)
      requires old(Valid()) && Lan(lan).Valid()
      requires forall o: object | o in Repr && o !in Lan(lan).Repr :: unchanged(o)
      ensures Valid() && Abs() == old(Abs()).Put(lan, Lan(lan).Abs())
    {
      hide LanRecord.Valid, LanRecord.Abs;
    }

    method CancelWriter(ok: bool)
      requires Valid()
      modifies this`canceling, this`log
      ensures Valid()
      ensures Abs() == Cancel(old(Abs()), ok)
    {
      hide LanRecord.Abs, LanRecord.Valid;
      if canceling {
        return;
      }
      log := log + [Cancelled(ok)];
      canceling := ok;
    }

    method NoteOp(op: Op)
      requires Valid()
      modifies this`log
      ensures Valid()
      ensures Abs() == old(Abs()).Did(op)
    {
      log := log + [op];
    }

    method RetryAt(error: nat, at: Tick)
      requires Valid()
      modifies this`error, this`retryAt
      ensures Valid()
      ensures Abs() == old(Abs()).(error := error, retryAt := at)
    {
      hide LanRecord.Abs, LanRecord.Valid;
      this.error, retryAt := error, at;
    }

    /** A provider refused: try again in a second. */
    method RetryLater(error: nat, now: nat)
      requires Valid()
      modifies this`error, this`retryAt
      ensures Valid()
      ensures Abs() == old(Abs()).(error := error, retryAt := Later(Tick32(now), 1000))
    {
      hide Later;
      RetryAt(error, Later(Tick32(now), 1000));
    }

    method ObserveAt(tick: Tick, at: nat)
      requires Valid()
      modifies this`nextObserve, this`nextAt
      ensures Valid()
      ensures Abs() == old(Abs()).(nextObserve := tick, nextAt := at)
    {
      hide LanRecord.Abs, LanRecord.Valid;
      nextObserve, nextAt := tick, at;
    }

    /** A call of the client of a LAN. */
    method CallLan(lan: nat, e: Event, now: nat)
      requires Valid() && !e.Reply?
      modifies Lan(lan).Repr
      ensures Valid() && Abs() == old(Abs()).Put(lan, Do(old(Abs()).At(lan), e, now))
    {
      hide Do, LanRecord.Abs;
      Lan(lan).Give(e, now);
      Turn(lan);
    }

    /** Lease validity is a deadline, whether or not the network can be observed. */
    method ExpireLease(lan: nat, now: nat)
      requires Valid()
      modifies Repr
      ensures Valid()
      ensures Abs() == ExpireLan(old(Abs()), lan, now)
    {
      hide Due, Do;
      var l := Lan(lan);
      if l.client.valid && Due(Tick32(now), l.client.expiresAt) {
        CallLan(lan, Tock(true), now);
        dirty := true;
      }
    }

    /** The observation failed: cancel and reap an outstanding writer, no more. */
    method StayBlind(a: Answers)
      requires Valid()
      modifies this`canceling, this`log, this`job, this`dirty
      ensures Valid()
      ensures Abs() == Blind(old(Abs()), a)
    {
      hide Cancel, LanRecord.Abs, LanRecord.Valid;
      if !job {
        return;
      }
      CancelWriter(a.cancel);
      NoteOp(Polled(a.poll));
      if a.poll != 0 {
        DropJob();
      }
    }

    method DropJob()
      requires Valid()
      modifies this`job, this`canceling, this`dirty
      ensures Valid()
      ensures Abs() == old(Abs()).(job := false, canceling := false, dirty := true)
    {
      hide LanRecord.Abs, LanRecord.Valid;
      job, canceling, dirty := false, false, true;
    }

    method Observe(a: Answers, now: nat) returns (go: bool)
      requires Valid()
      modifies this`observed, this`nextObserve, this`nextAt, this`error, this`canceling, this`log, this`job, this`dirty
      ensures Valid()
      ensures Phase(Abs(), true, go) == Look(old(Abs()), a, now)
    {
      hide Due, Later, Blind, Unsighted, Sighted, LanRecord.Abs, LanRecord.Valid;
      if !Due(Tick32(now), nextObserve) {
        return true;
      }
      if !a.look || a.view.unsupported {
        MarkUnsighted(a.view, now);
        StayBlind(a);
        return false;
      }
      MarkSighted(a.view, now);
      go := true;
    }

    method MarkUnsighted(v: View, now: nat)
      requires Valid()
      modifies this`observed, this`error, this`log
      ensures Valid()
      ensures Abs() == Unsighted(old(Abs()), v, now)
    {
      hide LanRecord.Abs, LanRecord.Valid;
      observed, error := v, 1;
      NoteOp(Looked(None, now));
    }

    method MarkSighted(v: View, now: nat)
      requires Valid()
      modifies this`observed, this`nextObserve, this`nextAt, this`log
      ensures Valid()
      ensures Abs() == Sighted(old(Abs()), v, now)
    {
      hide Later, LanRecord.Abs, LanRecord.Valid;
      observed := v;
      ObserveAt(Later(Tick32(now), 250), now + 250);
      NoteOp(Looked(Some(v), now));
    }

    method OpenLan(lan: nat, now: nat)
      requires Valid()
      modifies Repr
      ensures Valid()
      ensures Abs() == Opened(old(Abs()), lan, now)
    {
      hide Do, NextWord;
      nextXid := NextWord(nextXid);
      var mac := if lan == 1 then observed.first.mac else observed.second.mac;
      CallLan(lan, Begin(mac, nextXid), now);
      MarkOpen(lan);
    }

    method MarkOpen(lan: nat)
      requires Valid()
      modifies Lan(lan)`open
      ensures Valid() && Abs() == old(Abs()).Put(lan, old(Abs()).At(lan).(open := true))
    {
      Lan(lan).open := true;
    }

    /** One LAN whose socket is open has its turn. */
    method ServeClient(lan: nat, a: LanAnswers, now: nat, eligible: bool) returns (still: bool)
      requires Valid()
      modifies Repr
      ensures Valid()
      ensures Phase(Abs(), still, true) == ServeOpen(old(Abs()), eligible, lan, a, now)
    {
      hide Serve, ServeError, LanRecord.Abs;
      var link := if lan == 1 then observed.first.link else observed.second.link;
      var valid, failed := Lan(lan).ServeSocket(link, a, now, error);
      Turn(lan);
      error := failed;
      still := eligible && valid;
    }

    method ServeRecord(lan: nat, a: LanAnswers, now: nat, eligible: bool) returns (still: bool, go: bool)
      requires Valid()
      modifies Repr
      ensures Valid()
      ensures Phase(Abs(), still, go) == ServeLan(Phase(old(Abs()), eligible, true), lan, a, now)
    {
      hide ServeOpen, Opened, Due, Later;
      var dhcp := policy.At(lan).dhcp;
      var open := Lan(lan).open;
      if !dhcp || stopping {
        return eligible, true;
      }
      if !open {
        if !Due(Tick32(now), retryAt) {
          return false, true;
        }
        if !a.opens {
          RetryLater(2, now);
          return eligible, false;
        }
        OpenLan(lan, now);
      }
      still := ServeClient(lan, a, now, eligible);
      go := true;
    }

    method DeclineLease(lan: nat, now: nat)
      requires Valid()
      modifies Repr
      ensures Valid()
      ensures Abs() == Withdraw(old(Abs()), lan, now)
    {
      hide Do;
      var dhcp := policy.At(lan).dhcp;
      var l := Lan(lan);
      if dhcp && (l.client.valid || l.client.state == Probing) {
        CallLan(lan, AddressConflict, now);
      }
    }

    /** The two leases as the target takes them. */
    method Wanted(k: Checks) returns (r: Option<(View, string)>)
      requires Valid()
      ensures r == TargetNow(Abs(), k)
    {
      hide Target;
      r := Target(policy, observed, first.client.Value(), second.client.Value(), k);
    }

    /** The target is rebuilt, if need be without the leases that make it unacceptable. */
    method RebuildRecord(k: Checks, now: nat, eligible: bool) returns (still: bool, go: bool)
      requires Valid()
      modifies Repr
      ensures Valid()
      ensures Phase(Abs(), still, go) == Rebuild(Phase(old(Abs()), eligible, true), k, now)
    {
      hide Target, Declined;
      var wanted := Wanted(k);
      if wanted.Some? {
        SetTarget(wanted.value.0, wanted.value.1);
        return eligible, true;
      }
      go := RebuildDeclined(k, now);
      still := false;
    }

    method RebuildDeclined(k: Checks, now: nat) returns (go: bool)
      requires Valid()
      modifies Repr
      ensures Valid()
      ensures Phase(Abs(), false, go) == Declined(old(Abs()), k, now)
    {
      hide Target, WithoutLeases;
      DeclineLeases(now);
      var wanted := Wanted(k);
      if wanted.None? {
        return false;
      }
      SetTarget(wanted.value.0, wanted.value.1);
      dirty := true;
      go := true;
    }

    method DeclineLeases(now: nat)
      requires Valid()
      modifies Repr
      ensures Valid()
      ensures Abs() == WithoutLeases(old(Abs()), now)
    {
      hide Withdraw;
      error := 5;
      DeclineLease(1, now);
      DeclineLease(2, now);
    }

    method SetTarget(v: View, text: string)
      requires Valid()
      modifies this`target, this`resolver
      ensures Valid()
      ensures Abs() == old(Abs()).(target := v, resolver := text)
    {
      hide LanRecord.Abs, LanRecord.Valid;
      target, resolver := v, text;
    }

    method ReapWriter(poll: int, now: nat)
      requires Valid()
      modifies this`job, this`canceling, this`dirty, this`nextObserve, this`nextAt, this`error, this`retryAt, this`log
      ensures Valid()
      ensures Abs() == Reap(old(Abs()), poll, now)
    {
      hide Same, Later, LanRecord.Abs, LanRecord.Valid;
      NoteOp(Polled(poll));
      if poll == 0 {
        return;
      }
      JobDone(now);
      if !canceling && poll < 0 {
        RetryLater(7, now);
      } else {
        canceling := false;
      }
    }

    method JobDone(now: nat)
      requires Valid()
      modifies this`job, this`dirty, this`nextObserve, this`nextAt
      ensures Valid()
      ensures var o := old(Abs());
              Abs() == o.(job := false, nextObserve := Tick32(now), nextAt := now,
                          dirty := o.canceling || o.jobGeneration != o.generation || !Same(o.writing, o.target))
    {
      hide Same, LanRecord.Abs, LanRecord.Valid;
      job, dirty := false, canceling || jobGeneration != generation || !Same(writing, target);
      ObserveAt(Tick32(now), now);
    }

    method AwaitWriter(a: Answers, now: nat)
      requires Valid()
      modifies this`job, this`canceling, this`dirty, this`nextObserve, this`nextAt, this`error, this`retryAt, this`log
      ensures Valid()
      ensures Abs() == Await(old(Abs()), a, now)
    {
      hide Reap, Cancel, Due, Same, LanRecord.Abs, LanRecord.Valid;
      if (jobGeneration != generation || !Same(writing, target) || Due(Tick32(now), jobDeadline)) {
        CancelWriter(a.cancel);
        if !canceling {
          error := 6;
          return;
        }
      }
      ReapWriter(a.poll, now);
    }

    method BeginWrite(a: Answers, now: nat)
      requires Valid()
      modifies this`writing, this`jobGeneration, this`job, this`dirty, this`jobDeadline, this`log, this`error,
               this`retryAt
      ensures Valid()
      ensures Abs() == Write(old(Abs()), a, now)
    {
      hide Later, LanRecord.Abs, LanRecord.Valid;
      if !a.apply {
        RetryLater(8, now);
        NoteOp(Refused(epoch));
        return;
      }
      TakeJob();
      BoundJob(Later(Tick32(now), 1000));
      NoteOp(Began(epoch));
    }

    method BoundJob(deadline: Tick)
      requires Valid()
      modifies this`dirty, this`jobDeadline
      ensures Valid()
      ensures Abs() == old(Abs()).(dirty := false, jobDeadline := deadline)
    {
      hide LanRecord.Abs, LanRecord.Valid;
      dirty, jobDeadline := false, deadline;
    }

    method TakeJob()
      requires Valid()
      modifies this`writing, this`jobGeneration, this`job
      ensures Valid()
      ensures var o := old(Abs()); Abs() == o.(writing := o.target, jobGeneration := o.generation, job := true)
    {
      hide LanRecord.Abs, LanRecord.Valid;
      writing, jobGeneration, job := target, generation, true;
    }

    method SettleRecord(eligible: bool)
      requires Valid()
      modifies this`error, this`ready, this`settled
      ensures Valid()
      ensures var o := old(Abs()); Abs() == o.(error := 0, ready := Eligible(Phase(o, eligible, true)), settled := true)
    {
      hide LanRecord.Abs, LanRecord.Valid;
      error := 0;
      Settle(eligible && (policy.defaultLan != 0 ==> target.defaultLan != 0)
             && (policy.automaticDns ==> target.dns.0 != ""));
    }

    method Settle(ready: bool)
      requires Valid()
      modifies this`ready, this`settled
      ensures Valid()
      ensures Abs() == old(Abs()).(ready := ready, settled := true)
    {
      hide LanRecord.Abs, LanRecord.Valid;
      this.ready, settled := ready, true;
    }

    method ConcludeStep(eligible: bool, a: Answers, now: nat)
      requires Valid()
      modifies Repr
      ensures Valid()
      ensures Abs() == Conclude(Phase(old(Abs()), eligible, true), a, now)
    {
      hide Await, Write, Same, Due, Eligible;
      if job {
        AwaitWriter(a, now);
      } else if (dirty || !Same(observed, target)) && Due(Tick32(now), retryAt) {
        BeginWrite(a, now);
      } else if Same(observed, target) && !dirty {
        SettleRecord(eligible);
      }
    }

    /** `gateway_network_owner_step`. */
    method StepRecord(a: Answers, k: Checks, now: nat)
      requires Valid()
      modifies Repr
      ensures Valid()
      ensures Abs() == OwnerStep(old(Abs()), a, k, now)
    {
      hide ExpireLan, Look, ServeLan, Rebuild, Conclude, LanRecord.Abs, LanRecord.Valid;
      if !active {
        return;
      }
      BeginStep(now);
      ExpireLease(1, now);
      ExpireLease(2, now);
      ghost var r := Abs();
      assert r == Refreshed(old(Abs()), now);
      var go := Observe(a, now);
      ghost var l := Phase(Abs(), true, go);
      if !go {
        StoppedEarly(l, a, k, now);
        return;
      }
      var eligible := true;
      eligible, go := ServeRecord(1, a.first, now, eligible);
      ghost var s := Phase(Abs(), eligible, go);
      if !go {
        StoppedServing(s, a, k, now);
        return;
      }
      eligible, go := ServeRecord(2, a.second, now, eligible);
      if !go {
        StoppedRebuilding(Phase(Abs(), eligible, go), a, k, now);
        return;
      }
      eligible, go := RebuildRecord(k, now, eligible);
      if !go {
        assert Conclude(Phase(Abs(), eligible, go), a, now) == Abs() by {
          StoppedConcluding(Phase(Abs(), eligible, go), a, now);
        }
        return;
      }
      ConcludeStep(eligible, a, now);
    }

    method BeginStep(now: nat)
      requires Valid()
      modifies this`ready, this`settled, this`last
      ensures Valid()
      ensures Abs() == old(Abs()).(ready := false, settled := false, last := now)
    {
      hide LanRecord.Abs, LanRecord.Valid;
      Unsettle();
      last := now;
    }

    /** A call that returned early does nothing more. */
    static lemma StoppedConcluding(ph: Phase, a: Answers, now: nat)
      requires !ph.go
      ensures Conclude(ph, a, now) == ph.o
    {
    }

    static lemma StoppedRebuilding(ph: Phase, a: Answers, k: Checks, now: nat)
      requires !ph.go
      ensures Conclude(Rebuild(ph, k, now), a, now) == ph.o
    {
    }

    static lemma StoppedServing(ph: Phase, a: Answers, k: Checks, now: nat)
      requires !ph.go
      ensures Conclude(Rebuild(ServeLan(ph, 2, a.second, now), k, now), a, now) == ph.o
    {
    }

    static lemma StoppedEarly(ph: Phase, a: Answers, k: Checks, now: nat)
      requires !ph.go
      ensures Conclude(Rebuild(ServeLan(ServeLan(ph, 1, a.first, now), 2, a.second, now), k, now), a, now) == ph.o
    {
    }

    method CloseRecord(lan: nat, now: nat)
      requires Valid()
      modifies Repr
      ensures Valid()
      ensures Abs() == CloseLan(old(Abs()), lan, now)
    {
      hide Do, LanRecord.Abs;
      Lan(lan).CloseSocket(now);
      Turn(lan);
    }

    method SwitchRecord(p: Policy, lan: nat, now: nat)
      requires Valid()
      modifies Repr
      ensures Valid()
      ensures Abs() == SwitchLan(old(Abs()), p, lan, now)
    {
      hide CloseLan;
      if !active || p.At(lan).dhcp != policy.At(lan).dhcp {
        CloseRecord(lan, now);
      }
    }

    /** An outstanding writer is cancelled; whether it could be. */
    method StopWriter(cancel: bool) returns (ok: bool)
      requires Valid()
      modifies this`canceling, this`log
      ensures Valid()
      ensures var o := old(Abs());
              var c := if o.job then Cancel(o, cancel) else o;
              Abs() == c && (ok <==> !(c.job && !c.canceling))
    {
      if job {
        CancelWriter(cancel);
        return canceling;
      }
      ok := true;
    }

    /** `gateway_network_owner_policy`. */
    method PolicyRecord(p: Policy, cancel: bool, k: Checks, now: nat) returns (r: int)
      requires Valid()
      modifies Repr
      ensures Valid()
      ensures (Abs(), r) == TakePolicy(old(Abs()), p, cancel, k, now)
    {
      hide Cancel, SwitchLan, NextWord, LanRecord.Abs, LanRecord.Valid, OwnerRecord.Abs;
      if !k.policy(p) {
        return -1;
      }
      var stopped := StopWriter(cancel);
      if !stopped {
        return -1;
      }
      SwitchRecord(p, 1, now);
      SwitchRecord(p, 2, now);
      InstallPolicy(p, now);
      NewEpoch(false, now);
      ObserveAt(Tick32(now), now);
      r := 0;
    }

    method InstallPolicy(p: Policy, now: nat)
      requires Valid()
      modifies this`policy, this`active, this`error, this`retryAt
      ensures Valid()
      ensures Abs() == old(Abs()).(policy := p, active := true, error := 0, retryAt := Tick32(now))
    {
      hide LanRecord.Abs, LanRecord.Valid;
      policy, active := p, true;
      RetryAt(0, Tick32(now));
    }

    method NewEpoch(stopping: bool, now: nat)
      requires Valid()
      modifies this`stopping, this`ready, this`settled, this`dirty, this`generation, this`epoch, this`last
      ensures Valid()
      ensures var o := old(Abs());
              Abs() == o.(stopping := stopping, ready := false, settled := false, dirty := true,
                          generation := NextWord(o.generation), epoch := o.epoch + 1, last := now)
    {
      hide NextWord, LanRecord.Abs, LanRecord.Valid;
      ClearFlags(stopping);
      generation, epoch, last := NextWord(generation), epoch + 1, now;
    }

    method ClearFlags(stopping: bool)
      requires Valid()
      modifies this`stopping, this`ready, this`settled, this`dirty
      ensures Valid()
      ensures Abs() == old(Abs()).(stopping := stopping, ready := false, settled := false, dirty := true)
    {
      hide LanRecord.Abs, LanRecord.Valid;
      this.stopping, dirty := stopping, true;
      Unsettle();
    }

    method Unsettle()
      requires Valid()
      modifies this`ready, this`settled
      ensures Valid()
      ensures Abs() == old(Abs()).(ready := false, settled := false)
    {
      hide LanRecord.Abs, LanRecord.Valid;
      ready, settled := false, false;
    }

    /** `gateway_network_owner_stop`. */
    method Stop(cancel: bool, now: nat)
      requires Valid()
      modifies Repr
      ensures Valid()
      ensures Abs() == StopOwner(old(Abs()), cancel, now)
    {
      hide Cancel, CloseLan, NextWord, LanRecord.Abs, LanRecord.Valid, OwnerRecord.Abs;
      CloseRecord(1, now);
      CloseRecord(2, now);
      var _ := StopWriter(cancel);
      NewEpoch(true, now);
    }
  }
}
