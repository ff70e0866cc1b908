/**
 * What the network owner promises in the end: with leases that stay and a provider
 * whose writes take effect it settles within four steps and stays settled, as long
 * as its pause after a failure is over; and when that pause, kept in a tick that
 * wraps, seems to last again.
 */
module OwnerProgress {
  import opened Base
  import opened Deadline
  import opened DhcpClient
  import opened DhcpLease
  import opened NetworkOwner
  import opened Claims = OwnerProperties

  // ------------------------------------------------------------ leases that stay

  /** A bound client with nothing to do: linked, no timer due, nothing received. */
  predicate Calm(l: LanState, link: bool, a: LanAnswers, now: nat) {
    && l.open && l.client.state == Bound && l.client.valid && l.client.sendType == 0 && link
    && !Due(Tick32(now), l.client.renewAt) && !Due(Tick32(now), l.client.rebindAt)
    && (a.incoming == [] || a.incoming[0] == Nothing)
  }

  /** The lease of a LAN lasts, and its client, if it is served, is calm. */
  predicate LanCalm(o: Owner, lan: nat, v: View, a: LanAnswers, now: nat) {
    var l := o.At(lan);
    && (l.client.valid ==> !Due(Tick32(now), l.client.expiresAt))
    && (o.policy.At(lan).dhcp && !o.stopping ==> Calm(l, LanSeen(v, lan).link, a, now))
  }

  /** The network can be looked at, the leases stay, and a target can be built. */
  predicate Stable(o: Owner, a: Answers, k: Checks, now: nat) {
    && o.active && a.look && !a.view.unsupported
    && LanCalm(o, 1, a.view, a.first, now) && LanCalm(o, 2, a.view, a.second, now)
    && Target(o.policy, a.view, o.first.client, o.second.client, k).Some?
  }

  /** The same LAN, but for the clock's record and the flag that tells of a change. */
  predicate SameLanState(l: LanState, m: LanState) {
    m == l.(client := l.client.(changed := m.client.changed), clock := m.clock)
  }

  /** Policy and leases are the same. */
  predicate Alike(o: Owner, q: Owner) {
    && q.active == o.active && q.stopping == o.stopping && q.policy == o.policy
    && SameLanState(o.first, q.first) && SameLanState(o.second, q.second)
  }

  lemma TargetsAgree(o: Owner, q: Owner, v: View, w: View, k: Checks)
    requires Alike(o, q)
    requires Target(o.policy, v, o.first.client, o.second.client, k).Some?
    requires Target(q.policy, w, q.first.client, q.second.client, k).Some?
    ensures Same(Target(o.policy, v, o.first.client, o.second.client, k).value.0,
                 Target(q.policy, w, q.first.client, q.second.client, k).value.0)
  {
    hide Dotted;
  }

  lemma CalmServe(l: LanState, link: bool, a: LanAnswers, now: nat, error: nat)
    requires Calm(l, link, a, now) && !Due(Tick32(now), l.client.expiresAt)
    ensures SameLanState(l, Serve(l, link, a, now)) && Serve(l, link, a, now).client.valid
    ensures ServeError(l, link, a, now, error) == error
  {
    hide Due, Advance, Elapsed, Later;
    var t := Do(l, Tock(link), now);
    assert t.client == l.client;
    assert Drain(t, a.incoming, 4, now) == (t, false);
  }

  lemma CalmOpen(o: Owner, eligible: bool, lan: nat, a: LanAnswers, now: nat)
    requires (lan == 1 || lan == 2) && Calm(o.At(lan), LanSeen(o.observed, lan).link, a, now)
    requires !Due(Tick32(now), o.At(lan).client.expiresAt)
    ensures var q := ServeOpen(o, eligible, lan, a, now);
      && q.go && q.o == o.Put(lan, q.o.At(lan)) && SameLanState(o.At(lan), q.o.At(lan))
  {
    hide Due, Calm, Serve, ServeError, SameLanState;
    CalmServe(o.At(lan), LanSeen(o.observed, lan).link, a, now, o.error);
  }

  lemma CalmLan(ph: Phase, lan: nat, v: View, a: LanAnswers, now: nat)
    requires (lan == 1 || lan == 2) && ph.go && ph.o.observed == v && LanCalm(ph.o, lan, v, a, now)
    ensures var q := ServeLan(ph, lan, a, now);
      && q.go && q.o == ph.o.Put(lan, q.o.At(lan)) && SameLanState(ph.o.At(lan), q.o.At(lan))
  {
    hide Due, Calm, ServeOpen;
    if ph.o.policy.At(lan).dhcp && !ph.o.stopping {
      CalmIsOpen(ph.o.At(lan), LanSeen(v, lan).link, a, now);
      CalmOpen(ph.o, ph.eligible, lan, a, now);
      hide SameLanState;
    }
  }

  lemma CalmIsOpen(l: LanState, link: bool, a: LanAnswers, now: nat)
    requires Calm(l, link, a, now)
    ensures l.open && l.client.valid
  {
    hide Due;
  }

  // ------------------------------------------------------------------ one step

  /** The writer's side of the record, which looking, serving and rebuilding leave alone. */
  predicate SameJob(o: Owner, q: Owner) {
    && q.job == o.job && q.canceling == o.canceling && q.dirty == o.dirty && q.writing == o.writing
    && q.generation == o.generation && q.jobGeneration == o.jobGeneration && q.jobDeadline == o.jobDeadline
    && q.retryAt == o.retryAt
  }

  /** A stable step that looks comes to the writer with the target rebuilt from what it saw. */
  lemma StableStep(o: Owner, a: Answers, k: Checks, now: nat)
    requires Stable(o, a, k, now) && Due(Tick32(now), o.nextObserve)
    ensures var ph := Rebuild(Served(o, a, now), k, now);
      && OwnerStep(o, a, k, now) == Conclude(ph, a, now)
      && ph.go && Alike(o, ph.o) && SameJob(o, ph.o) && !ph.o.settled
      && ph.o.observed == a.view && ph.o.nextObserve == Later(Tick32(now), 250)
      && ph.o.target == Wanted(o, a.view, k)
      && ph.o.log == o.log + [Looked(Some(a.view), now)] && ph.o.epoch == o.epoch
  {
    hide Due, Target, Later, ServeLan, LanCalm, Conclude;
    var r := Refreshed(o, now);
    NothingExpires(o, a, k, now);
    var l := Look(r, a, now);
    assert l == Phase(Sighted(r, a.view, now), true, true);
    assert LanCalm(l.o, 1, a.view, a.first, now) && LanCalm(l.o, 2, a.view, a.second, now) by {
      CalmElsewhere(o, l.o, 1, a.view, a.first, now);
      CalmElsewhere(o, l.o, 2, a.view, a.second, now);
    }
    CalmLan(l, 1, a.view, a.first, now);
    var s := ServeLan(l, 1, a.first, now);
    CalmElsewhere(l.o, s.o, 2, a.view, a.second, now);
    CalmLan(s, 2, a.view, a.second, now);
    var t := ServeLan(s, 2, a.second, now);
    assert t == Served(o, a, now);
    StableTarget(o, t.o, a.view, k);
  }

  lemma NothingExpires(o: Owner, a: Answers, k: Checks, now: nat)
    requires Stable(o, a, k, now)
    ensures Refreshed(o, now) == o.(ready := false, settled := false, last := now)
  {
    hide Due, Target, Calm;
  }

  lemma StableStays(o: Owner, q: Owner, a: Answers, k: Checks, now: nat)
    requires Alike(o, q) && Stable(o, a, k, now)
    ensures Stable(q, a, k, now)
  {
    hide Due, Target;
    StableTarget(o, q, a.view, k);
  }

  lemma CalmElsewhere(o: Owner, q: Owner, lan: nat, v: View, a: LanAnswers, now: nat)
    requires LanCalm(o, lan, v, a, now) && q.At(lan) == o.At(lan) && q.policy == o.policy && q.stopping == o.stopping
    ensures LanCalm(q, lan, v, a, now)
  {
    hide Due, Calm;
  }

  lemma StableTarget(o: Owner, q: Owner, v: View, k: Checks)
    requires Alike(o, q) && Target(o.policy, v, o.first.client, o.second.client, k).Some?
    ensures Target(o.policy, v, q.first.client, q.second.client, k)
            == Target(o.policy, v, o.first.client, o.second.client, k)
  {
    hide LanTarget, Gateway, Names;
    LeaseMatters(o.first.client, q.first.client, v.first, o.policy.first);
    LeaseMatters(o.second.client, q.second.client, v.second, o.policy.second);
    NamesMatter(o, q, k);
  }

  /** Of a client only its lease matters to the target. */
  lemma LeaseMatters(c: Client, d: Client, v: LanView, p: LanPolicy)
    requires d.valid == c.valid && d.lease == c.lease
    ensures LanTarget(v, p, d) == LanTarget(v, p, c) && Gateway(p, d) == Gateway(p, c)
  {
    hide Dotted;
  }

  lemma NamesMatter(o: Owner, q: Owner, k: Checks)
    requires Alike(o, q)
    ensures Names(o.policy, q.first.client, q.second.client, k) == Names(o.policy, o.first.client, o.second.client, k)
  {
    hide Dotted;
  }

  /** The network wanted when `v` is seen. */
  function Wanted(o: Owner, v: View, k: Checks): View
    requires Target(o.policy, v, o.first.client, o.second.client, k).Some?
  {
    Target(o.policy, v, o.first.client, o.second.client, k).value.0
  }

  // ------------------------------------------------------------ towards settling

  /** A provider that does at once what it is asked for. */
  predicate Prompt(a: Answers) { a.cancel && a.apply && a.poll > 0 }

  /**
   * What the next look shows after a step from `o` to `q`: a current write that was
   * reaped has taken effect, and without a reaped write nothing has changed.
   */
  predicate Obeys(o: Owner, q: Owner, a: Answers, b: Answers) {
    if o.job && !q.job then !q.dirty ==> Same(b.view, o.writing) else Same(b.view, a.view)
  }

  /** Nothing is to be written. */
  predicate Clean(o: Owner, v: View, k: Checks)
    requires Target(o.policy, v, o.first.client, o.second.client, k).Some?
  {
    !o.job && !o.dirty && Same(v, Wanted(o, v, k))
  }

  /** A current write is outstanding. */
  predicate Current(o: Owner, v: View, k: Checks, now: nat)
    requires Target(o.policy, v, o.first.client, o.second.client, k).Some?
  {
    && o.job && !o.canceling && o.jobGeneration == o.generation && Same(o.writing, Wanted(o, v, k))
    && !Due(Tick32(now), o.jobDeadline)
  }

  lemma SameIsTransitive(u: View, v: View, w: View)
    requires Same(u, v) && Same(v, w)
    ensures Same(u, w)
  {
  }

  lemma SameIsSymmetric(u: View, v: View)
    requires Same(u, v)
    ensures Same(v, u)
  {
  }

  /** What a stable step at a prompt provider leaves as it was. */
  predicate Carried(o: Owner, q: Owner, now: nat) {
    && Alike(o, q) && q.retryAt == o.retryAt && q.generation == o.generation
    && (q.nextObserve == Tick32(now) || q.nextObserve == Later(Tick32(now), 250))
    && ((o.canceling ==> o.job) ==> (q.canceling ==> q.job))
  }

  /** What the writer's turn leaves as it was. */
  predicate WriterCarries(o: Owner, q: Owner, now: nat) {
    && q.first == o.first && q.second == o.second && q.policy == o.policy && q.active == o.active
    && q.stopping == o.stopping && q.retryAt == o.retryAt && q.generation == o.generation
    && (q.nextObserve == Tick32(now) || q.nextObserve == o.nextObserve)
    && (q.canceling ==> q.job || (o.canceling && !o.job))
  }

  lemma ReapCarries(c: Owner, poll: int, now: nat)
    requires poll > 0
    ensures WriterCarries(c, Reap(c, poll, now), now)
  {
    hide Same, Later;
  }

  lemma AwaitCarries(o: Owner, a: Answers, now: nat)
    requires Prompt(a) && o.job
    ensures WriterCarries(o, Await(o, a, now), now)
  {
    hide Reap, Outdated;
    ReapCarries(o, a.poll, now);
    ReapCarries(Cancel(o, a.cancel), a.poll, now);
    ReapClears(o, a.poll, now);
    ReapClears(Cancel(o, a.cancel), a.poll, now);
  }

  lemma ReapClears(c: Owner, poll: int, now: nat)
    requires poll > 0
    ensures var q := Reap(c, poll, now); !q.job && !q.canceling
  {
    hide Same, Later;
  }

  lemma WriteCarries(o: Owner, a: Answers, now: nat)
    requires Prompt(a)
    ensures WriterCarries(o, Write(o, a, now), now)
  {
    hide Later;
  }

  lemma ConcludeCarries(ph: Phase, a: Answers, now: nat)
    requires Prompt(a)
    ensures WriterCarries(ph.o, Conclude(ph, a, now), now)
  {
    hide Await, Write, Due, Same, Eligible, NeedsWrite;
    if ph.o.job {
      AwaitCarries(ph.o, a, now);
    }
    WriteCarries(ph.o, a, now);
  }

  lemma StepCarries(o: Owner, a: Answers, k: Checks, now: nat)
    requires Stable(o, a, k, now) && Due(Tick32(now), o.nextObserve) && Prompt(a)
    ensures Carried(o, OwnerStep(o, a, k, now), now)
  {
    hide Due, Later, Target, Stable, OwnerStep, Rebuild, Served, Conclude;
    StableStep(o, a, k, now);
    ConcludeCarries(Rebuild(Served(o, a, now), k, now), a, now);
  }

  /** Nothing to write: settled. */
  lemma CleanSettles(o: Owner, a: Answers, k: Checks, now: nat)
    requires Stable(o, a, k, now) && Due(Tick32(now), o.nextObserve) && Clean(o, a.view, k)
    ensures var q := OwnerStep(o, a, k, now); q.settled && !q.job && !q.dirty
  {
    hide Due, Later, Target, Same, Stable, OwnerStep, Rebuild, Served, Eligible;
    StableStep(o, a, k, now);
  }

  /** A current write is reaped, and taken as done. */
  lemma CurrentIsReaped(o: Owner, a: Answers, k: Checks, now: nat)
    requires Stable(o, a, k, now) && Due(Tick32(now), o.nextObserve) && Prompt(a) && Current(o, a.view, k, now)
    ensures var q := OwnerStep(o, a, k, now); !q.job && !q.dirty
  {
    hide Due, Later, Target, Same, Stable, OwnerStep, Rebuild, Served, Eligible;
    StableStep(o, a, k, now);
  }

  /** A write is begun unless there is nothing to write. */
  lemma FreeWrites(o: Owner, a: Answers, k: Checks, now: nat)
    requires Stable(o, a, k, now) && Due(Tick32(now), o.nextObserve) && Prompt(a)
    requires !o.job && !Clean(o, a.view, k) && Due(Tick32(now), o.retryAt)
    ensures var q := OwnerStep(o, a, k, now);
      && q.job && q.canceling == o.canceling && q.jobGeneration == q.generation && q.writing == Wanted(o, a.view, k)
      && q.jobDeadline == Later(Tick32(now), 1000)
  {
    hide Due, Later, Target, Same, Stable, OwnerStep, Rebuild, Served, Eligible;
    StableStep(o, a, k, now);
  }

  /** Any outstanding write is reaped. */
  lemma AnyIsReaped(o: Owner, a: Answers, k: Checks, now: nat)
    requires Stable(o, a, k, now) && Due(Tick32(now), o.nextObserve) && Prompt(a) && o.job
    ensures var q := OwnerStep(o, a, k, now);
            !q.job && !q.canceling && (!q.dirty ==> Same(o.writing, Wanted(o, a.view, k)))
  {
    hide Due, Later, Target, Same, Stable, OwnerStep, Rebuild, Served, Eligible;
    StableStep(o, a, k, now);
  }

  // ------------------------------------------------------------------ whole courses

  /** Steps at these times with these answers. */
  function Course(o: Owner, steps: seq<(nat, Answers)>, k: Checks): Owner
    decreases |steps|
  {
    if steps == [] then o else Course(OwnerStep(o, steps[0].1, k, steps[0].0), steps[1..], k)
  }

  /** The provider obeys all along. */
  ghost predicate Obeyed(o: Owner, steps: seq<(nat, Answers)>, k: Checks)
    decreases |steps|
  {
    |steps| > 1 ==>
      var q := OwnerStep(o, steps[0].1, k, steps[0].0);
      Obeys(o, q, steps[0].1, steps[1].1) && Obeyed(q, steps[1..], k)
  }

  /** Every step is stable and prompt, 250 to 999 ms after the last one, with the pause after a failure over. */
  predicate Favourable(o: Owner, steps: seq<(nat, Answers)>, k: Checks) {
    && (forall i | 0 <= i < |steps| ::
          Stable(o, steps[i].1, k, steps[i].0) && Prompt(steps[i].1) && Due(Tick32(steps[i].0), o.retryAt))
    && (forall i | 0 <= i < |steps| - 1 :: steps[i].0 + 250 <= steps[i + 1].0 < steps[i].0 + 1000)
    && (steps != [] ==> Due(Tick32(steps[0].0), o.nextObserve))
    && (o.canceling ==> o.job)
  }

  /** How many steps away settling is at most, before a step that sees `v` at `now`. */
  function Distance(o: Owner, v: View, k: Checks, now: nat): nat
    requires Target(o.policy, v, o.first.client, o.second.client, k).Some?
  {
    if Clean(o, v, k) then 1 else if Current(o, v, k, now) then 2 else if !o.job then 3 else 4
  }

  lemma LooksNext(o: Owner, now: nat, next: nat)
    requires o.nextObserve == Tick32(now) || o.nextObserve == Later(Tick32(now), 250)
    requires now + 250 <= next < now + 1000
    ensures Due(Tick32(next), o.nextObserve) && !Due(Tick32(next), Later(Tick32(now), 1000))
  {
    LaterIs(now, 250);
    LaterIs(now, 1000);
    DueIsLater(next, now);
    DueIsLater(next, now + 250);
    DueIsLater(next, now + 1000);
    hide Due, Later;
  }

  /** The rest of a favourable course is one for the next owner. */
  lemma StaysFavourable(o: Owner, steps: seq<(nat, Answers)>, k: Checks)
    requires steps != [] && Favourable(o, steps, k)
    ensures Favourable(OwnerStep(o, steps[0].1, k, steps[0].0), steps[1..], k)
  {
    hide Due, Later, Stable, Prompt, OwnerStep, Alike;
    var (now, a) := steps[0];
    var q := OwnerStep(o, a, k, now);
    StepCarries(o, a, k, now);
    var rest := steps[1..];
    forall i | 0 <= i < |rest|
      ensures Stable(q, rest[i].1, k, rest[i].0) && Prompt(rest[i].1) && Due(Tick32(rest[i].0), q.retryAt)
    {
      assert rest[i] == steps[i + 1];
      StableStays(o, q, rest[i].1, k, rest[i].0);
    }
    forall i | 0 <= i < |rest| - 1 ensures rest[i].0 + 250 <= rest[i + 1].0 < rest[i].0 + 1000 {
      assert rest[i] == steps[i + 1] && rest[i + 1] == steps[i + 2];
    }
    if rest != [] {
      assert rest[0] == steps[1];
      LooksNext(q, now, rest[0].0);
    }
  }

  /** A step brings settling nearer, and what is settled stays so. */
  lemma Nearer(o: Owner, a: Answers, b: Answers, k: Checks, now: nat, next: nat)
    requires Stable(o, a, k, now) && Stable(o, b, k, next) && Due(Tick32(now), o.nextObserve) && Prompt(a)
    requires Due(Tick32(now), o.retryAt) && now + 250 <= next < now + 1000 && (o.canceling ==> o.job)
    requires Obeys(o, OwnerStep(o, a, k, now), a, b)
    ensures var q := OwnerStep(o, a, k, now);
            var d := Distance(o, a.view, k, now);
      && Target(q.policy, b.view, q.first.client, q.second.client, k).Some?
      && Distance(q, b.view, k, next) <= if d == 1 then 1 else d - 1
  {
    hide Due, Later, Target, Same, Stable, OwnerStep, LanCalm, Alike;
    var q := OwnerStep(o, a, k, now);
    StepCarries(o, a, k, now);
    StableStays(o, q, b, k, next);
    assert Target(q.policy, b.view, q.first.client, q.second.client, k).Some? by { HasTarget(q, b, k, next); }
    HasTarget(o, a, k, now);
    TargetsAgree(o, q, a.view, b.view, k);
    LooksNext(q, now, next);
    if Clean(o, a.view, k) {
      CleanSettles(o, a, k, now);
      ThenSame(b.view, a.view, Wanted(o, a.view, k), Wanted(q, b.view, k));
    } else if Current(o, a.view, k, now) {
      CurrentIsReaped(o, a, k, now);
      ThenSame(b.view, o.writing, Wanted(o, a.view, k), Wanted(q, b.view, k));
    } else if !o.job {
      FreeWrites(o, a, k, now);
    } else {
      AnyIsReaped(o, a, k, now);
    }
  }

  lemma HasTarget(o: Owner, a: Answers, k: Checks, now: nat)
    requires Stable(o, a, k, now)
    ensures Target(o.policy, a.view, o.first.client, o.second.client, k).Some?
  {
    hide Target, LanCalm;
  }

  lemma ThenSame(u: View, v: View, w: View, x: View)
    requires Same(u, v) && Same(v, w) && Same(w, x)
    ensures Same(u, x)
  {
  }

  /** Settling comes within as many steps as it is away, and stays. */
  lemma {:induction false} SettlesWithin(o: Owner, steps: seq<(nat, Answers)>, k: Checks)
    requires Favourable(o, steps, k) && Obeyed(o, steps, k) && steps != []
    requires var (now, a) := steps[0];
      && Target(o.policy, a.view, o.first.client, o.second.client, k).Some?
      && Distance(o, a.view, k, now) <= |steps|
    ensures Course(o, steps, k).settled
    decreases |steps|
  {
    hide Stable, OwnerStep, Distance, Obeys, Due, Target, Prompt;
    var (now, a) := steps[0];
    var q := OwnerStep(o, a, k, now);
    if |steps| == 1 {
      assert Clean(o, a.view, k) by { hide Clean, Current; OneAway(o, a.view, k, now); }
      CleanSettles(o, a, k, now);
      assert steps[1..] == [];
    } else {
      var (next, b) := steps[1];
      StaysFavourable(o, steps, k);
      Nearer(o, a, b, k, now, next);
      assert steps[1..][0] == steps[1];
      SettlesWithin(q, steps[1..], k);
    }
  }

  lemma OneAway(o: Owner, v: View, k: Checks, now: nat)
    requires Target(o.policy, v, o.first.client, o.second.client, k).Some? && Distance(o, v, k, now) <= 1
    ensures Clean(o, v, k)
  {
    hide Clean, Current;
  }

  function Events(steps: seq<(nat, Answers)>): seq<(nat, OwnerEvent)> {
    seq(|steps|, i requires 0 <= i < |steps| => (steps[i].0, StepOnce(steps[i].1)))
  }

  lemma {:induction false} CourseIsRun(o: Owner, steps: seq<(nat, Answers)>, k: Checks)
    ensures OwnerRun(o, Events(steps), k) == Course(o, steps, k)
    decreases |steps|
  {
    hide OwnerStep;
    if steps != [] {
      assert Events(steps)[1..] == Events(steps[1..]);
      CourseIsRun(OwnerStep(o, steps[0].1, k, steps[0].0), steps[1..], k);
    }
  }

  /**
   * Progress: from any state of an owner whose leases stay, whatever write is
   * outstanding and whatever is dirty, four or more favourable steps at a provider
   * whose writes take effect leave it settled.
   */
  lemma OwnerSettles(o: Owner, steps: seq<(nat, Answers)>, k: Checks)
    requires Favourable(o, steps, k) && Obeyed(o, steps, k) && |steps| >= 4
    ensures OwnerRun(o, Events(steps), k).settled
  {
    hide Obeyed, Course, Due, Target, Clean, Current, OwnerRun;
    HasTarget(o, steps[0].1, k, steps[0].0);
    SettlesWithin(o, steps, k);
    CourseIsRun(o, steps, k);
  }

  /** Without DHCP every look that shows both LANs is stable, if the network wanted is acceptable. */
  lemma StaticIsStable(o: Owner, a: Answers, k: Checks, now: nat)
    requires o.active && a.look && !a.view.unsupported && a.view.first.present && a.view.second.present
    requires !o.policy.first.dhcp && !o.policy.second.dhcp && !o.first.client.valid && !o.second.client.valid
    requires Target(o.policy, a.view, NO_CLIENT, NO_CLIENT, k).Some?
    ensures Stable(o, a, k, now)
  {
    hide Due, Dotted;
  }

  // ------------------------------------------------------------ the pause returns

  /**
   * The pause after a failure, or a new policy, is kept as a wrapped tick. With
   * something to write and no writer outstanding, the write is asked for exactly in
   * the first 2^31 ms after its end, and not in the 2^31 ms after those.
   */
  lemma PauseReturns(o: Owner, a: Answers, k: Checks, now: nat, r: nat)
    requires Stable(o, a, k, now) && Due(Tick32(now), o.nextObserve) && !o.job && !Clean(o, a.view, k)
    requires o.retryAt == Tick32(r) && r <= now < r + TWO32
    ensures var q := OwnerStep(o, a, k, now);
            var asked := if a.apply then Began(o.epoch) else Refused(o.epoch);
            !q.settled && q.log == o.log + [Looked(Some(a.view), now)] + (if now < r + TWO31 then [asked] else [])
  {
    hide Due, Later, Target, Same, Stable, OwnerStep, Rebuild, Served, Eligible;
    StableStep(o, a, k, now);
    DueWithin(now, r);
  }

  lemma DueWithin(now: nat, r: nat)
    requires r <= now < r + TWO32
    ensures Due(Tick32(now), Tick32(r)) <==> now < r + TWO31
  {
    WrapDifference(now, r);
  }

  const BARE := LanView(true, false, true, [0, 0, 0, 0, 0, 0], "", "", "")
  const BARE_VIEW := View(BARE, BARE, false, 0, 0, "", ("", ""))

  const LATE: nat := TWO31 + 100

  /** A static policy is written, the network settles, and 25 days later it is seen without its addresses. */
  function StallingRun(): seq<(nat, OwnerEvent)> {
    [(0, PolicySet(STATIC_POLICY, true)), (0, StepOnce(Seen(0))), (10, StepOnce(Seen(1))), (20, StepOnce(Seen(0))),
     (LATE, StepOnce(Seen(0).(view := BARE_VIEW)))]
  }

  /** After the write was reaped, and after settling. */
  ghost predicate Done(o: Owner) {
    && Idle(o) && !o.job && !o.dirty && o.last == 10 && o.nextAt == 10 && o.nextObserve == 10 && o.retryAt == 0
    && o.log == [Looked(Some(PLUGGED_VIEW), 0), Began(1), Polled(1)]
  }

  ghost predicate Rested(o: Owner) {
    && Idle(o) && !o.job && !o.dirty && o.last == 20 && o.nextAt == 270 && o.nextObserve == 270 && o.retryAt == 0
    && o.settled
    && o.log == [Looked(Some(PLUGGED_VIEW), 0), Began(1), Polled(1), Looked(Some(PLUGGED_VIEW), 20)]
  }

  lemma WriteIsDone(o: Owner, k: Checks)
    requires Writing(o) && o.retryAt == 0 && k.settings(PLUGGED_VIEW)
    ensures Done(OwnerStep(o, Seen(1), k, 10))
  {
    hide OwnerStep;
    StaticStep(o, 1, k, 10);
  }

  lemma ThenRests(o: Owner, k: Checks)
    requires Done(o) && k.settings(PLUGGED_VIEW)
    ensures Rested(OwnerStep(o, Seen(0), k, 20))
  {
    hide OwnerStep;
    StaticStep(o, 0, k, 20);
  }

  lemma ThenStalls(o: Owner, k: Checks)
    requires Rested(o) && k.settings(PLUGGED_VIEW)
    ensures var q := OwnerStep(o, Seen(0).(view := BARE_VIEW), k, LATE);
      && !q.settled && q.log == o.log + [Looked(Some(BARE_VIEW), LATE)]
  {
    hide OwnerStep;
    var a := Seen(0).(view := BARE_VIEW);
    assert Target(o.policy, BARE_VIEW, o.first.client, o.second.client, k) == Some((PLUGGED_VIEW, ""));
    BareIsStable(o, a, k);
    DueIsLater(LATE, 270);
    PauseReturns(o, a, k, LATE, 0);
  }

  lemma BareIsStable(o: Owner, a: Answers, k: Checks)
    requires Idle(o) && a == Seen(0).(view := BARE_VIEW)
    requires Target(o.policy, BARE_VIEW, o.first.client, o.second.client, k) == Some((PLUGGED_VIEW, ""))
    ensures Stable(o, a, k, LATE)
  {
    hide Due, Target;
  }

  /** Such a run: the network is not the one wanted, nothing is outstanding, and no write is asked for. */
  lemma OwnerStalls(seed: Word, k: Checks)
    requires k.policy(STATIC_POLICY) && k.settings(PLUGGED_VIEW)
    ensures var o := OwnerRun(InitOwner(seed), StallingRun(), k);
      && Claims.AllTimely(InitOwner(seed), StallingRun(), k)
      && !o.settled && o.log == [Looked(Some(PLUGGED_VIEW), 0), Began(1), Polled(1), Looked(Some(PLUGGED_VIEW), 20),
                                 Looked(Some(BARE_VIEW), LATE)]
  {
    hide TakePolicy, OwnerStep, Claims.Timely, InitOwner;
    var es := StallingRun();
    var o := InitOwner(seed);
    var p := TakePolicy(o, STATIC_POLICY, true, k, 0).0;
    var w := OwnerStep(p, Seen(0), k, 0);
    var d := OwnerStep(w, Seen(1), k, 10);
    var q := OwnerStep(d, Seen(0), k, 20);
    StartsFresh(seed, k);
    BeginsToWrite(p, k);
    KeepsPause(p, k);
    WriteIsDone(w, k);
    ThenRests(d, k);
    ThenStalls(q, k);
    IdleIsTimely(p, 0);
    IdleIsTimely(w, 10);
    IdleIsTimely(d, 20);
    IdleIsTimely(q, LATE);
    RunOfFour(o, es[..4], k);
    OneMore(o, es, k);
  }

  lemma KeepsPause(o: Owner, k: Checks)
    requires Fresh(o) && k.settings(PLUGGED_VIEW)
    ensures OwnerStep(o, Seen(0), k, 0).retryAt == 0
  {
    hide OwnerStep;
    StaticStep(o, 0, k, 0);
  }

  lemma {:induction false} OneMore(o: Owner, es: seq<(nat, OwnerEvent)>, k: Checks)
    requires es != []
    ensures var n := |es| - 1;
            var q := OwnerRun(o, es[..n], k);
      && OwnerRun(o, es, k) == OwnerReact(q, es[n].1, k, es[n].0)
      && (Claims.AllTimely(o, es[..n], k) && Claims.Timely(q, es[n].0) ==> Claims.AllTimely(o, es, k))
    decreases |es|
  {
    hide OwnerReact, Claims.Timely;
    var n := |es| - 1;
    var q := OwnerReact(o, es[0].1, k, es[0].0);
    if n == 0 {
      assert es[..0] == [] && es[1..] == [];
    } else {
      OneMore(q, es[1..], k);
      assert es[..n][1..] == es[1..][..n - 1];
    }
  }
}
