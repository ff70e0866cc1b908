/**
 * That the network manager gets somewhere, in time that does not wrap: what makes
 * it roll back and what does not, and that a candidate whose provider, bindings
 * and client all play their part is kept.
 */
module ManagerProgress {
  import opened Base
  import opened Deadline
  import opened NetworkManager

  /** How long the protocol may stay in the state it enters; the other states keep the deadline they find. */
  function Allowance(s: State): Option<nat> {
    match s
    case Applying => Some(30000)
    case WaitConfirm => Some(60000)
    case Committing => Some(3000)
    case RollingBack => Some(30000)
    case _ => None
  }

  /** The deadline as an observer keeps it, after a call at `now` that made `m` into `n`. */
  function NextDue(m: Manager, due: nat, n: Manager, now: nat): nat {
    if n.state != m.state && Allowance(n.state).Some? then now + Allowance(n.state).value else due
  }

  ghost predicate DueIs(m: Manager, due: nat) { Busy(m) ==> m.deadline == Deadline(Tick32(due), true) }

  /** The deadline lies less than 2^31 ms from now. */
  predicate Near(due: nat, now: nat) { now < due + TWO31 && due <= now + TWO31 }

  lemma ReactDue(m: Manager, due: nat, e: Event, now: nat)
    requires DueIs(m, due)
    ensures DueIs(React(m, e, Tick32(now)), NextDue(m, due, React(m, e, Tick32(now)), now))
  {
    hide Expired, Tick32, NextWord;
    DeadlineAfter(now, APPLY_MS);
    DeadlineAfter(now, CONFIRM_MS);
    DeadlineAfter(now, COMMIT_MS);
    DeadlineAfter(now, ROLLBACK_MS);
    hide After;
  }

  /** The manager after the events, and its deadline as an observer keeps it. */
  function Life(es: seq<(nat, Event)>): (Manager, nat) {
    if es == [] then (InitManager(), 0) else
    var (m, due) := Life(es[..|es| - 1]);
    var (now, e) := es[|es| - 1];
    var n := React(m, e, Tick32(now));
    (n, NextDue(m, due, n, now))
  }

  lemma {:induction false} LifeIsDue(es: seq<(nat, Event)>)
    ensures DueIs(Life(es).0, Life(es).1)
    decreases |es|
  {
    hide React, NextDue, DueIs;
    if es == [] {
      assert DueIs(InitManager(), 0) by { InitIsDue(); }
    } else {
      var (m, due) := Life(es[..|es| - 1]);
      LifeIsDue(es[..|es| - 1]);
      ReactDue(m, due, es[|es| - 1].1, es[|es| - 1].0);
    }
  }

  lemma InitIsDue()
    ensures DueIs(InitManager(), 0)
  {
  }

  /**
   * What an apply comes to: refused, nothing changes; a candidate that cannot be
   * staged has failed and nothing is restored; one that cannot be applied is rolled
   * back; else it is under way, with 30 s to be ready and bound.
   */
  lemma ApplyGoes(m: Manager, valid: bool, now: nat, p: Provider)
    ensures var n := React(m, Apply(valid, p), Tick32(now));
      if Busy(m) || m.state == RollbackFailed || m.state == DurabilityUncertain || !valid then n == m
      else
        && n.alive && !n.confirmation && !n.rollback && !n.bindings
        && (p.stage != 0 ==> n.state == FailedState && n.reason == StageFailed && n.error == p.stage && n.trace == []
                             && n.generation == m.generation)
        && (p.stage == 0 ==> n.generation == NextWord(m.generation))
        && (p.stage == 0 && p.apply != 0 ==>
              n.reason == ApplyFailed && n.trace == [Restored(p.restore)]
              && n.state == if p.restore == 0 then RollingBack else RollbackFailed)
        && (p.stage == 0 && p.apply == 0 ==>
              n.state == Applying && n.trace == [] && n.deadline == Deadline(Tick32(now + 30000), true))
  {
    DeadlineAfter(now, APPLY_MS);
    hide Tick32, NextWord;
  }

  // --------------------------------------------------------- what rolls it back

  /** Why a step rolls a candidate back, if it does. */
  ghost function Cause(m: Manager, due: nat, now: nat, p: Provider): Reason {
    if !m.alive then Peer
    else if m.rollback then Revert
    else if now >= due then DeadlinePassed
    else match m.state
      case Applying => if p.poll < 0 then Observation else NoReason
      case WaitConfirm => if p.poll == 1 && m.bindings then NoReason else Observation
      case Committing => if p.commit in {0, 1, -2} then NoReason else CommitFailed
      case _ => NoReason
  }

  ghost predicate BackedOut(n: Manager) { n.state == RollingBack || n.state == RollbackFailed }

  /** The provider was told to restore, last of all, and that is the reason given. */
  ghost predicate RestoredFor(n: Manager, reason: Reason, p: Provider) {
    && n.reason == reason && (n.state == RollingBack <==> p.restore == 0)
    && n.trace != [] && n.trace[|n.trace| - 1] == Restored(p.restore)
  }

  /**
   * While a candidate is under way a step rolls it back exactly when there is a
   * cause, and gives that cause as the reason: the client gone, a revert, the
   * deadline passed, an observation or the commit failed. Nothing but a step does.
   */
  lemma RolledBackForCause(m: Manager, due: nat, e: Event, now: nat)
    requires Forward(m) && DueIs(m, due) && Near(due, now)
    ensures BackedOut(React(m, e, Tick32(now))) <==> e.StepOnce? && Cause(m, due, now, e.provider) != NoReason
    ensures BackedOut(React(m, e, Tick32(now))) ==>
              RestoredFor(React(m, e, Tick32(now)), Cause(m, due, now, e.provider), e.provider)
  {
    DueIsLater(now, due);
    assert Expired(m.deadline, Tick32(now)) <==> now >= due;
    hide Expired, After, Tick32;
  }

  /** What a step does that does not roll back. */
  lemma GoesForward(m: Manager, due: nat, now: nat, p: Provider)
    requires Forward(m) && DueIs(m, due) && Near(due, now) && Cause(m, due, now, p) == NoReason
    ensures var n := Step(m, Tick32(now), p); var due' := NextDue(m, due, n, now);
      && (m.state == Applying ==> due' == due && n.state == if p.poll > 0 then WaitBindings else Applying)
      && (m.state == WaitBindings ==>
            if m.bindings then n.state == WaitConfirm && due' == now + 60000 && n.confirmation == m.confirmation
            else n == m)
      && (m.state == WaitConfirm ==>
            if m.confirmation then n.state == Committing && due' == now + 3000 else n == m)
      && (m.state == Committing ==>
            && n.trace == m.trace + [Committed(p.commit)]
            && n.state == if p.commit == 0 then Kept else if p.commit == 1 then Committing else DurabilityUncertain)
  {
    DueIsLater(now, due);
    hide Expired, After, Tick32;
  }

  // ------------------------------------------------------------- how far it got

  /** How far a candidate has got: applied, bound, asked for, confirmed, committed, kept. */
  function Level(m: Manager): nat {
    match m.state
    case Applying => 0
    case WaitBindings => 1
    case WaitConfirm => if m.confirmation then 3 else 2
    case Committing => 4
    case _ => 5
  }

  /** The candidate is under way, its client there, its bindings ready where that matters. */
  ghost predicate OnCourse(m: Manager, due: nat) {
    && Forward(m) && m.alive && !m.rollback && DueIs(m, due)
    && (m.state == WaitConfirm || m.state == Committing ==> m.bindings)
    && (m.state == Applying || m.state == WaitBindings ==> !m.confirmation)
  }

  /** An event of a provider, a listener and a client that play their part, in time. */
  ghost predicate Helping(m: Manager, due: nat, e: Event, now: nat) {
    match e
    case Reversion => false
    case ClientAlive(alive) => alive
    case BindingsReady(ready) => ready || m.state == Applying || m.state == WaitBindings
    case StepOnce(p) =>
      && now < due <= now + TWO31
      && (m.state == Applying ==> p.poll >= 0) && (m.state == WaitConfirm ==> p.poll == 1)
      && (m.state == Committing ==> p.commit == 0 || p.commit == 1)
    case _ => true
  }

  ghost predicate Cooperative(m: Manager, due: nat, es: seq<(nat, Event)>)
    decreases |es|
  {
    es == [] || m.state == Kept ||
    (var n := React(m, es[0].1, Tick32(es[0].0));
     Helping(m, due, es[0].1, es[0].0) && Cooperative(n, NextDue(m, due, n, es[0].0), es[1..]))
  }

  /** The event the candidate is waiting for. */
  predicate Awaited(m: Manager, e: Event) {
    match Level(m)
    case 0 => e.StepOnce? && e.provider.poll > 0
    case 1 => e.StepOnce? && m.bindings
    case 2 => e.Confirmation?
    case 3 => e.StepOnce?
    case 4 => e.StepOnce? && e.provider.commit == 0
    case _ => false
  }

  /** How often in the history the event waited for came. */
  ghost function Came(m: Manager, es: seq<(nat, Event)>): nat
    decreases |es|
  {
    if es == [] || m.state == Kept then 0
    else (if Awaited(m, es[0].1) then 1 else 0) + Came(React(m, es[0].1, Tick32(es[0].0)), es[1..])
  }

  lemma HelpingGoesOn(m: Manager, due: nat, e: Event, now: nat)
    requires OnCourse(m, due) && Helping(m, due, e, now)
    ensures var n := React(m, e, Tick32(now));
      && (n.state == Kept || OnCourse(n, NextDue(m, due, n, now)))
      && Level(n) == Level(m) + (if Awaited(m, e) then 1 else 0)
      && (n.state == Kept <==> Level(n) == 5)
  {
    ReactDue(m, due, e, now);
    if e.StepOnce? {
      GoesForward(m, due, now, e.provider);
      StepFlags(m, e.provider, Tick32(now));
      hide Step, NextDue, Tick32;
    } else {
      hide NextDue, After, Rollback, Tick32;
    }
  }

  lemma StepFlags(m: Manager, p: Provider, now: Tick)
    ensures var n := Step(m, now, p);
      && (Forward(n) ==> n.alive == m.alive && n.rollback == m.rollback && n.bindings == m.bindings
                         && n.confirmation == m.confirmation)
  {
    hide Expired, After;
  }

  /**
   * Such a history never turns back, and gets one level further with each event
   * that was waited for: with five of them, from an apply that was accepted, the
   * candidate is kept.
   */
  lemma {:induction false} PlayedPart(m: Manager, due: nat, es: seq<(nat, Event)>)
    requires OnCourse(m, due) && Cooperative(m, due, es)
    ensures (exists i | 0 <= i <= |es| :: Run(m, es[..i]).state == Kept)
         || (Forward(Run(m, es)) && Level(Run(m, es)) == Level(m) + Came(m, es))
    ensures Level(m) + Came(m, es) >= 5 ==> exists i | 0 <= i <= |es| :: Run(m, es[..i]).state == Kept
    decreases |es|
  {
    hide OnCourse, Helping, React, Level, NextDue, Awaited;
    if es == [] {
      OnCourseIsForward(m, due);
      return;
    }
    var (now, e) := es[0];
    var n := React(m, e, Tick32(now));
    OnCourseIsForward(m, due);
    HelpingGoesOn(m, due, e, now);
    assert es[..1][1..] == [] && Run(m, es[..1]) == n;
    if n.state != Kept {
      PlayedPart(n, NextDue(m, due, n, now), es[1..]);
      if i :| 0 <= i <= |es[1..]| && Run(n, es[1..][..i]).state == Kept {
        assert es[..i + 1][1..] == es[1..][..i];
        assert Run(m, es[..i + 1]).state == Kept;
      }
    }
  }

  lemma OnCourseIsForward(m: Manager, due: nat)
    requires OnCourse(m, due)
    ensures Forward(m) && m.state != Kept && Level(m) < 5
  {
  }

  /** Five awaited events after an accepted apply, in a history in which all play their part, and it is kept. */
  lemma KeepSucceeds(m: Manager, start: nat, p: Provider, es: seq<(nat, Event)>)
    requires !Refuses(m, true) && p.stage == 0 && p.apply == 0
    requires var n := React(m, Apply(true, p), Tick32(start)); Cooperative(n, start + 30000, es) && Came(n, es) >= 5
    ensures var n := React(m, Apply(true, p), Tick32(start));
            exists i | 0 <= i <= |es| :: Run(n, es[..i]).state == Kept
  {
    var n := React(m, Apply(true, p), Tick32(start));
    AppliedIsOnCourse(m, start, p);
    hide OnCourse, React, Cooperative, Came, Run;
    PlayedPart(n, start + 30000, es);
  }

  function Asked(poll: int, commit: int): Event { StepOnce(Provider(0, 0, poll, commit, 0, 0)) }

  /** Ready, bound, asked for, confirmed, committing, the commit pending once, then done. */
  function KeptHistory(t: seq<nat>): seq<(nat, Event)>
    requires |t| == 7
  {
    [(t[0], Asked(1, 0)), (t[1], BindingsReady(true)), (t[2], Asked(1, 0)), (t[3], Confirmation), (t[4], Asked(1, 0)),
     (t[5], Asked(1, 1)), (t[6], Asked(1, 0))]
  }

  lemma RunOne(m: Manager, es: seq<(nat, Event)>)
    requires es != []
    ensures Run(m, es) == Run(React(m, es[0].1, Tick32(es[0].0)), es[1..])
  {
  }

  /**
   * For one: ready and bound within 30 s of the apply, confirmed within 60 s of
   * the step that asks for it, the commit answered by 1 and then by 0 within 3 s.
   */
  lemma KeptInTime(m: Manager, start: nat, t: seq<nat>, p: Provider)
    requires !Refuses(m, true) && p.stage == 0 && p.apply == 0
    requires |t| == 7 && start <= t[0] && forall i | 0 < i < 7 :: t[i - 1] <= t[i]
    requires t[2] < start + 30000 && t[4] < t[2] + 60000 && t[6] < t[4] + 3000
    ensures Run(React(m, Apply(true, p), Tick32(start)), KeptHistory(t)).state == Kept
  {
    hide OnCourse, React, Run, Tick32, Refuses;
    var es := KeptHistory(t);
    var m0 := React(m, Apply(true, p), Tick32(start));
    AppliedIsOnCourse(m, start, p);
    var m1 := Stage(m0, start + 30000, es, 0, WaitBindings);
    var m2 := Stage(m1, start + 30000, es, 1, WaitBindings);
    var m3 := Stage(m2, start + 30000, es, 2, WaitConfirm);
    KeptOnceAsked(m3, es, t);
    assert es[0..] == es;
  }

  lemma AppliedIsOnCourse(m: Manager, start: nat, p: Provider)
    requires !Refuses(m, true) && p.stage == 0 && p.apply == 0
    ensures var n := React(m, Apply(true, p), Tick32(start)); OnCourse(n, start + 30000) && n.state == Applying
  {
    DeadlineAfter(start, APPLY_MS);
    hide Tick32, After;
  }

  lemma KeptOnceAsked(m: Manager, es: seq<(nat, Event)>, t: seq<nat>)
    requires |t| == 7 && es == KeptHistory(t) && t[2] <= t[3] <= t[4] <= t[5] <= t[6]
    requires t[4] < t[2] + 60000 && t[6] < t[4] + 3000
    requires OnCourse(m, t[2] + 60000) && m.state == WaitConfirm && m.bindings
    ensures Run(m, es[3..]).state == Kept
  {
    hide OnCourse, React, Run, Tick32;
    var m4 := Stage(m, t[2] + 60000, es, 3, WaitConfirm);
    var m5 := Stage(m4, t[2] + 60000, es, 4, Committing);
    var m6 := Stage(m5, t[4] + 3000, es, 5, Committing);
    var m7 := Stage(m6, t[4] + 3000, es, 6, Kept);
    assert es[7..] == [];
    EmptyRun(m7);
  }

  lemma EmptyRun(m: Manager)
    ensures Run(m, []) == m
  {
  }

  /** One event of the history takes the manager to the state. */
  lemma Stage(m: Manager, due: nat, es: seq<(nat, Event)>, i: nat, s: State) returns (n: Manager)
    requires i < |es| && OnCourse(m, due) && Helping(m, due, es[i].1, es[i].0)
    requires s == (if es[i].1.StepOnce? && Awaited(m, es[i].1)
                   then [WaitBindings, WaitConfirm, m.state, Committing, Kept][Level(m)] else m.state)
    ensures n == React(m, es[i].1, Tick32(es[i].0)) && n.state == s && Run(m, es[i..]) == Run(n, es[i + 1..])
    ensures n.state != Kept ==> OnCourse(n, NextDue(m, due, n, es[i].0))
    ensures es[i].1.BindingsReady? ==> n.bindings == es[i].1.ready
    ensures es[i].1.StepOnce? && s != Kept ==> n.bindings == m.bindings
    ensures es[i].1.Confirmation? && m.state == WaitConfirm ==> n.confirmation
    ensures es[i].1.StepOnce? && s != Kept ==> n.confirmation == m.confirmation
  {
    n := React(m, es[i].1, Tick32(es[i].0));
    HelpingGoesOn(m, due, es[i].1, es[i].0);
    RunOne(m, es[i..]);
    assert es[i..][1..] == es[i + 1..];
    if es[i].1.StepOnce? {
      StepFlags(m, es[i].1.provider, Tick32(es[i].0));
    }
    hide Run, NextDue, Tick32, After, Rollback;
  }

  // ------------------------------------------------------------- rolling back

  /** What a step does to a rollback: it ends in time, one way or the other. */
  lemma RollbackGoes(m: Manager, due: nat, now: nat, p: Provider)
    requires (m.state == RollingBack || m.state == RollbackBindings) && DueIs(m, due) && Near(due, now)
    ensures var n := Step(m, Tick32(now), p);
      && (m.state == RollingBack ==>
            n.state == (if p.poll == 2 then Kept
                        else if p.poll < 0 || now >= due then RollbackFailed
                        else if p.poll == 0 then RollingBack
                        else if p.discard != 0 then RollbackFailed
                        else if m.alive then RollbackBindings else Reverted))
      && (m.state == RollbackBindings ==>
            n.state == (if m.bindings || !m.alive then Reverted else if now >= due then RollbackFailed
                        else RollbackBindings))
      && n.reason == m.reason
  {
    DueIsLater(now, due);
    hide Expired, After, Tick32;
  }
}
