/**
 * Apply, keep or revert of network settings: a timed protocol around a provider
 * that may answer anything. It always decides in bounded time, and it commits
 * only what was observed ready, bound and confirmed by a live client.
 */
module NetworkManager {
  import opened Base
  import opened Deadline

  const CONFIRM_MS: Tick := 60000
  const APPLY_MS: Tick := 30000
  const ROLLBACK_MS: Tick := 30000
  const COMMIT_MS: Tick := 3000

  datatype State = Unavailable | Idle | Applying | WaitBindings | WaitConfirm | Committing | RollingBack
                 | RollbackBindings | Kept | Reverted | FailedState | RollbackFailed | DurabilityUncertain

  datatype Reason = NoReason | Peer | Revert | DeadlinePassed | StageFailed | ApplyFailed | Observation | CommitFailed

  /** What the provider answers in one call of the manager, if it is asked. */
  datatype Provider = Provider(stage: int, apply: int, poll: int, commit: int, restore: int, discard: int)

  /** What happened since the candidate was staged, in order. */
  datatype Op = ReadySeen | BindingsSeen | ConfirmTaken | Committed(r: int) | Restored(r: int)
              | PolledBack(r: int) | Discarded(r: int)

  /** `trace` is a record for the proofs; all else is the program's. */
  datatype Manager = Manager(state: State, deadline: Deadline, alive: bool, confirmation: bool, rollback: bool,
                             bindings: bool, generation: Word, reason: Reason, error: int, trace: seq<Op>)

  predicate Busy(m: Manager) {
    Forward(m) || m.state == RollingBack || m.state == RollbackBindings
  }

  predicate Forward(m: Manager) {
    m.state == Applying || m.state == WaitBindings || m.state == WaitConfirm || m.state == Committing
  }

  function Log(m: Manager, o: Op): Manager { m.(trace := m.trace + [o]) }

  function Rollback(m: Manager, now: Tick, p: Provider): Manager {
    var n := Log(m.(confirmation := false, rollback := false, bindings := false), Restored(p.restore));
    if p.restore != 0 then n.(error := p.restore, state := RollbackFailed)
    else n.(state := RollingBack, deadline := After(now, ROLLBACK_MS))
  }

  predicate Refuses(m: Manager, valid: bool) {
    Busy(m) || m.state == RollbackFailed || m.state == DurabilityUncertain || !valid
  }

  /** `valid` is the verdict of the settings check on the candidate. */
  function ApplySettings(m: Manager, valid: bool, now: Tick, p: Provider): Manager {
    if Refuses(m, valid) then m else
    var n := m.(confirmation := false, rollback := false, bindings := false, alive := true, reason := NoReason,
                error := 0, trace := []);
    if p.stage != 0 then n.(reason := StageFailed, error := p.stage, state := FailedState) else
    var g := n.(generation := NextWord(n.generation));
    if p.apply != 0 then Rollback(g.(reason := ApplyFailed, error := p.apply), now, p)
    else g.(state := Applying, deadline := After(now, APPLY_MS))
  }

  predicate Confirmable(m: Manager) { m.state == WaitConfirm && m.alive && m.bindings }

  function Confirm(m: Manager): Manager {
    if Confirmable(m) then Log(m.(confirmation := true), ConfirmTaken) else m
  }

  predicate MustRollBack(m: Manager, now: Tick) { !m.alive || m.rollback || Expired(m.deadline, now) }

  function Step(m: Manager, now: Tick, p: Provider): Manager {
    if Forward(m) && MustRollBack(m, now) then
      Rollback(m.(reason := if !m.alive then Peer else if m.rollback then Revert else DeadlinePassed), now, p)
    else match m.state
      case Applying =>
        if p.poll < 0 then Rollback(m.(reason := Observation, error := p.poll), now, p)
        else if p.poll > 0 then Log(m.(state := WaitBindings), ReadySeen) else m
      case WaitBindings =>
        if m.bindings then Log(m.(state := WaitConfirm, deadline := After(now, CONFIRM_MS)), BindingsSeen) else m
      case WaitConfirm =>
        if p.poll != 1 || !m.bindings then Rollback(m.(reason := Observation, error := p.poll), now, p)
        else if m.confirmation then m.(state := Committing, deadline := After(now, COMMIT_MS)) else m
      case Committing =>
        var n := Log(if p.commit == 0 || p.commit == 1 then m else m.(reason := CommitFailed, error := p.commit),
                     Committed(p.commit));
        if p.commit == 1 then n
        else if p.commit == -2 then n.(state := DurabilityUncertain)
        else if p.commit != 0 then Rollback(n, now, p)
        else n.(state := Kept)
      case RollingBack =>
        var n := Log(m, PolledBack(p.poll));
        if p.poll == 2 then n.(state := Kept)
        else if p.poll < 0 || Expired(m.deadline, now) then
          n.(error := if p.poll < 0 then p.poll else -1, state := RollbackFailed)
        else if p.poll > 0 then
          var q := Log(n, Discarded(p.discard));
          if p.discard != 0 then q.(error := p.discard, state := RollbackFailed)
          else q.(state := if m.alive then RollbackBindings else Reverted)
        else n
      case RollbackBindings =>
        if m.bindings || !m.alive then m.(state := Reverted)
        else if Expired(m.deadline, now) then m.(error := -1, state := RollbackFailed)
        else m
      case _ => m
  }

  // ------------------------------------------------------------------ histories

  datatype Event = Apply(valid: bool, provider: Provider) | Confirmation | Reversion | ClientAlive(alive: bool)
                 | BindingsReady(ready: bool) | StepOnce(provider: Provider)

  function React(m: Manager, e: Event, now: Tick): Manager {
    match e
    case Apply(valid, p) => ApplySettings(m, valid, now, p)
    case Confirmation => Confirm(m)
    case Reversion => m.(rollback := true)
    case ClientAlive(a) => m.(alive := a)
    case BindingsReady(b) => m.(bindings := b)
    case StepOnce(p) => Step(m, now, p)
  }

  function InitManager(): Manager {
    Manager(Idle, Deadline(0, false), false, false, false, false, 0, NoReason, 0, [])
  }

  /** The manager after timed events; times are those of a clock that never wraps. */
  function Run(m: Manager, es: seq<(nat, Event)>): Manager
    decreases |es|
  {
    if es == [] then m else Run(React(m, es[0].1, Tick32(es[0].0)), es[1..])
  }

  // -------------------------------------------------------------- what it means

  ghost predicate Saw(trace: seq<Op>, want: seq<Op>)
    decreases |want|
  {
    want == [] || exists i | 0 <= i < |trace| :: trace[i] == want[0] && Saw(trace[i + 1..], want[1..])
  }

  lemma {:induction false} SawMore(trace: seq<Op>, more: seq<Op>, want: seq<Op>)
    requires Saw(trace, want)
    ensures Saw(trace + more, want)
    decreases |want|
  {
    if want != [] {
      var i :| 0 <= i < |trace| && trace[i] == want[0] && Saw(trace[i + 1..], want[1..]);
      SawMore(trace[i + 1..], more, want[1..]);
      assert (trace + more)[i] == want[0];
      assert (trace + more)[i + 1..] == trace[i + 1..] + more;
    }
  }

  lemma {:induction false} SawThen(trace: seq<Op>, o: Op, want: seq<Op>)
    requires Saw(trace, want)
    ensures Saw(trace + [o], want + [o])
    decreases |want|
  {
    if want == [] {
      assert (trace + [o])[|trace|] == o;
    } else {
      var i :| 0 <= i < |trace| && trace[i] == want[0] && Saw(trace[i + 1..], want[1..]);
      SawThen(trace[i + 1..], o, want[1..]);
      assert (trace + [o])[i] == (want + [o])[0];
      assert (trace + [o])[i + 1..] == trace[i + 1..] + [o];
      assert (want + [o])[1..] == want[1..] + [o];
    }
  }

  const BOUND := [ReadySeen, BindingsSeen]
  const AUTHORISED := [ReadySeen, BindingsSeen, ConfirmTaken]

  /** What the states of the protocol vouch for. */
  ghost predicate Means(m: Manager) {
    && (m.state == WaitBindings ==> Saw(m.trace, [ReadySeen]))
    && (m.state == WaitConfirm ==> Saw(m.trace, BOUND))
    && ((m.state == WaitConfirm && m.confirmation) || m.state == Committing ==> Saw(m.trace, AUTHORISED))
    && (m.state == RollingBack ==> Saw(m.trace, [Restored(0)]))
    && (m.state == RollbackBindings || m.state == Reverted ==> Saw(m.trace, [Restored(0), Discarded(0)]))
    && (m.state == Kept ==> Saw(m.trace, AUTHORISED + [Committed(0)]) || Saw(m.trace, [Restored(0), PolledBack(2)]))
    && (Forward(m) && (m.state == Applying || m.state == WaitBindings) ==> !m.confirmation)
  }

  lemma SawLast(trace: seq<Op>, o: Op)
    ensures Saw(trace + [o], [o])
  {
    SawThen(trace, o, []);
    assert [] + [o] == [o];
  }

  lemma RollbackMeans(m: Manager, now: Tick, p: Provider)
    ensures Means(Rollback(m, now, p))
    ensures Rollback(m, now, p).state == RollbackFailed || Rollback(m, now, p).state == RollingBack
  {
    hide Saw;
    SawLast(m.trace, Restored(p.restore));
  }

  lemma StepMeans(m: Manager, now: Tick, p: Provider)
    requires Means(m)
    ensures Means(Step(m, now, p))
  {
    hide Saw, Rollback, Expired, After;
    var n := Step(m, now, p);
    if Forward(m) && MustRollBack(m, now) {
      RollbackMeans(m.(reason := if !m.alive then Peer else if m.rollback then Revert else DeadlinePassed), now, p);
      return;
    }
    match m.state {
      case Applying =>
        RollbackMeans(m.(reason := Observation, error := p.poll), now, p);
        SawLast(m.trace, ReadySeen);
      case WaitBindings =>
        SawThen(m.trace, BindingsSeen, [ReadySeen]);
        assert [ReadySeen] + [BindingsSeen] == BOUND;
      case WaitConfirm =>
        RollbackMeans(m.(reason := Observation, error := p.poll), now, p);
      case Committing =>
        var c := Log(if p.commit == 0 || p.commit == 1 then m else m.(reason := CommitFailed, error := p.commit),
                     Committed(p.commit));
        RollbackMeans(c, now, p);
        SawThen(m.trace, Committed(p.commit), AUTHORISED);
        SawMore(m.trace, [Committed(p.commit)], AUTHORISED);
      case RollingBack =>
        RollingBackMeans(m, now, p);
      case _ =>
    }
  }

  lemma RollingBackMeans(m: Manager, now: Tick, p: Provider)
    requires Means(m) && m.state == RollingBack
    ensures Means(Step(m, now, p))
  {
    hide Saw, Expired;
    var t := m.trace + [PolledBack(p.poll)];
    SawThen(m.trace, PolledBack(p.poll), [Restored(0)]);
    assert [Restored(0)] + [PolledBack(2)] == [Restored(0), PolledBack(2)];
    SawMore(m.trace, [PolledBack(p.poll)], [Restored(0)]);
    SawThen(t, Discarded(p.discard), [Restored(0)]);
    assert [Restored(0)] + [Discarded(0)] == [Restored(0), Discarded(0)];
  }

  lemma ReactMeans(m: Manager, e: Event, now: Tick)
    requires Means(m)
    ensures Means(React(m, e, now))
  {
    hide Saw, Rollback, Step, After;
    match e {
      case StepOnce(p) => StepMeans(m, now, p);
      case Apply(valid, p) =>
        var n := m.(confirmation := false, rollback := false, bindings := false, alive := true, reason := NoReason,
                    error := 0, trace := []);
        RollbackMeans(n.(generation := NextWord(n.generation)).(reason := ApplyFailed, error := p.apply), now, p);
      case Confirmation =>
        if Confirmable(m) {
          SawThen(m.trace, ConfirmTaken, BOUND);
          SawMore(m.trace, [ConfirmTaken], BOUND);
          assert BOUND + [ConfirmTaken] == AUTHORISED;
        }
      case _ =>
    }
  }

  /**
   * Over every history: a kept candidate was committed after it was observed
   * ready, bound and confirmed, or the provider says an earlier Keep became
   * durable; a reverted one was restored and its candidate discarded.
   */
  lemma {:induction false} HistoryMeans(m: Manager, es: seq<(nat, Event)>)
    requires Means(m)
    ensures Means(Run(m, es))
    decreases |es|
  {
    hide Means, React;
    if es != [] {
      ReactMeans(m, es[0].1, Tick32(es[0].0));
      HistoryMeans(React(m, es[0].1, Tick32(es[0].0)), es[1..]);
    }
  }

  lemma KeptAndReverted(es: seq<(nat, Event)>)
    ensures var m := Run(InitManager(), es);
      && (m.state == Kept ==> Saw(m.trace, AUTHORISED + [Committed(0)]) || Saw(m.trace, [Restored(0), PolledBack(2)]))
      && (m.state == Reverted ==> Saw(m.trace, [Restored(0), Discarded(0)]))
  {
    hide Saw, Run;
    HistoryMeans(InitManager(), es);
  }

  /** Commit is called only with authority, a live client, no pending revert and time left. */
  lemma CommitIsAuthorised(es: seq<(nat, Event)>, now: Tick, p: Provider)
    requires var m := Run(InitManager(), es);
             |Step(m, now, p).trace| > |m.trace| && Step(m, now, p).trace[|m.trace|].Committed?
    ensures var m := Run(InitManager(), es);
            && m.state == Committing && m.alive && !m.rollback && !Expired(m.deadline, now)
            && Saw(m.trace, AUTHORISED)
  {
    hide Saw, Run, Expired, After, Step;
    HistoryMeans(InitManager(), es);
    OnlyCommittingCommits(Run(InitManager(), es), now, p);
  }

  lemma OnlyCommittingCommits(m: Manager, now: Tick, p: Provider)
    requires |Step(m, now, p).trace| > |m.trace| && Step(m, now, p).trace[|m.trace|].Committed?
    ensures m.state == Committing && m.alive && !m.rollback && !Expired(m.deadline, now)
  {
    hide Expired, After;
  }

  /** The two failure states are final. */
  lemma {:induction false} FailuresAreFinal(m: Manager, es: seq<(nat, Event)>)
    requires m.state == RollbackFailed || m.state == DurabilityUncertain
    ensures Run(m, es).state == m.state && Run(m, es).trace == m.trace && Run(m, es).generation == m.generation
    decreases |es|
  {
    hide Rollback, Expired, After;
    if es != [] {
      FailuresAreFinal(React(m, es[0].1, Tick32(es[0].0)), es[1..]);
    }
  }

  // ---------------------------------------------------------- bounded decision

  /** Latest moment, relative to the accepted apply, at which the deadline of a state may lie. */
  function Reach(s: State, d: nat): nat {
    match s
    case Applying => 30000
    case WaitBindings => 30000
    case WaitConfirm => 90000
    case Committing => 93000
    case _ => 123000 + d
  }

  /**
   * The manager is busy with an apply accepted at `start`; `due` is its deadline
   * in unwrapped time and `last` the latest step (or the apply itself).
   */
  ghost predicate Timed(m: Manager, start: nat, due: nat, last: nat, d: nat) {
    && Busy(m) && start <= last < due <= start + Reach(m.state, d)
    && m.deadline == Deadline(Tick32(due), true) && due <= last + 60000
  }

  lemma DeadlineAfter(now: nat, interval: Tick)
    requires ValidInterval(interval)
    ensures After(Tick32(now), interval) == Deadline(Tick32(now + interval), true)
  {
    WrapSum(now, interval);
  }

  /** A step at most `d` after the last one decides, or moves on with a deadline still ahead. */
  lemma StepIsTimed(m: Manager, start: nat, due: nat, last: nat, d: nat, now: nat, p: Provider) returns (due': nat)
    requires Timed(m, start, due, last, d) && last <= now <= last + d && d <= TWO31
    ensures Busy(Step(m, Tick32(now), p)) ==> Timed(Step(m, Tick32(now), p), start, due', now, d)
  {
    assert Expired(m.deadline, Tick32(now)) <==> now >= due by {
      DueIsLater(now, due);
    }
    hide Expired, After;
    DeadlineAfter(now, CONFIRM_MS);
    DeadlineAfter(now, COMMIT_MS);
    DeadlineAfter(now, ROLLBACK_MS);
    var n := Step(m, Tick32(now), p);
    due' := if n.state == RollingBack && m.state != RollingBack then now + 30000
            else if n.state == WaitConfirm && m.state == WaitBindings then now + 60000
            else if n.state == Committing && m.state == WaitConfirm then now + 3000
            else due;
  }

  lemma OthersKeepTiming(m: Manager, e: Event, start: nat, due: nat, last: nat, d: nat, now: Tick)
    requires Timed(m, start, due, last, d) && !e.StepOnce?
    ensures Timed(React(m, e, now), start, due, last, d)
  {
    hide After, Rollback;
  }

  predicate Decided(m: Manager) { m.state in {Kept, Reverted, RollbackFailed, DurabilityUncertain} }

  lemma LeavesDecided(m: Manager, e: Event, now: Tick)
    requires Busy(m) && !Busy(React(m, e, now))
    ensures Decided(React(m, e, now))
  {
    hide Expired, After;
  }

  /** Steps come at most `d` apart and times do not run backwards. */
  ghost predicate Scheduled(es: seq<(nat, Event)>, last: nat, d: nat)
    decreases |es|
  {
    es == [] ||
    (last <= es[0].0 <= last + d && Scheduled(es[1..], if es[0].1.StepOnce? then es[0].0 else last, d))
  }

  /**
   * Bounded decision: with a step at least every `d` ms (d up to 2^31, ticks
   * wrapping meanwhile), no history from an accepted apply is still undecided
   * after a step at or beyond 123000 + d ms, whatever the provider answers and
   * the clients do. That step comes before 123000 + 2d ms.
   */
  lemma {:induction false} DecidedInTime(m: Manager, es: seq<(nat, Event)>, start: nat, due: nat, last: nat, d: nat)
    requires Timed(m, start, due, last, d) && d <= TWO31 && Scheduled(es, last, d)
    requires es != [] && es[|es| - 1].1.StepOnce? && es[|es| - 1].0 >= start + 123000 + d
    ensures exists i | 0 < i <= |es| :: Decided(Run(m, es[..i]))
    decreases |es|
  {
    hide React, Busy, Expired, Decided;
    var (now, e) := es[0];
    var n := React(m, e, Tick32(now));
    assert es[..1][1..] == [];
    assert Run(m, es[..1]) == n;
    if !Busy(n) {
      LeavesDecided(m, e, Tick32(now));
      return;
    }
    var due', last' := due, last;
    if e.StepOnce? {
      ReactStep(m, e, now);
      due' := StepIsTimed(m, start, due, last, d, now, e.provider);
      last' := now;
      assert |es| != 1;
    } else {
      OthersKeepTiming(m, e, start, due, last, d, Tick32(now));
    }
    DecidedInTime(n, es[1..], start, due', last', d);
    var i :| 0 < i <= |es[1..]| && Decided(Run(n, es[1..][..i]));
    assert es[..i + 1][1..] == es[1..][..i];
    assert Run(m, es[..i + 1]) == Run(n, es[1..][..i]);
  }

  lemma ReactStep(m: Manager, e: Event, now: nat)
    requires e.StepOnce?
    ensures React(m, e, Tick32(now)) == Step(m, Tick32(now), e.provider)
  {
  }

  /** An accepted apply starts such a history, and so does one whose provider failed at once. */
  lemma ApplyIsTimed(m: Manager, valid: bool, now: nat, d: nat, p: Provider) returns (due: nat)
    requires !Refuses(m, valid) && p.stage == 0
    ensures var n := ApplySettings(m, valid, Tick32(now), p);
            Busy(n) ==> Timed(n, now, due, now, d)
    ensures p.apply == 0 ==> Busy(ApplySettings(m, valid, Tick32(now), p))
  {
    DeadlineAfter(now, APPLY_MS);
    due := now + 30000;
  }

  // ------------------------------------------------------------------ a revert

  /**
   * A revert asked for while a candidate is under way is not lost: whatever is
   * called before the next step, a new apply included, that step commits nothing
   * and rolls back, for that reason unless the client has gone.
   */
  lemma {:induction false} RevertRollsBack(m: Manager, es: seq<(nat, Event)>, now: Tick, p: Provider)
    requires Forward(m) && m.rollback && forall e | e in es :: !e.1.StepOnce?
    ensures var n := Run(m, es);
            var q := Step(n, now, p);
      && n.state == m.state && n.rollback
      && q.reason == (if n.alive then Revert else Peer)
      && q.trace == n.trace + [Restored(p.restore)]
      && q.state == (if p.restore == 0 then RollingBack else RollbackFailed)
    decreases |es|
  {
    if es != [] {
      var n := React(m, es[0].1, Tick32(es[0].0));
      assert !es[0].1.StepOnce?;
      assert n.state == m.state && n.rollback by {
        if es[0].1.Apply? {
          RefusedApply(m, es[0].1, Tick32(es[0].0));
        }
      }
      hide React;
      RevertRollsBack(n, es[1..], now, p);
    }
  }

  lemma RefusedApply(m: Manager, e: Event, now: Tick)
    requires Busy(m) && e.Apply?
    ensures React(m, e, now) == m
  {
  }
}
