/**
 * What the configuration transaction promises over every history: startup loads
 * what it loaded before or the candidate, success means the candidate, and a
 * clean rollback means every port is back.
 */
module TransactionProperties {
  import opened Base
  import opened Deadline
  import Port = PortModel
  import Control = GatewayController
  import opened ConfigStore
  import opened ConfigTransaction

  // ---------------------------------------------------------------- on the disk

  ghost predicate OldOrNew(a: App, f: Files, r: Rules) {
    Startup(f, r.codec) == a.before || Startup(f, r.codec) == a.goal
  }

  ghost predicate DiskOk(a: App, r: Rules) {
    && a.files in a.points
    && (forall g | g in a.points :: OldOrNew(a, g, r))
    && (a.tx.state == Activating || a.tx.state == Promoting ==>
          && a.tx.candidate == a.goal && Startup(a.files, r.codec) == a.before
          && a.files.staged.Some? && r.codec.decode(a.files.staged.value) == Good(a.goal))
    && (a.tx.state == Succeeded || a.tx.state == Uncertain ==>
          a.tx.candidate == a.goal && a.selected == a.goal && Startup(a.files, r.codec) == a.goal)
  }

  /** Points that a start reads as before or as the goal may be added. */
  lemma MovedKeeps(a: App, points: seq<Files>, r: Rules)
    requires a.files in a.points && forall g | g in a.points :: OldOrNew(a, g, r)
    requires forall g | g in points :: OldOrNew(a, g, r)
    ensures var b := Moved(a, points);
      && b.files in b.points && (forall g | g in b.points :: OldOrNew(b, g, r))
      && b == a.(files := b.files, points := b.points)
  {
    hide Startup;
  }

  lemma DiscardingKeeps(a: App, unlink: bool, r: Rules)
    requires a.files in a.points && forall g | g in a.points :: OldOrNew(a, g, r)
    ensures var b := Discarding(a, unlink);
      && b.files in b.points && (forall g | g in b.points :: OldOrNew(b, g, r))
      && b == a.(files := b.files, points := b.points) && Startup(b.files, r.codec) == Startup(a.files, r.codec)
  {
    var points := if unlink then [Discard(a.files, true)] else [];
    StagedIsNotRead(a.files, Discard(a.files, unlink), r.codec);
    MovedKeeps(a, points, r);
    hide Startup;
  }

  lemma RequestKeepsDisk(a: App, c: Saved, e: Answers, r: Rules)
    requires DiskOk(a, r) && Faithful(r.codec)
    ensures DiskOk(Request(a, c, e, r).0, r)
  {
    hide Startup, ValidSaved, SameUarts, StagePoints, Literal;
    if !Underway(a.tx.state) && ValidSaved(c, r) && SameUarts(c, a.selected) && c != a.selected {
      StagedRequest(a, c, e, r);
    }
  }

  lemma StagedRequest(a: App, c: Saved, e: Answers, r: Rules)
    requires DiskOk(a, r) && Faithful(r.codec)
    requires !Underway(a.tx.state) && ValidSaved(c, r) && SameUarts(c, a.selected) && c != a.selected
    ensures DiskOk(Request(a, c, e, r).0, r)
  {
    hide Startup, ValidSaved, SameUarts, StagePoints, Literal;
    var candidate := Literal(c, a.selected);
    var t := NewTx(Failed, candidate, a.selected, StageResult(candidate, e.writing, r.codec));
    var b := a.(tx := t, goal := candidate, before := Startup(a.files, r.codec), asked := a.gateway,
                points := [a.files]);
    var points := StagePoints(a.files, candidate, e.writing, r.codec);
    StagingIsInvisible(a.files, candidate, e.writing, r.codec);
    forall g | g in points ensures OldOrNew(b, g, r) {
      StagedIsNotRead(a.files, g, r.codec);
    }
    MovedKeeps(b, points, r);
    StagedIsNotRead(a.files, Last(a.files, points), r.codec);
    DiscardingKeeps(Moved(b, points), e.unlink, r);
  }

  lemma PromotingKeepsDisk(a: App, e: Answers, r: Rules)
    requires DiskOk(a, r) && a.tx.state == Promoting
    ensures DiskOk(StepPromoting(a, e, r), r)
    ensures StepPromoting(a, e, r).tx.state == RollingBack ==>
              Startup(StepPromoting(a, e, r).files, r.codec)
              == if Promote(a.files, e.promotion, r.codec).1 == DurabilityUncertain then a.goal else a.before
  {
    hide Startup, Promote, Select, Moved, BeginRollback, DiskOk;
    var result := Promote(a.files, e.promotion, r.codec).1;
    var b := AfterPromotion(a, e, r);
    PromotedFiles(a, e, r);
    assert a.tx.candidate == a.goal by { CandidateIsGoal(a, r); }
    if result == Ok || result == Unchanged || result == DurabilityUncertain {
      SucceededKeepsDisk(b, Succeeded, FromActive, r);
      SucceededKeepsDisk(b, Uncertain, Select(b.files, e.readActive, e.readBackup, r.codec).2, r);
    }
    BeginRollbackKeepsDisk(b, e.unlink, r);
  }

  lemma CandidateIsGoal(a: App, r: Rules)
    requires DiskOk(a, r) && (a.tx.state == Activating || a.tx.state == Promoting)
    ensures a.tx.candidate == a.goal
  {
    hide Startup;
  }

  lemma SucceededKeepsDisk(b: App, state: TxState, source: Source, r: Rules)
    requires b.files in b.points && (forall g | g in b.points :: OldOrNew(b, g, r)) && b.tx.candidate == b.goal
    requires Startup(b.files, r.codec) == b.goal && (state == Succeeded || state == Uncertain)
    ensures DiskOk(b.(selected := b.tx.candidate, source := source, tx := b.tx.(state := state)), r)
  {
    hide Startup;
  }

  lemma PromotedFiles(a: App, e: Answers, r: Rules)
    requires DiskOk(a, r) && a.tx.state == Promoting
    ensures var (points, result) := Promote(a.files, e.promotion, r.codec);
            var b := Moved(a, points);
      && b.files in b.points && (forall g | g in b.points :: OldOrNew(b, g, r))
      && b == a.(files := b.files, points := b.points)
      && Startup(b.files, r.codec) == (if result == Invalid || result == IoError then a.before else a.goal)
      && (result == Invalid || result == IoError || result == Ok || result == Unchanged
          || result == DurabilityUncertain)
  {
    PromotionIsAtomic(a.files, e.promotion, r.codec);
    PromoteResults(a.files, e.promotion, r.codec);
    MovedKeeps(a, Promote(a.files, e.promotion, r.codec).0, r);
    hide Startup, Promote;
  }

  lemma PromoteResults(f: Files, p: Promotion, k: Codec)
    ensures var r := Promote(f, p, k).1;
            r == Invalid || r == IoError || r == Ok || r == Unchanged || r == DurabilityUncertain
  {
  }

  lemma BeginRollbackKeepsDisk(a: App, unlink: bool, r: Rules)
    requires a.files in a.points && forall g | g in a.points :: OldOrNew(a, g, r)
    ensures DiskOk(BeginRollback(a, unlink), r) && BeginRollback(a, unlink).tx.state == RollingBack
    ensures Startup(BeginRollback(a, unlink).files, r.codec) == Startup(a.files, r.codec)
  {
    DiscardingKeeps(a, unlink, r);
    hide Startup, Discarding;
  }

  /** The files are as they were, and so is the candidate. */
  ghost predicate SameDisk(a: App, b: App) {
    && b.files == a.files && b.points == a.points && b.goal == a.goal && b.before == a.before
       && b.tx.candidate == a.tx.candidate
    && (b.tx.state == a.tx.state || (a.tx.state == Activating && b.tx.state == Promoting)
        || (b.tx.state != Succeeded && b.tx.state != Uncertain && !Underway(b.tx.state)))
    && (b.selected == a.selected || b.tx.state == Failed)
  }

  lemma SameDiskKeeps(a: App, b: App, r: Rules)
    requires DiskOk(a, r) && SameDisk(a, b)
    ensures DiskOk(b, r)
  {
    hide Startup;
  }

  lemma PortFailedKeepsDisk(a: App, z: App, unlink: bool, r: Rules)
    requires DiskOk(a, r) && (a.tx.state == Activating || a.tx.state == RollingBack) && z == a.(gateway := z.gateway)
    ensures DiskOk(PortFailed(z, unlink), r)
  {
    hide Startup, BeginRollback, DiskOk;
    GenericDisk(a, z, r);
    BeginRollbackKeepsDisk(z, unlink, r);
    if a.tx.state == RollingBack {
      SameDiskKeeps(a, PortFailed(z, unlink), r);
    }
  }

  /** Walking the ports leaves the files alone, but for the staged one when a rollback begins. */
  lemma WalkKeepsDisk(a: App, e: Answers, r: Rules, now: Tick)
    requires DiskOk(a, r) && (a.tx.state == Activating || a.tx.state == RollingBack)
    ensures DiskOk(StepWalk(a, e, r, now), r)
  {
    hide Startup, Control.ApplyCall, Terminal, Transient, PortFailed, DiskOk, EndWalk, NextPort;
    SameDiskEnds(a, r);
    if a.tx.index < Control.PORT_COUNT {
      var want := Desired(a.tx)[a.tx.index];
      var g := Control.ApplyCall(a.gateway, Control.Reconfigure(a.tx.index, want, e.stop, e.again), r.bindOk, now).0;
      PortFailedKeepsDisk(a, a.(gateway := g), e.unlink, r);
      PortFailedKeepsDisk(a, a, e.unlink, r);
      SameDiskKeeps(a, a.(gateway := g).(tx := a.tx.(waiting := true)), r);
    }
  }

  lemma SameDiskEnds(a: App, r: Rules)
    requires DiskOk(a, r) && (a.tx.state == Activating || a.tx.state == RollingBack)
    ensures DiskOk(EndWalk(a), r) && DiskOk(NextPort(a), r)
  {
    hide Startup, DiskOk;
    SameDiskKeeps(a, EndWalk(a), r);
    SameDiskKeeps(a, NextPort(a), r);
  }

  lemma GenericDisk(a: App, z: App, r: Rules)
    requires DiskOk(a, r) && z.files == a.files && z.points == a.points && z.goal == a.goal && z.before == a.before
    ensures z.files in z.points && forall g | g in z.points :: OldOrNew(z, g, r)
  {
    hide Startup;
  }

  lemma ReactKeepsDisk(a: App, e: Event, r: Rules, now: Tick)
    requires DiskOk(a, r) && Faithful(r.codec)
    ensures DiskOk(React(a, e, r, now), r)
  {
    hide Startup, Request, StepWalk, StepPromoting, DiskOk, Control.ApplyCall, Faithful;
    match e {
      case Requested(c, answers) => RequestKeepsDisk(a, c, answers, r);
      case TxStepped(answers) =>
        if a.shuttingDown && Underway(a.tx.state) {
          GenericDisk(a, a, r);
          AbandonKeepsDisk(a, answers.unlink, r);
        } else if a.tx.state == Activating || a.tx.state == RollingBack {
          WalkKeepsDisk(a, answers, r, now);
        } else if a.tx.state == Promoting {
          PromotingKeepsDisk(a, answers, r);
        }
      case PortsStepped(s) => SameDiskKeeps(a, React(a, e, r, now), r);
      case ShutDown(s) => SameDiskKeeps(a, React(a, e, r, now), r);
    }
  }

  lemma AbandonKeepsDisk(a: App, unlink: bool, r: Rules)
    requires DiskOk(a, r)
    ensures DiskOk(Discarding(a, unlink).(tx := a.tx.(state := Failed)), r)
  {
    DiscardingKeeps(a, unlink, r);
    hide Startup, Discarding;
  }

  lemma {:induction false} RunKeepsDisk(a: App, es: seq<(Event, Tick)>, r: Rules)
    requires DiskOk(a, r) && Faithful(r.codec)
    ensures DiskOk(Run(a, es, r), r)
    decreases |es|
  {
    hide DiskOk, React, Faithful;
    if es != [] {
      ReactKeepsDisk(a, es[0].0, r, es[0].1);
      RunKeepsDisk(React(a, es[0].0, r, es[0].1), es[1..], r);
    }
  }

  /**
   * Crash safety of the configuration, over every history: at every point the
   * files went through since a candidate was taken up, a start loads what it
   * would have loaded then, or the candidate; success, durable or not, means it
   * loads the candidate, and that the candidate is the configuration in force.
   */
  lemma StartupLoadsOldOrNew(g: Control.Gateway, f: Files, s: Saved, source: Source, es: seq<(Event, Tick)>, r: Rules)
    requires Faithful(r.codec)
    ensures var a := Run(InitApp(g, f, s, source, r), es, r);
      && a.files in a.points
      && (forall p | p in a.points :: Startup(p, r.codec) == a.before || Startup(p, r.codec) == a.goal)
      && (a.tx.state == Succeeded || a.tx.state == Uncertain ==> Startup(a.files, r.codec) == a.goal == a.selected)
  {
    RunKeepsDisk(InitApp(g, f, s, source, r), es, r);
    hide Run, Startup, Faithful;
  }

  /**
   * Promotion goes through the renames, cannot synchronise the directory, and then
   * cannot read the candidate back from it.
   */
  predicate SlipsBy(a: App, e: Answers, r: Rules) {
    var p := e.promotion;
    var was := Load(a.files.active, p.readActive, r.codec).1;
    && p.readStaged && was != Some(a.goal) && (was.Some? ==> p.backUp) && p.promote && !p.sync && !e.readActive
    && !(was.None? && e.readBackup && a.files.backup.Some? && r.codec.decode(a.files.backup.value) == Good(a.goal))
  }

  lemma SlippedPromotion(a: App, e: Answers, r: Rules)
    requires DiskOk(a, r) && a.tx.state == Promoting && a.before != a.goal
    ensures var q := StepPromoting(a, e, r);
            q.tx.state == RollingBack && Startup(q.files, r.codec) == a.goal <==> SlipsBy(a, e, r)
  {
    PromotingKeepsDisk(a, e, r);
    StagedGoal(a, r);
    SlipsOnReload(a, e, r);
    hide DiskOk, Startup, Promote, SlipsBy, Select, BeginRollback, Moved;
  }

  /** Promotion slips by when it ends undecided and the reload does not give the candidate. */
  lemma SlipsOnReload(a: App, e: Answers, r: Rules)
    requires a.files.staged.Some? && r.codec.decode(a.files.staged.value) == Good(a.goal) && a.tx.candidate == a.goal
    ensures var (points, result) := Promote(a.files, e.promotion, r.codec);
            var (loaded, config, source) := Select(Last(a.files, points), e.readActive, e.readBackup, r.codec);
            SlipsBy(a, e, r) <==>
            result == DurabilityUncertain && !((loaded == Ok || loaded == Absent) && config == a.goal)
  {
  }

  lemma StagedGoal(a: App, r: Rules)
    requires DiskOk(a, r) && (a.tx.state == Activating || a.tx.state == Promoting)
    ensures a.files.staged.Some? && r.codec.decode(a.files.staged.value) == Good(a.goal) && a.tx.candidate == a.goal
    ensures Startup(a.files, r.codec) == a.before
  {
    hide Startup;
  }

  /**
   * A rollback does not reach the disk: for a candidate that makes a difference to
   * a start, the rollback begins with the candidate already in place exactly when
   * promotion slips by.
   */
  lemma RollbackMayLoadCandidate(g: Control.Gateway, f: Files, s: Saved, source: Source, es: seq<(Event, Tick)>,
                                 r: Rules, e: Answers)
    requires Faithful(r.codec)
    requires var a := Run(InitApp(g, f, s, source, r), es, r); a.tx.state == Promoting && a.before != a.goal
    ensures var a := Run(InitApp(g, f, s, source, r), es, r);
            var q := StepPromoting(a, e, r);
            q.tx.state == RollingBack && Startup(q.files, r.codec) == a.goal <==> SlipsBy(a, e, r)
  {
    hide Run, Startup, Faithful, StepPromoting, Promote, SlipsBy;
    RunKeepsDisk(InitApp(g, f, s, source, r), es, r);
    SlippedPromotion(Run(InitApp(g, f, s, source, r), es, r), e, r);
  }

  // ------------------------------------------------ rollbacks that reach the disk

  /** A directory that cannot be synchronised can at least be read back. */
  predicate ReadsBack(e: Event) {
    e.TxStepped? ==> e.answers.promotion.sync || e.answers.readActive
  }

  ghost predicate BackOnDisk(a: App, r: Rules) {
    && (a.tx.walked ==> a.tx.state == Failed)
    && (a.tx.state == RollingBack || a.tx.walked ==> Startup(a.files, r.codec) == a.before)
  }

  lemma ReactReachesDisk(a: App, e: Event, r: Rules, now: Tick)
    requires DiskOk(a, r) && BackOnDisk(a, r) && Faithful(r.codec) && ReadsBack(e)
    ensures BackOnDisk(React(a, e, r, now), r)
  {
    hide Startup, DiskOk, Control.ApplyCall, Faithful;
    match e {
      case Requested(c, answers) => hide Moved, ValidSaved, SameUarts, Literal, Discarding;
      case TxStepped(answers) =>
        if a.shuttingDown && Underway(a.tx.state) {
          GenericDisk(a, a, r);
          DiscardingKeeps(a, answers.unlink, r);
          hide Discarding;
        } else if a.tx.state == Activating || a.tx.state == RollingBack {
          WalkReachesDisk(a, answers, r, now);
        } else if a.tx.state == Promoting {
          PromotingReachesDisk(a, answers, r);
        }
      case PortsStepped(s) =>
      case ShutDown(s) =>
    }
  }

  lemma WalkReachesDisk(a: App, e: Answers, r: Rules, now: Tick)
    requires DiskOk(a, r) && BackOnDisk(a, r) && (a.tx.state == Activating || a.tx.state == RollingBack)
    ensures BackOnDisk(StepWalk(a, e, r, now), r)
  {
    hide Startup, Control.ApplyCall, Terminal, Transient, BeginRollback, DiskOk;
    BeginRollbackReaches(a, a, e.unlink, r);
    if a.tx.state == Activating {
      StagedGoal(a, r);
    }
    if a.tx.index < Control.PORT_COUNT {
      var c := Control.Reconfigure(a.tx.index, Desired(a.tx)[a.tx.index], e.stop, e.again);
      var z := a.(gateway := Control.ApplyCall(a.gateway, c, r.bindOk, now).0);
      BeginRollbackReaches(a, z, e.unlink, r);
    }
  }

  lemma BeginRollbackReaches(a: App, z: App, unlink: bool, r: Rules)
    requires DiskOk(a, r) && z == a.(gateway := z.gateway)
    ensures var q := BeginRollback(z, unlink);
      && q.tx.state == RollingBack && q.tx.walked == a.tx.walked && q.before == a.before
      && Startup(q.files, r.codec) == Startup(a.files, r.codec)
  {
    GenericDisk(a, z, r);
    DiscardingKeeps(z, unlink, r);
    hide Startup, Discarding;
  }

  lemma PromotingReachesDisk(a: App, e: Answers, r: Rules)
    requires DiskOk(a, r) && BackOnDisk(a, r) && a.tx.state == Promoting && (e.promotion.sync || e.readActive)
    ensures BackOnDisk(StepPromoting(a, e, r), r)
  {
    if a.before != a.goal {
      SlippedPromotion(a, e, r);
    }
    PromotingKeepsDisk(a, e, r);
    ReadsOldOrNew(StepPromoting(a, e, r), r);
    PromotingEnds(a, e, r);
    hide Startup, StepPromoting, DiskOk;
  }

  lemma ReadsOldOrNew(a: App, r: Rules)
    requires DiskOk(a, r)
    ensures Startup(a.files, r.codec) == a.before || Startup(a.files, r.codec) == a.goal
  {
    hide Startup;
  }

  lemma PromotingEnds(a: App, e: Answers, r: Rules)
    ensures var q := StepPromoting(a, e, r); q.before == a.before && q.goal == a.goal && q.tx.walked == a.tx.walked
  {
    hide Promote, Select, Startup;
  }

  lemma {:induction false} RunReachesDisk(a: App, es: seq<(Event, Tick)>, r: Rules)
    requires DiskOk(a, r) && BackOnDisk(a, r) && Faithful(r.codec) && forall x | x in es :: ReadsBack(x.0)
    ensures BackOnDisk(Run(a, es, r), r)
    decreases |es|
  {
    hide DiskOk, BackOnDisk, React, Faithful, ReadsBack;
    if es != [] {
      ReactKeepsDisk(a, es[0].0, r, es[0].1);
      ReactReachesDisk(a, es[0].0, r, es[0].1);
      RunReachesDisk(React(a, es[0].0, r, es[0].1), es[1..], r);
    }
  }

  /** If every directory can be synchronised or read back, a rollback leaves a start on the earlier configuration. */
  lemma RollbackReachesDisk(g: Control.Gateway, f: Files, s: Saved, source: Source, es: seq<(Event, Tick)>, r: Rules)
    requires Faithful(r.codec) && forall x | x in es :: ReadsBack(x.0)
    ensures var a := Run(InitApp(g, f, s, source, r), es, r);
            a.tx.state == RollingBack || a.tx.walked ==> Startup(a.files, r.codec) == a.before
  {
    RunReachesDisk(InitApp(g, f, s, source, r), es, r);
    hide Run, Startup, Faithful, ReadsBack;
  }

  /** Storage that renames, does not synchronise, and cannot be read back. */
  const SLIP := Answers(Writing(true, [], true), Promotion(true, true, true, true, true, false), true, false, false,
                        true, true)

  /**
   * One such run: a candidate that keeps the ports is taken up, promotion slips by
   * and the rollback ends. The program is on the configuration it had before, and a
   * start loads the candidate.
   */
  lemma RolledBackLoadsCandidate(g: Control.Gateway, f: Files, s: Saved, c: Saved, r: Rules)
    requires r.codec.encode(c).Some? && Faithful(r.codec) && ValidSaved(c, r) && c != s && c.ports == s.ports
    requires f.active.Some? && r.codec.decode(f.active.value) == Good(s)
    ensures var a := Run(InitApp(g, f, s, FromActive, r),
                         [(Requested(c, SLIP), 0), (TxStepped(SLIP), 0), (TxStepped(SLIP), 0)], r);
      && a.before == s && a.goal == c
      && a.tx.state == Failed && a.tx.walked && !a.tx.rollbackFailed && a.selected == s
         && Startup(a.files, r.codec) == c
  {
    var o := InitApp(g, f, s, FromActive, r);
    RunOfThree(o, Requested(c, SLIP), TxStepped(SLIP), r);
    SlippedRun(o, c, r);
    hide React, ValidSaved, Run, SLIP, Faithful;
  }

  /** A candidate that keeps the ports is taken up, slips by and is rolled back. */
  lemma SlippedRun(o: App, c: Saved, r: Rules)
    requires r.codec.encode(c).Some? && r.codec.decode(r.codec.encode(c).value) == Good(c) && ValidSaved(c, r)
    requires c != o.selected && c.ports == o.selected.ports && !Underway(o.tx.state) && !o.shuttingDown
    requires o.files.active.Some? && r.codec.decode(o.files.active.value) == Good(o.selected)
    ensures var a := React(React(React(o, Requested(c, SLIP), r, 0), TxStepped(SLIP), r, 0), TxStepped(SLIP), r, 0);
      && a.before == o.selected && a.goal == c && a.selected == o.selected && !a.shuttingDown
      && a.tx.state == Failed && a.tx.walked && !a.tx.rollbackFailed && Startup(a.files, r.codec) == c
      && a.files.active == r.codec.encode(c) && a.base == o.base
  {
    hide Request, StepPromoting, ValidSaved, SLIP;
    var q := Request(o, c, SLIP, r).0;
    TakenUp(o, c, r);
    SlipsHere(q, c, r);
  }

  lemma RunOfThree(o: App, e: Event, x: Event, r: Rules)
    ensures Run(o, [(e, 0), (x, 0), (x, 0)], r) == React(React(React(o, e, r, 0), x, r, 0), x, r, 0)
  {
    hide React;
    var es: seq<(Event, Tick)> := [(e, 0), (x, 0), (x, 0)];
    var q := React(o, e, r, 0);
    assert es[1..] == [(x, 0), (x, 0)] && es[1..][1..] == [(x, 0)];
    assert Run(React(q, x, r, 0), [(x, 0)], r) == React(React(q, x, r, 0), x, r, 0);
    assert Run(q, [(x, 0), (x, 0)], r) == Run(React(q, x, r, 0), [(x, 0)], r);
  }

  lemma TakenUp(o: App, c: Saved, r: Rules)
    requires r.codec.encode(c).Some? && ValidSaved(c, r) && c != o.selected && c.ports == o.selected.ports
    requires !Underway(o.tx.state)
    ensures var q := Request(o, c, SLIP, r).0;
      && q.base == o.base
      && q.tx == NewTx(Promoting, c, o.selected, Ok) && q.goal == c && q.before == Startup(o.files, r.codec)
      && q.selected == o.selected && q.shuttingDown == o.shuttingDown
         && q.files == o.files.(staged := r.codec.encode(c))
  {
    assert Literal(c, o.selected) == c by { assert Literal(c, o.selected).ports == c.ports; }
    StagingIsInvisible(o.files, c, SLIP.writing, r.codec);
    hide ValidSaved, StagePoints, Startup, Literal;
  }

  lemma SlipsHere(q: App, c: Saved, r: Rules)
    requires q.tx.state == Promoting && q.tx.candidate == c && q.goal == c
             && q.tx.candidate.ports == q.tx.previous.ports
    requires q.files.staged.Some? && r.codec.decode(q.files.staged.value) == Good(c)
    requires q.files.active.Some? && r.codec.decode(q.files.active.value).Good?
             && r.codec.decode(q.files.active.value).config != c
    ensures var p := StepPromoting(q, SLIP, r);
      && p.tx == q.tx.(state := RollingBack, index := Control.PORT_COUNT, result := DurabilityUncertain,
                       waiting := false)
      && p.selected == q.selected && p.goal == q.goal && p.before == q.before && p.shuttingDown == q.shuttingDown
      && Startup(p.files, r.codec) == c && p.files.active == q.files.staged && p.base == q.base
  {
  }

  // ------------------------------------------------------------- a loss of power

  /** The directory after a power loss that keeps those of the pending renames that `keep` names. */
  function Left(a: App, keep: nat -> bool): Files { Surviving(a.base, a.pending, keep) }

  ghost predicate SameNames(f: Files, g: Files) { f.active == g.active && f.backup == g.backup }

  /** A text that a start can load, and what it is. */
  predicate Reads(text: seq<Byte>, c: Saved, k: Codec) { k.decode(text) == Good(c) }

  /** Every text that was moved is what the base loads, or was promoted before it. */
  ghost predicate Traced(base: Files, rs: seq<Rename>, k: Codec) {
    forall i | 0 <= i < |rs| ::
      match rs[i]
      case Promoted(y) => k.decode(y).Good?
      case BackedUp(x) => Reads(x, Startup(base, k), k) || exists j | 0 <= j < i :: rs[j] == Promoted(x)
  }

  /** What a start would load from what was last synchronised, or a candidate promoted since. */
  ghost predicate Known(base: Files, rs: seq<Rename>, c: Saved, k: Codec) {
    c == Startup(base, k) || exists i | 0 <= i < |rs| :: rs[i].Promoted? && Reads(rs[i].text, c, k)
  }

  lemma {:induction false} SurvivingIsKnown(base: Files, rs: seq<Rename>, keep: nat -> bool, k: Codec)
    requires Traced(base, rs, k)
    ensures Known(base, rs, Startup(Surviving(base, rs, keep), k), k)
    decreases |rs|
  {
    if rs != [] {
      var n := |rs| - 1;
      var front := rs[..n];
      TracedBefore(base, rs, n, k);
      SurvivingIsKnown(base, front, keep, k);
      if keep(n) {
        RenamedLoads(Surviving(base, front, keep), rs[n], k);
        if rs[n].BackedUp? && !Reads(rs[n].text, Startup(base, k), k) {
          var j :| 0 <= j < n && rs[j] == Promoted(rs[n].text);
        }
      } else {
        KnownMore(base, rs, n, Startup(Surviving(base, front, keep), k), k);
      }
      hide Startup, Surviving;
    }
  }

  lemma TracedBefore(base: Files, rs: seq<Rename>, n: nat, k: Codec)
    requires Traced(base, rs, k) && n <= |rs|
    ensures Traced(base, rs[..n], k)
  {
    hide Startup;
  }

  lemma KnownMore(base: Files, rs: seq<Rename>, n: nat, c: Saved, k: Codec)
    requires n <= |rs| && Known(base, rs[..n], c, k)
    ensures Known(base, rs, c, k)
  {
    hide Startup;
  }

  /** A start after a rename loads the text that was moved. */
  lemma RenamedLoads(f: Files, r: Rename, k: Codec)
    requires k.decode(r.text).Good?
    ensures Startup(Renamed(f, r), k) == k.decode(r.text).config
  {
  }

  /** The renames since the directory was `base` lead to the files as they are. */
  ghost predicate Fits(base: Files, rs: seq<Rename>, f: Files, k: Codec) {
    Traced(base, rs, k) && SameNames(Surviving(base, rs, Every), f)
  }

  lemma FitsSame(base: Files, rs: seq<Rename>, f: Files, g: Files, k: Codec)
    requires Fits(base, rs, f, k) && SameNames(f, g)
    ensures Fits(base, rs, g, k)
  {
    hide Traced, Surviving;
  }

  /** The records of renames fit the files, and success that was synchronised leaves nothing pending. */
  ghost predicate RenamesOk(a: App, r: Rules) {
    && Fits(a.base, a.pending, a.files, r.codec)
    && (a.tx.state == Succeeded && a.tx.result == Ok ==> a.pending == [])
  }

  lemma {:induction false} SurvivingAppend(f: Files, rs: seq<Rename>, more: seq<Rename>, keep: nat -> bool)
    requires forall i: nat :: keep(i)
    ensures Surviving(f, rs + more, keep) == Surviving(Surviving(f, rs, keep), more, keep)
    decreases |more|
  {
    if more == [] {
      assert rs + more == rs;
    } else {
      var n := |more| - 1;
      SurvivingAppend(f, rs, more[..n], keep);
      assert (rs + more)[..|rs| + n] == rs + more[..n];
    }
  }

  /** The active text is that of the base, or was promoted. */
  lemma {:induction false} ActiveOrigin(base: Files, rs: seq<Rename>, keep: nat -> bool)
    ensures var f := Surviving(base, rs, keep);
            f.active.Some? ==> f.active == base.active || Promoted(f.active.value) in rs
    decreases |rs|
  {
    if rs != [] {
      ActiveOrigin(base, rs[..|rs| - 1], keep);
    }
  }

  /** The renames depend on active and staged file only, and lead from equal names to equal names. */
  lemma {:induction false} SurvivingSame(f: Files, g: Files, rs: seq<Rename>, keep: nat -> bool)
    requires SameNames(f, g)
    ensures SameNames(Surviving(f, rs, keep), Surviving(g, rs, keep))
    decreases |rs|
  {
    if rs != [] {
      SurvivingSame(f, g, rs[..|rs| - 1], keep);
    }
  }

  /** A promotion ends where its renames lead. */
  lemma RenamesLead(f: Files, p: Promotion, k: Codec)
    ensures SameNames(Surviving(f, Renames(f, p, k), Every), Last(f, Promote(f, p, k).0))
  {
    var rs, points := Renames(f, p, k), Promote(f, p, k).0;
    assert rs[..|rs|] == rs;
    if Promote(f, p, k).1 != Unchanged {
      RenamesArePoints(f, p, k);
    }
    hide Promote, Renames;
    if Promote(f, p, k).1 == Unchanged {
      UnchangedRenames(f, p, k);
    }
  }

  lemma UnchangedRenames(f: Files, p: Promotion, k: Codec)
    requires Promote(f, p, k).1 == Unchanged
    ensures Renames(f, p, k) == [] && SameNames(f, Last(f, Promote(f, p, k).0))
  {
  }

  lemma RenamesAreTraced(base: Files, rs: seq<Rename>, f: Files, p: Promotion, k: Codec)
    requires Traced(base, rs, k) && SameNames(Surviving(base, rs, Every), f)
    ensures Traced(base, rs + Renames(f, p, k), k)
  {
    ActiveOrigin(base, rs, Every);
    hide Surviving;
    var all := rs + Renames(f, p, k);
    forall i | |rs| <= i < |all|
      ensures match all[i]
              case Promoted(y) => k.decode(y).Good?
              case BackedUp(x) => Reads(x, Startup(base, k), k) || exists j | 0 <= j < i :: all[j] == Promoted(x)
    {
      if all[i].BackedUp? && base.active != f.active {
        var j :| 0 <= j < |rs| && rs[j] == Promoted(all[i].text);
        assert all[j] == Promoted(all[i].text);
      }
    }
    forall i | 0 <= i < |rs| ensures all[i] == rs[i] {
    }
  }

  lemma PromotedFits(base: Files, rs: seq<Rename>, f: Files, p: Promotion, k: Codec)
    requires Fits(base, rs, f, k)
    ensures Fits(base, rs + Renames(f, p, k), Last(f, Promote(f, p, k).0), k)
  {
    var more := Renames(f, p, k);
    RenamesAreTraced(base, rs, f, p, k);
    RenamesLead(f, p, k);
    SurvivingAppend(base, rs, more, Every);
    SurvivingSame(Surviving(base, rs, Every), f, more, Every);
    hide Surviving, Traced, Renames, Promote;
  }

  lemma NothingFits(f: Files, k: Codec)
    ensures Fits(f, [], f, k)
  {
  }

  lemma AfterPromotionFits(a: App, e: Answers, r: Rules)
    requires Fits(a.base, a.pending, a.files, r.codec)
    ensures var b := AfterPromotion(a, e, r);
            Fits(b.base, b.pending, b.files, r.codec) && (b.tx.result == Ok ==> b.pending == [])
  {
    hide Fits, Promote, Renames;
    var b := AfterPromotion(a, e, r);
    PromotedFits(a.base, a.pending, a.files, e.promotion, r.codec);
    NothingFits(b.files, r.codec);
  }

  lemma PromotingKeepsRenames(a: App, e: Answers, r: Rules)
    requires RenamesOk(a, r) && a.tx.state == Promoting
    ensures RenamesOk(StepPromoting(a, e, r), r)
  {
    hide Fits, AfterPromotion, Select, BeginRollback;
    AfterPromotionFits(a, e, r);
    RollbackFits(AfterPromotion(a, e, r), e.unlink, r);
  }

  lemma RollbackFits(b: App, unlink: bool, r: Rules)
    requires Fits(b.base, b.pending, b.files, r.codec)
    ensures RenamesOk(BeginRollback(b, unlink), r)
  {
    FitsSame(b.base, b.pending, b.files, BeginRollback(b, unlink).files, r.codec);
    hide Fits;
  }

  /** Only the staged file may have changed, and nothing has newly succeeded. */
  ghost predicate StagedOnly(a: App, b: App) {
    && SameNames(a.files, b.files) && b.base == a.base && b.pending == a.pending
    && (b.tx.state == Succeeded ==> a.tx.state == Succeeded && b.tx.result == a.tx.result)
  }

  lemma RequestStages(a: App, c: Saved, e: Answers, r: Rules)
    ensures StagedOnly(a, Request(a, c, e, r).0)
  {
    StagingIsInvisible(a.files, Literal(c, a.selected), e.writing, r.codec);
    hide Startup, ValidSaved, SameUarts, Literal, StagePoints;
  }

  lemma WalkStages(a: App, e: Answers, r: Rules, now: Tick)
    ensures StagedOnly(a, StepWalk(a, e, r, now))
  {
    hide Control.ApplyCall, Terminal, Transient, Discard;
    assert SameNames(a.files, Discard(a.files, e.unlink)) by { DiscardStages(a.files, e.unlink); }
  }

  lemma DiscardStages(f: Files, unlink: bool)
    ensures SameNames(f, Discard(f, unlink))
  {
  }

  /** Whatever else happens, only the staged file changes. */
  lemma OthersKeepRenames(a: App, e: Event, r: Rules, now: Tick)
    requires !e.TxStepped? || a.tx.state != Promoting || a.shuttingDown
    ensures StagedOnly(a, React(a, e, r, now))
  {
    hide Control.ApplyCall, StepPromoting, Request, StepWalk;
    match e {
      case Requested(c, answers) => RequestStages(a, c, answers, r);
      case TxStepped(answers) => WalkStages(a, answers, r, now);
      case PortsStepped(s) =>
      case ShutDown(s) =>
    }
  }

  lemma ReactKeepsRenames(a: App, e: Event, r: Rules, now: Tick)
    requires RenamesOk(a, r)
    ensures RenamesOk(React(a, e, r, now), r)
  {
    if e.TxStepped? && a.tx.state == Promoting && !a.shuttingDown {
      PromotingKeepsRenames(a, e.answers, r);
      hide RenamesOk, StepPromoting;
    } else {
      OthersKeepRenames(a, e, r, now);
      FitsSame(a.base, a.pending, a.files, React(a, e, r, now).files, r.codec);
      hide React, Fits;
    }
  }

  lemma {:induction false} RunKeepsRenames(a: App, es: seq<(Event, Tick)>, r: Rules)
    requires RenamesOk(a, r)
    ensures RenamesOk(Run(a, es, r), r)
    decreases |es|
  {
    hide RenamesOk, React;
    if es != [] {
      ReactKeepsRenames(a, es[0].0, r, es[0].1);
      RunKeepsRenames(React(a, es[0].0, r, es[0].1), es[1..], r);
    }
  }

  /**
   * Power loss, over every history that begins from a synchronised directory and
   * whichever renames it undoes: a start loads what was last synchronised or a
   * candidate promoted since; and after a success that synchronised, the candidate.
   */
  lemma PowerLossLoadsKnown(g: Control.Gateway, f: Files, s: Saved, source: Source, es: seq<(Event, Tick)>, r: Rules,
                            keep: nat -> bool)
    requires Faithful(r.codec)
    ensures var a := Run(InitApp(g, f, s, source, r), es, r);
      && Known(a.base, a.pending, Startup(Left(a, keep), r.codec), r.codec)
      && (a.tx.state == Succeeded && a.tx.result == Ok ==> Startup(Left(a, keep), r.codec) == a.goal == a.selected)
  {
    var o := InitApp(g, f, s, source, r);
    StartsOk(g, f, s, source, r);
    RunKeepsRenames(o, es, r);
    StartupLoadsOldOrNew(g, f, s, source, es, r);
    var a := Run(o, es, r);
    hide Run, InitApp, Faithful, Known, Startup, Traced;
    SurvivingIsKnown(a.base, a.pending, keep, r.codec);
    if a.pending == [] {
      StagedIsNotRead(a.files, a.base, r.codec);
    }
  }

  /**
   * The same inside a promotion, made over renames that are still pending: a power
   * loss after `n` of all the renames loads what was last synchronised or a
   * candidate that one of those `n` promoted.
   */
  lemma PowerLossInPromotion(g: Control.Gateway, f: Files, s: Saved, source: Source, es: seq<(Event, Tick)>, r: Rules,
                             p: Promotion, n: nat, keep: nat -> bool)
    requires var a := Run(InitApp(g, f, s, source, r), es, r); n <= |a.pending + Renames(a.files, p, r.codec)|
    ensures var a := Run(InitApp(g, f, s, source, r), es, r);
            var rs := (a.pending + Renames(a.files, p, r.codec))[..n];
            Known(a.base, rs, Startup(Surviving(a.base, rs, keep), r.codec), r.codec)
  {
    hide Run, Known, Startup, Traced, Surviving, Renames;
    var o := InitApp(g, f, s, source, r);
    StartsOk(g, f, s, source, r);
    RunKeepsRenames(o, es, r);
    var a := Run(o, es, r);
    var rs := a.pending + Renames(a.files, p, r.codec);
    RenamesAreTraced(a.base, a.pending, a.files, p, r.codec);
    TracedBefore(a.base, rs, n, r.codec);
    SurvivingIsKnown(a.base, rs[..n], keep, r.codec);
  }

  // ------------------------------------------------------------ success for good

  /** Whatever a power loss undoes, a start loads `c`. */
  ghost predicate ForGood(base: Files, rs: seq<Rename>, c: Saved, k: Codec) {
    forall keep: nat -> bool :: Startup(Surviving(base, rs, keep), k) == c
  }

  /** The base loads `c`, and no text was moved since that is anything else. */
  ghost predicate NothingElse(base: Files, rs: seq<Rename>, c: Saved, k: Codec) {
    Startup(base, k) == c && forall i | 0 <= i < |rs| :: Reads(rs[i].text, c, k)
  }

  lemma {:induction false} NothingElseLoads(base: Files, rs: seq<Rename>, keep: nat -> bool, c: Saved, k: Codec)
    requires NothingElse(base, rs, c, k)
    ensures Startup(Surviving(base, rs, keep), k) == c
    decreases |rs|
  {
    if rs != [] {
      var n := |rs| - 1;
      hide Startup;
      NothingElseLoads(base, rs[..n], keep, c, k);
      RenamedLoads(Surviving(base, rs[..n], keep), rs[n], k);
    }
  }

  /** Only rename `i` lasts. */
  function Only(i: nat): nat -> bool { j => j == i }

  lemma {:induction false} OnlySurvives(f: Files, rs: seq<Rename>, i: nat)
    ensures Surviving(f, rs, Only(i)) == if i < |rs| then Renamed(f, rs[i]) else f
    decreases |rs|
  {
    hide Renamed;
    if rs != [] {
      OnlySurvives(f, rs[..|rs| - 1], i);
    }
  }

  lemma TextIsGood(base: Files, rs: seq<Rename>, i: nat, k: Codec)
    requires Traced(base, rs, k) && i < |rs|
    ensures k.decode(rs[i].text).Good?
  {
    hide Startup;
    if rs[i].BackedUp? && !Reads(rs[i].text, Startup(base, k), k) {
      var j :| 0 <= j < i && rs[j] == Promoted(rs[i].text);
    }
  }

  /** A power loss cannot take `c` away exactly when nothing else is pending, and the base loads it. */
  lemma ForGoodIsNothingElse(base: Files, rs: seq<Rename>, c: Saved, k: Codec)
    requires Traced(base, rs, k)
    ensures ForGood(base, rs, c, k) <==> NothingElse(base, rs, c, k)
  {
    hide Startup, Surviving, Traced;
    if NothingElse(base, rs, c, k) {
      forall keep: nat -> bool ensures Startup(Surviving(base, rs, keep), k) == c {
        NothingElseLoads(base, rs, keep, c, k);
      }
    }
    if ForGood(base, rs, c, k) {
      NothingSurvives(base, rs, No);
      assert Startup(Surviving(base, rs, No), k) == c;
      forall i | 0 <= i < |rs| ensures Reads(rs[i].text, c, k) {
        OnlySurvives(base, rs, i);
        TextIsGood(base, rs, i, k);
        RenamedLoads(base, rs[i], k);
        assert Startup(Surviving(base, rs, Only(i)), k) == c;
      }
    }
  }

  /**
   * When a success is for good, after every history: exactly when what was last
   * synchronised loads the candidate, and so does every text moved since.
   */
  lemma SuccessForGood(g: Control.Gateway, f: Files, s: Saved, source: Source, es: seq<(Event, Tick)>, r: Rules)
    ensures var a := Run(InitApp(g, f, s, source, r), es, r);
            a.tx.state == Succeeded ==>
              (ForGood(a.base, a.pending, a.goal, r.codec) <==> NothingElse(a.base, a.pending, a.goal, r.codec))
  {
    hide Run, ForGood, NothingElse, Traced;
    var o := InitApp(g, f, s, source, r);
    StartsOk(g, f, s, source, r);
    RunKeepsRenames(o, es, r);
    var a := Run(o, es, r);
    ForGoodIsNothingElse(a.base, a.pending, a.goal, r.codec);
  }

  /** A promotion that succeeded leaves nothing pending, or what was if it found the candidate in place. */
  lemma PromotedPending(a: App, e: Answers, r: Rules)
    requires a.tx.state == Promoting && StepPromoting(a, e, r).tx.state == Succeeded && a.tx.candidate == a.goal
    requires a.files.staged.Some? && r.codec.decode(a.files.staged.value) == Good(a.goal)
    ensures var q := StepPromoting(a, e, r);
            q.goal == a.goal &&
            if Load(a.files.active, e.promotion.readActive, r.codec).1 == Some(a.goal)
            then q.base == a.base && q.pending == a.pending
            else q.pending == [] && Startup(q.base, r.codec) == a.goal
  {
  }

  lemma RenamesTraced(a: App, r: Rules)
    requires RenamesOk(a, r)
    ensures Traced(a.base, a.pending, r.codec)
  {
    hide Traced, Surviving;
  }

  /**
   * The same before the promotion: its success is for good exactly when it does not
   * find the candidate in place already, or nothing else was pending and the base
   * loads the candidate.
   */
  lemma PromotionForGood(g: Control.Gateway, f: Files, s: Saved, source: Source, es: seq<(Event, Tick)>, r: Rules,
                         e: Answers)
    requires Faithful(r.codec)
    requires var a := Run(InitApp(g, f, s, source, r), es, r);
             a.tx.state == Promoting && StepPromoting(a, e, r).tx.state == Succeeded
    ensures var a := Run(InitApp(g, f, s, source, r), es, r);
            var q := StepPromoting(a, e, r);
            ForGood(q.base, q.pending, q.goal, r.codec) <==>
              Load(a.files.active, e.promotion.readActive, r.codec).1 != Some(a.goal)
              || NothingElse(a.base, a.pending, a.goal, r.codec)
  {
    hide Run, ForGood, NothingElse, Fits, DiskOk, Faithful, StepPromoting, Traced;
    var o := InitApp(g, f, s, source, r);
    StartsOk(g, f, s, source, r);
    RunKeepsRenames(o, es, r);
    RunKeepsDisk(o, es, r);
    var a := Run(o, es, r);
    var q := StepPromoting(a, e, r);
    PromotingKeepsRenames(a, e, r);
    RenamesTraced(q, r);
    ForGoodIsNothingElse(q.base, q.pending, q.goal, r.codec);
    StagedGoal(a, r);
    PromotedPending(a, e, r);
    NothingElseOfNothing(q.base, q.goal, r.codec);
  }

  lemma NothingElseOfNothing(base: Files, c: Saved, k: Codec)
    ensures NothingElse(base, [], c, k) <==> Startup(base, k) == c
  {
    hide Startup;
  }

  lemma StartsOk(g: Control.Gateway, f: Files, s: Saved, source: Source, r: Rules)
    ensures DiskOk(InitApp(g, f, s, source, r), r) && RenamesOk(InitApp(g, f, s, source, r), r)
  {
  }

  /** The directory can always be synchronised. */
  predicate Synchronises(e: Event) { e.TxStepped? ==> e.answers.promotion.sync }

  /** What is pending has taken the active file away, and no success leaves anything pending. */
  ghost predicate NothingLeft(a: App) {
    (a.pending != [] ==> a.files.active.None?) && (a.tx.state == Succeeded ==> a.pending == [])
  }

  lemma ReactLeavesNothing(a: App, e: Event, r: Rules, now: Tick)
    requires NothingLeft(a) && Synchronises(e)
    ensures NothingLeft(React(a, e, r, now))
  {
    hide Control.ApplyCall, StepPromoting, Startup, ValidSaved, SameUarts, Literal, Terminal, Transient;
    if e.TxStepped? && !(a.shuttingDown && Underway(a.tx.state)) && a.tx.state == Promoting {
      PromotingLeavesNothing(a, e.answers, r);
    } else if e.Requested? {
      StagingIsInvisible(a.files, Literal(e.config, a.selected), e.answers.writing, r.codec);
      hide StagePoints;
    }
  }

  lemma PromotingLeavesNothing(a: App, e: Answers, r: Rules)
    requires NothingLeft(a) && a.tx.state == Promoting && e.promotion.sync
    ensures NothingLeft(StepPromoting(a, e, r))
  {
    hide Select;
  }

  lemma {:induction false} RunLeavesNothing(a: App, es: seq<(Event, Tick)>, r: Rules)
    requires NothingLeft(a) && forall x | x in es :: Synchronises(x.0)
    ensures NothingLeft(Run(a, es, r))
    decreases |es|
  {
    hide NothingLeft, React, Synchronises;
    if es != [] {
      ReactLeavesNothing(a, es[0].0, r, es[0].1);
      RunLeavesNothing(React(a, es[0].0, r, es[0].1), es[1..], r);
    }
  }

  /** If every directory can be synchronised, success is for good: no power loss undoes it. */
  lemma SuccessIsDurable(g: Control.Gateway, f: Files, s: Saved, source: Source, es: seq<(Event, Tick)>, r: Rules)
    requires Faithful(r.codec) && forall x | x in es :: Synchronises(x.0)
    ensures var a := Run(InitApp(g, f, s, source, r), es, r);
            a.tx.state == Succeeded ==> a.goal == a.selected && ForGood(a.base, a.pending, a.goal, r.codec)
  {
    hide Run, Faithful, Startup, Traced, Synchronises, ForGood, NothingElse;
    var o := InitApp(g, f, s, source, r);
    StartsOk(g, f, s, source, r);
    RunKeepsRenames(o, es, r);
    RunLeavesNothing(o, es, r);
    StartupLoadsOldOrNew(g, f, s, source, es, r);
    var a := Run(o, es, r);
    if a.tx.state == Succeeded {
      StagedIsNotRead(a.files, a.base, r.codec);
      NothingElseOfNothing(a.base, a.goal, r.codec);
      SuccessForGood(g, f, s, source, es, r);
    }
  }

  lemma RunOfFive(o: App, e: Event, x: Event, r: Rules)
    ensures var es: seq<(Event, Tick)> := [(e, 0), (x, 0), (x, 0), (e, 0), (x, 0)];
            var q := React(React(React(o, e, r, 0), x, r, 0), x, r, 0);
            Run(o, es, r) == React(React(q, e, r, 0), x, r, 0)
  {
    hide React;
    var es: seq<(Event, Tick)> := [(e, 0), (x, 0), (x, 0), (e, 0), (x, 0)];
    var p := React(o, e, r, 0);
    var q := React(p, x, r, 0);
    var t := React(q, x, r, 0);
    var u := React(t, e, r, 0);
    assert Run(u, [(x, 0)], r) == React(u, x, r, 0);
    assert Run(t, [(e, 0), (x, 0)], r) == Run(u, [(x, 0)], r);
    assert Run(q, [(x, 0), (e, 0), (x, 0)], r) == Run(t, [(e, 0), (x, 0)], r);
    assert Run(p, [(x, 0), (x, 0), (e, 0), (x, 0)], r) == Run(q, [(x, 0), (e, 0), (x, 0)], r);
    assert es[1..] == [(x, 0), (x, 0), (e, 0), (x, 0)];
  }

  lemma FoundInPlace(t: App, c: Saved, r: Rules)
    requires t.tx.state == Promoting && t.tx.candidate == c && t.files.active.Some? && t.files.staged.Some?
    requires r.codec.decode(t.files.active.value) == Good(c) && r.codec.decode(t.files.staged.value) == Good(c)
    ensures var a := StepPromoting(t, SLIP, r);
      && a.tx.state == Succeeded && a.tx.result == Unchanged && a.selected == c && Startup(a.files, r.codec) == c
      && a.base == t.base
  {
  }

  lemma {:induction false} NothingSurvives(f: Files, rs: seq<Rename>, keep: nat -> bool)
    requires forall i: nat :: !keep(i)
    ensures Surviving(f, rs, keep) == f
    decreases |rs|
  {
    if rs != [] {
      NothingSurvives(f, rs[..|rs| - 1], keep);
    }
  }

  /**
   * Otherwise success may be undone: the candidate of a promotion that slipped by is
   * taken up again, found in place, and reported as a success, and a power loss
   * brings back the configuration from before.
   */
  lemma SuccessMayBeUndone(g: Control.Gateway, f: Files, s: Saved, c: Saved, r: Rules)
    requires r.codec.encode(c).Some? && Faithful(r.codec) && ValidSaved(c, r) && c != s && c.ports == s.ports
    requires f.active.Some? && r.codec.decode(f.active.value) == Good(s)
    ensures var es: seq<(Event, Tick)> :=
              [(Requested(c, SLIP), 0), (TxStepped(SLIP), 0), (TxStepped(SLIP), 0), (Requested(c, SLIP), 0),
               (TxStepped(SLIP), 0)];
            var a := Run(InitApp(g, f, s, FromActive, r), es, r);
      && a.tx.state == Succeeded && a.tx.result == Unchanged && a.selected == c && Startup(a.files, r.codec) == c
      && Startup(Left(a, No), r.codec) == s && !ForGood(a.base, a.pending, c, r.codec)
  {
    var o := InitApp(g, f, s, FromActive, r);
    RunOfFive(o, Requested(c, SLIP), TxStepped(SLIP), r);
    SlippedRun(o, c, r);
    var q := React(React(React(o, Requested(c, SLIP), r, 0), TxStepped(SLIP), r, 0), TxStepped(SLIP), r, 0);
    FoundAgain(q, c, r);
    var a := React(React(q, Requested(c, SLIP), r, 0), TxStepped(SLIP), r, 0);
    NothingSurvives(a.base, a.pending, No);
    NotForGood(a.base, a.pending, c, r.codec);
    hide React, ValidSaved, Run, SLIP, Faithful, Surviving, ForGood;
  }

  lemma NotForGood(base: Files, rs: seq<Rename>, c: Saved, k: Codec)
    requires Startup(base, k) != c
    ensures !ForGood(base, rs, c, k)
  {
    hide Startup, Surviving;
    NothingSurvives(base, rs, No);
    assert Startup(Surviving(base, rs, No), k) != c;
  }

  /** The candidate, in place already, is taken up again. */
  lemma FoundAgain(q: App, c: Saved, r: Rules)
    requires r.codec.encode(c).Some? && r.codec.decode(r.codec.encode(c).value) == Good(c) && ValidSaved(c, r)
    requires c != q.selected && c.ports == q.selected.ports && !Underway(q.tx.state) && !q.shuttingDown
    requires q.files.active == r.codec.encode(c)
    ensures var a := React(React(q, Requested(c, SLIP), r, 0), TxStepped(SLIP), r, 0);
      && a.tx.state == Succeeded && a.tx.result == Unchanged && a.selected == c && Startup(a.files, r.codec) == c
      && a.base == q.base
  {
    hide Request, StepPromoting, ValidSaved, SLIP;
    TakenUp(q, c, r);
    FoundInPlace(Request(q, c, SLIP, r).0, c, r);
  }

  // ------------------------------------------------------------------- the ports

  /** A port that carries `c` and that only a new configuration can change. */
  predicate Settled(p: Control.Controlled, c: Control.PortConfig) {
    p.current == c && AtRest(p)
  }

  predicate AtRest(p: Control.Controlled) {
    p.lifecycle == Control.Ready || p.lifecycle == Control.Degraded || p.lifecycle == Control.Disabled
    || p.lifecycle == Control.Failed || p.lifecycle == Control.NetworkWait
  }

  lemma RestIsKept(p: Control.Controlled, now: Tick, a: Control.Answers)
    requires AtRest(p)
    ensures AtRest(Control.StepPort(p, now, a)) && Control.StepPort(p, now, a).current == p.current
  {
    hide Control.StepRuntime;
  }

  predicate SettledUpTo(g: Control.Gateway, ports: Ports, n: nat) {
    forall i | 0 <= i < n && i < Control.PORT_COUNT :: Settled(g[i], ports[i])
  }

  /** The ports as far as the walk has come, unless the controller is being shut down. */
  ghost predicate PortsOk(a: App) {
    var t := a.tx;
    var moved := t.candidate.ports != t.previous.ports;
    !a.shuttingDown ==>
      && (t.walked ==> t.state == Failed)
      && (t.state == Activating ==> moved && !t.rollbackFailed && SettledUpTo(a.gateway, t.candidate.ports, t.index))
      && (t.state == Promoting ==>
            !t.rollbackFailed && (moved ==> SettledUpTo(a.gateway, t.candidate.ports, Control.PORT_COUNT)))
      && ((t.state == Succeeded || t.state == Uncertain) && moved ==>
            SettledUpTo(a.gateway, t.candidate.ports, Control.PORT_COUNT))
      && (t.state == RollingBack && moved && !t.rollbackFailed ==> SettledUpTo(a.gateway, t.previous.ports, t.index))
      && (t.state == RollingBack && !moved ==> t.index >= Control.PORT_COUNT && !t.rollbackFailed)
      && (t.walked ==> a.selected == t.previous)
      && (t.walked && moved && !t.rollbackFailed ==> SettledUpTo(a.gateway, t.previous.ports, Control.PORT_COUNT))
      && (!moved && (t.state == Promoting || t.state == RollingBack || t.walked) ==> Untouched(a))
  }

  /** A port that was left to its own steps: at rest it carries what it did, on its way at most what it was staged. */
  ghost predicate Undisturbed(p: Control.Controlled, q: Control.Controlled) {
    && (AtRest(p) ==> Settled(q, p.current))
    && q.staged == p.staged && (q.current == p.current || q.current == p.staged)
  }

  /** No port has been asked for anything since the candidate was taken up. */
  ghost predicate Untouched(a: App) {
    forall i | 0 <= i < Control.PORT_COUNT :: Undisturbed(a.asked[i], a.gateway[i])
  }

  /** What a port was staged stays, and is the most it comes to carry. */
  predicate KeepsStaged(q: Control.Controlled, n: Control.Controlled) {
    n.staged == q.staged && (n.current == q.current || n.current == q.staged)
  }

  lemma ListenerKeepsStaged(q: Control.Controlled, now: Tick, ok: bool)
    ensures KeepsStaged(q, Control.StartListener(q, now, ok))
    ensures KeepsStaged(q, Control.StartListener(q.(lastError := Control.ReconfigureFailed), now, ok))
  {
    hide Port.Stop, Port.Stoppable;
  }

  lemma ReconfiguringKeepsStaged(q: Control.Controlled, now: Tick, a: Control.Answers)
    ensures KeepsStaged(q, Control.StepReconfiguring(q, now, a))
  {
    hide Control.StartListener, Control.AdoptRevision, Control.CanReconfigure, Port.Reconfigure;
    ListenerKeepsStaged(q, now, a.start);
  }

  lemma StepStaged(q: Control.Controlled, now: Tick, a: Control.Answers)
    ensures KeepsStaged(q, Control.StepPort(q, now, a))
  {
    hide Control.StepRuntime, Control.StartListener, Control.StepReconfiguring, Control.StepRollingBack,
         Control.StepStopping;
    var r := q.(runtime := Control.StepRuntime(q, now, a));
    ListenerKeepsStaged(r, now, a.start);
    ReconfiguringKeepsStaged(r, now, a);
    EndsKeepStaged(r, a);
  }

  lemma EndsKeepStaged(q: Control.Controlled, a: Control.Answers)
    ensures KeepsStaged(q, Control.StepRollingBack(q, a)) && KeepsStaged(q, Control.StepStopping(q))
  {
  }

  lemma StepUndisturbed(p: Control.Controlled, q: Control.Controlled, now: Tick, a: Control.Answers)
    requires Undisturbed(p, q)
    ensures Undisturbed(p, Control.StepPort(q, now, a))
  {
    hide Control.StepPort;
    StepStaged(q, now, a);
    if AtRest(p) {
      RestIsKept(q, now, a);
    }
  }

  /** Steps of the ports alone. */
  lemma PortsStepKeeps(a: App, turns: seq<Control.Answers>, r: Rules, now: Tick)
    requires PortsOk(a)
    ensures PortsOk(React(a, PortsStepped(turns), r, now))
  {
    hide Control.StepPort, Control.AnswersFor, Undisturbed;
    var g := Control.ApplyCall(a.gateway, Control.StepAll(turns), r.bindOk, now).0;
    forall i | 0 <= i < Control.PORT_COUNT
      ensures AtRest(a.gateway[i]) ==> Settled(g[i], a.gateway[i].current)
      ensures Undisturbed(a.asked[i], a.gateway[i]) ==> Undisturbed(a.asked[i], g[i])
    {
      if AtRest(a.gateway[i]) {
        RestIsKept(a.gateway[i], now, Control.AnswersFor(turns, i));
      }
      if Undisturbed(a.asked[i], a.gateway[i]) {
        StepUndisturbed(a.asked[i], a.gateway[i], now, Control.AnswersFor(turns, i));
      }
    }
  }

  lemma RequestKeepsPorts(a: App, c: Saved, e: Answers, r: Rules)
    requires PortsOk(a)
    ensures PortsOk(Request(a, c, e, r).0)
  {
    hide ValidSaved, SameUarts, Literal, StagePoints, StageResult, Startup;
  }

  lemma TerminalIsSettled(p: Control.Controlled, c: Control.PortConfig)
    requires Terminal(p, c)
    ensures Settled(p, c)
  {
  }

  /** Asking one port leaves the others alone. */
  lemma AskedAlone(g: Control.Gateway, i: nat, c: Control.PortConfig, e: Answers, r: Rules, now: Tick)
    requires i < Control.PORT_COUNT
    ensures var h := Control.ApplyCall(g, Control.Reconfigure(i, c, e.stop, e.again), r.bindOk, now).0;
            forall j | 0 <= j < Control.PORT_COUNT && j != i :: h[j] == g[j]
  {
    hide Control.ReconfigurePort, Control.Acceptable;
  }

  lemma NextKeepsPorts(a: App)
    requires PortsOk(a) && (a.tx.state == Activating || a.tx.state == RollingBack) && a.tx.index < Control.PORT_COUNT
    requires Terminal(a.gateway[a.tx.index], Desired(a.tx)[a.tx.index])
    ensures PortsOk(NextPort(a))
  {
    hide Settled, Terminal, Untouched;
    TerminalIsSettled(a.gateway[a.tx.index], Desired(a.tx)[a.tx.index]);
  }

  lemma PortFailedKeepsPorts(a: App, unlink: bool)
    requires !a.shuttingDown && !a.tx.walked && a.tx.index < Control.PORT_COUNT
    requires a.tx.state == Activating ==> a.tx.candidate.ports != a.tx.previous.ports && !a.tx.rollbackFailed
    requires a.tx.state == RollingBack ==> a.tx.candidate.ports != a.tx.previous.ports
    requires a.tx.state == Activating || a.tx.state == RollingBack
    ensures PortsOk(PortFailed(a, unlink))
  {
    hide Settled, Untouched, Discard;
  }

  lemma EndKeepsPorts(a: App)
    requires PortsOk(a) && (a.tx.state == Activating || a.tx.state == RollingBack) && a.tx.index >= Control.PORT_COUNT
    ensures PortsOk(EndWalk(a))
  {
    hide Settled, AtRest;
  }

  lemma AskKeepsPorts(a: App, e: Answers, r: Rules, now: Tick)
    requires PortsOk(a) && !a.shuttingDown && (a.tx.state == Activating || a.tx.state == RollingBack)
    requires a.tx.index < Control.PORT_COUNT
    ensures PortsOk(AskPort(a, e, r, now))
  {
    hide Settled, Terminal, Transient, PortFailed, Control.ApplyCall, Untouched;
    var want := Desired(a.tx)[a.tx.index];
    var g := Control.ApplyCall(a.gateway, Control.Reconfigure(a.tx.index, want, e.stop, e.again), r.bindOk, now).0;
    PortFailedKeepsPorts(a.(gateway := g), e.unlink);
    AskedAlone(a.gateway, a.tx.index, want, e, r, now);
    if Terminal(a.gateway[a.tx.index], want) {
      NextKeepsPorts(a);
    }
  }

  lemma WalkKeepsPorts(a: App, e: Answers, r: Rules, now: Tick)
    requires PortsOk(a) && !a.shuttingDown && (a.tx.state == Activating || a.tx.state == RollingBack)
    ensures PortsOk(StepWalk(a, e, r, now))
  {
    if a.tx.index >= Control.PORT_COUNT {
      EndKeepsPorts(a);
    } else if !a.tx.waiting {
      AskKeepsPorts(a, e, r, now);
    } else {
      PortFailedKeepsPorts(a, e.unlink);
      if Terminal(a.gateway[a.tx.index], Desired(a.tx)[a.tx.index]) {
        NextKeepsPorts(a);
      }
    }
    hide SettledUpTo, Untouched, Terminal, Transient, PortFailed, EndWalk, NextPort, AskPort;
  }

  lemma PromotingKeepsPorts(a: App, e: Answers, r: Rules)
    requires PortsOk(a) && !a.shuttingDown && a.tx.state == Promoting
    ensures PortsOk(StepPromoting(a, e, r))
  {
    hide Settled, Promote, Select, Discard;
  }

  lemma ReactKeepsPorts(a: App, e: Event, r: Rules, now: Tick)
    requires PortsOk(a)
    ensures PortsOk(React(a, e, r, now))
  {
    hide Request, StepWalk, StepPromoting, PortsOk, Control.ApplyCall;
    match e {
      case Requested(c, answers) => RequestKeepsPorts(a, c, answers, r);
      case PortsStepped(turns) => PortsStepKeeps(a, turns, r, now);
      case TxStepped(answers) => TxKeepsPorts(a, answers, r, now);
      case ShutDown(s) => ShutKeepsPorts(a, s, r, now);
    }
  }

  lemma ShutKeepsPorts(a: App, stops: seq<bool>, r: Rules, now: Tick)
    ensures PortsOk(React(a, ShutDown(stops), r, now))
  {
    hide Control.ApplyCall;
  }

  lemma TxKeepsPorts(a: App, e: Answers, r: Rules, now: Tick)
    requires PortsOk(a)
    ensures PortsOk(StepTx(a, e, r, now))
  {
    if a.shuttingDown {
      StillShuttingDown(a, e, r, now);
    } else if a.tx.state == Activating || a.tx.state == RollingBack {
      WalkKeepsPorts(a, e, r, now);
    } else if a.tx.state == Promoting {
      PromotingKeepsPorts(a, e, r);
    }
    hide StepWalk, StepPromoting, SettledUpTo, Untouched;
  }

  lemma StillShuttingDown(a: App, e: Answers, r: Rules, now: Tick)
    requires a.shuttingDown
    ensures StepTx(a, e, r, now).shuttingDown
  {
    hide StepWalk, StepPromoting;
  }

  lemma {:induction false} RunKeepsPorts(a: App, es: seq<(Event, Tick)>, r: Rules)
    requires PortsOk(a)
    ensures PortsOk(Run(a, es, r))
    decreases |es|
  {
    hide PortsOk, React;
    if es != [] {
      ReactKeepsPorts(a, es[0].0, r, es[0].1);
      RunKeepsPorts(React(a, es[0].0, r, es[0].1), es[1..], r);
    }
  }

  ghost predicate Carry(g: Control.Gateway, ports: Ports) {
    forall i | 0 <= i < Control.PORT_COUNT :: g[i].current == ports[i]
  }

  ghost predicate AllAtRest(g: Control.Gateway) {
    forall i | 0 <= i < Control.PORT_COUNT :: AtRest(g[i])
  }

  /**
   * When the rollback walk ends without a refusal before shutdown, and the
   * candidate moved ports, all eight ports carry the previous configuration. When
   * it moved none, a port that was at rest carries what it carried, and one that
   * was on its way that or what it had been staged; with all at rest they are on
   * the previous configuration exactly if they were on it when the candidate was
   * taken up.
   */
  lemma CleanRollbackRestores(g: Control.Gateway, f: Files, s: Saved, source: Source, es: seq<(Event, Tick)>, r: Rules)
    ensures var a := Run(InitApp(g, f, s, source, r), es, r);
            var t := a.tx;
      t.walked && !t.rollbackFailed && !a.shuttingDown ==>
        && a.selected == t.previous
        && (t.candidate.ports != t.previous.ports ==> Carry(a.gateway, t.previous.ports))
        && (t.candidate.ports == t.previous.ports ==>
              && (forall i | 0 <= i < Control.PORT_COUNT && AtRest(a.asked[i]) ::
                    a.gateway[i].current == a.asked[i].current)
              && (forall i | 0 <= i < Control.PORT_COUNT && !AtRest(a.asked[i]) ::
                    a.gateway[i].current == a.asked[i].current || a.gateway[i].current == a.asked[i].staged)
              && (AllAtRest(a.asked) ==> (Carry(a.gateway, t.previous.ports) <==> Carry(a.asked, t.previous.ports))))
  {
    hide Run, AtRest;
    RunKeepsPorts(InitApp(g, f, s, source, r), es, r);
  }

  /** Success before shutdown, with a candidate that moved ports: all eight carry it. */
  lemma SuccessActivates(g: Control.Gateway, f: Files, s: Saved, source: Source, es: seq<(Event, Tick)>, r: Rules)
    ensures var a := Run(InitApp(g, f, s, source, r), es, r);
            var t := a.tx;
      (t.state == Succeeded || t.state == Uncertain) && t.candidate.ports != t.previous.ports && !a.shuttingDown ==>
        forall i | 0 <= i < Control.PORT_COUNT :: a.gateway[i].current == t.candidate.ports[i]
  {
    RunKeepsPorts(InitApp(g, f, s, source, r), es, r);
    hide Run, AtRest;
  }
}
