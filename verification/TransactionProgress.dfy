/**
 * That the configuration transaction gets somewhere: what makes it roll back and
 * what does not, that a candidate whose ports and files all play their part
 * succeeds, and that a rollback ends.
 */
module TransactionProgress {
  import opened Deadline
  import opened ConfigStore
  import opened ConfigTransaction
  import Control = GatewayController

  /** The port at the index, and the configuration it is to have. */
  predicate Has(a: App)
    requires a.tx.index < Control.PORT_COUNT
  {
    Terminal(a.gateway[a.tx.index], Desired(a.tx)[a.tx.index])
  }

  /** The controller refuses the configuration for the port at the index. */
  predicate Refused(a: App, e: Answers, r: Rules, now: Tick)
    requires a.tx.index < Control.PORT_COUNT
  {
    Control.ApplyCall(a.gateway, Control.Reconfigure(a.tx.index, Desired(a.tx)[a.tx.index], e.stop, e.again),
                      r.bindOk, now).1 != 0
  }

  /** The port refused, or came to rest without the configuration it was asked to take. */
  predicate PortFails(a: App, e: Answers, r: Rules, now: Tick) {
    a.tx.index < Control.PORT_COUNT && !Has(a)
    && if a.tx.waiting then !Transient(a.gateway[a.tx.index]) else Refused(a, e, r, now)
  }

  /** The promotion failed, and the candidate is not found on disk either. */
  predicate PromotionFails(a: App, e: Answers, r: Rules) {
    var (points, result) := Promote(a.files, e.promotion, r.codec);
    result != Ok && result != Unchanged
    && !(result == DurabilityUncertain
         && var s := Select(Last(a.files, points), e.readActive, e.readBackup, r.codec);
            (s.0 == Ok || s.0 == Absent) && s.1 == a.tx.candidate)
  }

  ghost predicate Cause(a: App, e: Event, r: Rules, now: Tick) {
    e.TxStepped? && !a.shuttingDown
    && ((a.tx.state == Activating && PortFails(a, e.answers, r, now))
        || (a.tx.state == Promoting && PromotionFails(a, e.answers, r)))
  }

  /**
   * A candidate under way is rolled back exactly when a port refused it or came to
   * rest without it, or its promotion failed; nothing else turns it back, and only
   * a step while the application shuts down ends it otherwise. Either way the staged file
   * goes, if it can be unlinked.
   */
  lemma RolledBackForCause(a: App, e: Event, r: Rules, now: Tick)
    requires a.tx.state == Activating || a.tx.state == Promoting
    ensures var b := React(a, e, r, now);
      && (b.tx.state == RollingBack <==> Cause(a, e, r, now))
      && (b.tx.state == RollingBack ==>
            !b.tx.waiting && b.tx.index == if a.tx.candidate.ports == a.tx.previous.ports then 8 else 0)
      && (b.tx.state == Failed <==> e.TxStepped? && a.shuttingDown)
      && ((b.tx.state == RollingBack || b.tx.state == Failed) && e.answers.unlink ==> b.files.staged.None?)
      && b.tx.candidate == a.tx.candidate && b.tx.previous == a.tx.previous
  {
    hide Control.ApplyCall, Promote, Select, StepWalk, StepPromoting, PortFails, PromotionFails, Renames, ValidSaved;
    if e.TxStepped? && !a.shuttingDown && a.tx.state == Activating {
      WalksBack(a, e.answers, r, now);
    } else if e.TxStepped? && !a.shuttingDown {
      PromotesBack(a, e.answers, r);
    }
  }

  lemma WalksBack(a: App, e: Answers, r: Rules, now: Tick)
    requires a.tx.state == Activating
    ensures var b := StepWalk(a, e, r, now);
      && (b.tx.state == RollingBack <==> PortFails(a, e, r, now)) && b.tx.state != Failed
      && (b.tx.state == RollingBack ==>
            !b.tx.waiting && b.tx.index == if a.tx.candidate.ports == a.tx.previous.ports then 8 else 0)
      && (b.tx.state == RollingBack && e.unlink ==> b.files.staged.None?)
      && b.tx.candidate == a.tx.candidate && b.tx.previous == a.tx.previous
  {
    hide Control.ApplyCall, Terminal, Transient;
  }

  lemma PromotesBack(a: App, e: Answers, r: Rules)
    requires a.tx.state == Promoting
    ensures var b := StepPromoting(a, e, r);
      && (b.tx.state == RollingBack <==> PromotionFails(a, e, r)) && b.tx.state != Failed
      && (b.tx.state == RollingBack ==>
            !b.tx.waiting && b.tx.index == if a.tx.candidate.ports == a.tx.previous.ports then 8 else 0)
      && (b.tx.state == RollingBack && e.unlink ==> b.files.staged.None?)
      && b.tx.candidate == a.tx.candidate && b.tx.previous == a.tx.previous
  {
    hide Promote, Select, Renames;
  }

  // ------------------------------------------------------------- how far it got

  /** How far a candidate has got: two stages for each port, then the promotion. */
  function Level(a: App): nat {
    match a.tx.state
    case Activating => 2 * a.tx.index + if a.tx.waiting then 1 else 0
    case Promoting => 17
    case Succeeded => 18
    case Uncertain => 18
    case _ => 0
  }

  ghost predicate OnCourse(a: App) {
    && !a.shuttingDown && (a.tx.state == Activating || a.tx.state == Promoting)
    && (a.tx.state == Activating ==> a.tx.index <= 8 && (a.tx.waiting ==> a.tx.index < 8))
  }

  predicate Ended(a: App) { a.tx.state == Succeeded || a.tx.state == Uncertain }

  /** A step that finds the port it waits for at rest, or has none to wait for. */
  predicate Awaited(a: App, e: Event) {
    e.TxStepped? && (a.tx.state == Activating && a.tx.waiting ==>
                       a.tx.index < 8 && !Transient(a.gateway[a.tx.index]))
  }

  /** Unless there is a cause, every such step gets further, and no event goes back. */
  lemma GoesForward(a: App, e: Event, r: Rules, now: Tick)
    requires OnCourse(a) && !Cause(a, e, r, now) && !e.ShutDown?
    ensures var b := React(a, e, r, now);
      && (OnCourse(b) || Ended(b)) && Level(b) >= Level(a) + if Awaited(a, e) then 1 else 0
  {
    hide Control.ApplyCall, Promote, Select, Terminal, Transient, Renames, Last, ValidSaved;
  }

  /** What success comes to: the candidate is in force, and is what a start loads. */
  lemma SucceedsWith(a: App, e: Answers, r: Rules, now: Tick)
    requires OnCourse(a) && Ended(StepTx(a, e, r, now))
    ensures var b := StepTx(a, e, r, now);
      && a.tx.state == Promoting && b.selected == a.tx.candidate
      && (b.tx.state == Succeeded <==> Promote(a.files, e.promotion, r.codec).1 in {Ok, Unchanged})
      && (b.tx.state == Succeeded ==> b.source == FromActive)
  {
    hide Control.ApplyCall, Promote, Select, Terminal, Transient, Renames, Last;
  }

  /** No event of the history is a cause to roll back, and the application is not shut down. */
  ghost predicate Cooperative(a: App, es: seq<(Event, Tick)>, r: Rules)
    decreases |es|
  {
    es == [] || Ended(a)
    || (!es[0].0.ShutDown? && !Cause(a, es[0].0, r, es[0].1)
        && Cooperative(React(a, es[0].0, r, es[0].1), es[1..], r))
  }

  ghost function Came(a: App, es: seq<(Event, Tick)>, r: Rules): nat
    decreases |es|
  {
    if es == [] || Ended(a) then 0
    else (if Awaited(a, es[0].0) then 1 else 0) + Came(React(a, es[0].0, r, es[0].1), es[1..], r)
  }

  /**
   * A candidate that no port refuses and whose promotion does not fail succeeds
   * after at most 18 steps that find the port they wait for at rest, whatever comes
   * between them.
   */
  lemma {:induction false} PlayedPart(a: App, es: seq<(Event, Tick)>, r: Rules)
    requires OnCourse(a) && Cooperative(a, es, r) && Level(a) + Came(a, es, r) >= 18
    ensures exists i | 0 <= i <= |es| :: Ended(Run(a, es[..i], r))
    decreases |es|
  {
    hide OnCourse, React, Cause, Level, Awaited, Ended;
    OnCourseIsOpen(a);
    assert es != [];
    var (e, now) := es[0];
    var b := React(a, e, r, now);
    GoesForward(a, e, r, now);
    assert es[..1][1..] == [] && Run(a, es[..1], r) == b;
    if !Ended(b) {
      PlayedPart(b, es[1..], r);
      var i :| 0 <= i <= |es[1..]| && Ended(Run(b, es[1..][..i], r));
      assert es[..i + 1][1..] == es[1..][..i];
      assert Run(a, es[..i + 1], r) == Run(b, es[1..][..i], r);
    }
  }

  lemma OnCourseIsOpen(a: App)
    requires OnCourse(a)
    ensures Level(a) < 18 && !Ended(a)
  {
  }

  /** A request that is taken up starts such a history. */
  lemma TakenUpIsOnCourse(a: App, c: Saved, e: Answers, r: Rules)
    requires !a.shuttingDown && !Underway(a.tx.state)
    ensures var b := React(a, Requested(c, e), r, 0);
            Underway(b.tx.state) <==>
              ValidSaved(c, r) && SameUarts(c, a.selected) && c != a.selected
              && StageResult(Literal(c, a.selected), e.writing, r.codec) == Ok
    ensures var b := React(a, Requested(c, e), r, 0);
            Underway(b.tx.state) ==>
              OnCourse(b) && b.tx.candidate == Literal(c, a.selected) && b.tx.previous == a.selected
              && b.selected == a.selected
  {
    hide ValidSaved, SameUarts, Literal, StagePoints, Last;
  }

  // ------------------------------------------------------------- rolling back

  /** How far a rollback has got. */
  function BackLevel(a: App): nat {
    if a.tx.state == RollingBack then 2 * a.tx.index + (if a.tx.waiting then 1 else 0) else 17
  }

  ghost predicate GoingBack(a: App) {
    !a.shuttingDown && a.tx.state == RollingBack && a.tx.index <= 8 && (a.tx.waiting ==> a.tx.index < 8)
  }

  /** Every step of a rollback that does not wait for a port in motion gets further; in the end the old is in force. */
  lemma GoesBack(a: App, e: Event, r: Rules, now: Tick)
    requires GoingBack(a) && !e.ShutDown?
    ensures var b := React(a, e, r, now);
      && (GoingBack(b) || (b.tx.state == Failed && b.tx.walked && b.selected == a.tx.previous))
      && BackLevel(b) >= BackLevel(a)
         + (if e.TxStepped? && !(a.tx.waiting && Transient(a.gateway[a.tx.index])) then 1 else 0)
      && b.tx.previous == a.tx.previous && (b.tx.state == Failed ==> BackLevel(a) == 16)
  {
    hide Control.ApplyCall, Promote, Select, Terminal, Transient, Renames, Last, ValidSaved;
  }

  /** The candidate is what was asked for, but an address that differs from the one in force is meant literally. */
  lemma LiteralMeans(c: Saved, s: Saved)
    ensures var n := Literal(c, s);
      && n.schema == c.schema && n.settings == c.settings
      && forall i | 0 <= i < 8 ::
           n.ports[i].(bindPolicy := c.ports[i].bindPolicy) == c.ports[i]
           && n.ports[i].bindPolicy == if c.ports[i].bind == s.ports[i].bind then c.ports[i].bindPolicy else 1
  {
  }
}
