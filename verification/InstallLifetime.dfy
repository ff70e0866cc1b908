/**
 * Whole lives of one installer transaction: a run, then any number of
 * recoveries, each of which may be killed or cut short by a power loss at any
 * moment, and edits by others: of the payload while no cutover marker exists,
 * and of anything once the transaction has ended.
 */
module InstallLifetime {
  import opened Base
  import opened InstallJournal
  import opened InstallDisk
  import opened InstallTransaction

  /** What a reader learns from the invariant, whatever the moment. */
  lemma SafeMeans(t: Txn, d: Disk)
    requires t.Valid() && t.Safe(d)
    ensures !(t.Marked(d, CompletedEntry) && t.Marked(d, RolledBackEntry))
    ensures t.Marked(d, CompletedEntry) ==> t.AllAfter(d)
    ensures t.Marked(d, RolledBackEntry) && (t.Marked(d, CutoverEntry) || !t.edits) ==> t.AllBefore(d)
    ensures !t.edits && !t.Before(d, false) ==> t.After(d, true)
  {
    MarkRead(t, d, CutoverEntry);
  }

  ghost predicate Settling(t: Txn, r: Option<Result>, d: Disk) {
    && (r == Some(Completed) ==> t.Poss(d, CompletedEntry) == {t.mark})
    && (r == Some(RolledBack) ==> t.Poss(d, RolledBackEntry) == {t.mark})
  }

  ghost predicate SettlingAll(t: Txn, results: seq<Option<Result>>, d: Disk) {
    forall r | r in results :: Settling(t, r, d)
  }

  /** What was true of the disk in this respect still is. */
  ghost predicate KeptBy(t: Txn, d: Disk, d': Disk) {
    (t.Safe(d) ==> t.Safe(d')) && (t.Closed(d) ==> t.Closed(d'))
  }

  lemma RecoveryPersists(t: Txn, results: seq<Option<Result>>, d0: Disk, d: Disk)
    requires t.Valid() && Kept(t, d0) && t.Recovering(d0, d) && SettlingAll(t, results, d0)
    ensures KeptBy(t, d0, d) && SettlingAll(t, results, d)
  {
    assert KeptBy(t, d0, d) by { hide Txn.Safe, Txn.Closed; }
    SafeHasEntries(t, d);
    hide Txn.Safe, Txn.Closed, Txn.PayloadSame;
    forall r | r in results ensures Settling(t, r, d) {
      assert Settling(t, r, d0);
      assert At(d, t.Here(CompletedEntry)).now in t.Poss(d, CompletedEntry);
      assert At(d, t.Here(RolledBackEntry)).now in t.Poss(d, RolledBackEntry);
    }
  }

  lemma PowerLossPersists(t: Txn, results: seq<Option<Result>>, d: Disk, d': Disk)
    requires t.Valid() && Kept(t, d) && PowerLoss(d, d') && SettlingAll(t, results, d)
    ensures KeptBy(t, d, d') && SettlingAll(t, results, d')
  {
    if t.Safe(d) {
      SafeSurvivesPowerLoss(t, d, d');
    }
    if t.Closed(d) {
      ClosedSurvivesPowerLoss(t, d, d');
    }
    hide Txn.Safe, Txn.Closed;
    forall r | r in results ensures Settling(t, r, d') {
      assert Settling(t, r, d);
    }
  }

  /** An operator or application edits a payload member before any cutover. */
  lemma EditKeeps(t: Txn, results: seq<Option<Result>>, d: Disk, i: nat, f: File, d': Disk)
    requires t.Valid() && t.edits && t.Safe(d) && SettlingAll(t, results, d)
    requires i < |t.plan.members| && !t.plan.members[i].Gate() && !t.Marked(d, CutoverEntry)
    requires d' == d[Root(t.plan.members[i].path) := Cell(f, {f})]
    ensures t.Safe(d') && SettlingAll(t, results, d')
  {
    EditIsSafe(t, d, i, f, d');
    hide Txn.Safe, At;
    forall r | r in results ensures Settling(t, r, d') {
      assert Settling(t, r, d);
    }
  }

  lemma EditIsLocal(t: Txn, d: Disk, l: Loc, f: File, d': Disk)
    requires Coherent(d) && l.Root? && d' == d[l := Cell(f, {f})]
    ensures Coherent(d') && forall e :: At(d', t.Here(e)) == At(d, t.Here(e))
  {
    assert forall x | x != l :: At(d', x) == At(d, x);
  }

  /** Once the transaction has ended, any file of the installed set may be changed. */
  lemma LateEditKeeps(t: Txn, results: seq<Option<Result>>, d: Disk, path: Path, f: File, d': Disk)
    requires t.Valid() && t.Closed(d) && SettlingAll(t, results, d) && d' == d[Root(path) := Cell(f, {f})]
    ensures t.Closed(d') && SettlingAll(t, results, d')
  {
    EditIsLocal(t, d, Root(path), f, d');
    hide At, Coherent;
    forall r | r in results ensures Settling(t, r, d') {
      assert Settling(t, r, d);
    }
  }

  /** A terminal result means that the transaction has ended for good. */
  lemma EndsForGood(t: Txn, results: seq<Option<Result>>, d: Disk)
    requires t.Valid() && Kept(t, d) && SettlingAll(t, results, d)
    requires Some(Completed) in results || Some(RolledBack) in results
    ensures t.Closed(d)
  {
    assert Settling(t, if Some(Completed) in results then Some(Completed) else Some(RolledBack), d);
    MarkerCloses(t, d);
    hide Txn.Safe, Txn.Closed;
  }

  ghost predicate AllKeptBy(t: Txn, d: Disk, ds: seq<Disk>) {
    forall x | x in ds :: KeptBy(t, d, x)
  }

  ghost predicate AllSafe(t: Txn, ds: seq<Disk>) {
    forall d | d in ds :: t.Safe(d)
  }

  ghost predicate AllClosed(t: Txn, ds: seq<Disk>) {
    forall d | d in ds :: t.Closed(d)
  }

  /** The context in which the slot's journal is this transaction's. */
  ghost predicate Journalled(t: Txn, h: Hash, allow: AllowPath, slot: bool) {
    && t.Valid() && t.slot == slot && Encodable(t.plan) && Admissible(allow, t.plan)
    && t.journal == JournalFile(h, t.plan) && t.mark == MarkFile(h, t.journal)
  }

  /** A call that went through the states of `trail`, cut short at one of them. */
  method CutShort(trail: seq<Disk>, power: bool, ghost t: Txn, ghost d: Disk, ghost results: seq<Option<Result>>)
    returns (d': Disk)
    requires t.Valid() && Kept(t, d) && |trail| > 0
    requires forall k | 0 <= k < |trail| :: KeptBy(t, d, trail[k]) && SettlingAll(t, results, trail[k])
    ensures KeptBy(t, d, d') && SettlingAll(t, results, d')
    ensures !power ==> d' in trail
  {
    hide Txn.Safe, Txn.Closed, PowerLoss, SettlingAll;
    var k: nat :| k < |trail|;
    d' := trail[k];
    if power {
      SafeHasEntries(t, trail[k]);
      assert Coherent(trail[k]);
      d' := LosePower(trail[k]);
      PowerLossPersists(t, results, trail[k], d');
    }
  }

  lemma SettlingMore(t: Txn, results: seq<Option<Result>>, r: Option<Result>, d: Disk)
    requires SettlingAll(t, results, d) && Settling(t, r, d)
    ensures SettlingAll(t, results + [r], d)
  {
    hide Settling;
  }

  /**
   * One recovery, cut short or not: it may be killed, or the power may fail, at
   * any state it passed through, the first and the last included.
   */
  method RecoverOnce(h: Hash, allow: AllowPath, slot: bool, d: Disk, cut: Cut,
                     ghost t: Txn, ghost results: seq<Option<Result>>)
    returns (r: Option<Result>, d': Disk, seen: seq<Disk>)
    requires Journalled(t, h, allow, slot)
    requires Kept(t, d) && SettlingAll(t, results, d)
    ensures KeptBy(t, d, d') && SettlingAll(t, results + [r], d') && AllKeptBy(t, d, seen) && d' in seen
    ensures Some(Completed) in results ==> r in {None, Some(Completed), Some(RecoveryRequired)}
    ensures Some(RolledBack) in results ==> r in {None, Some(RolledBack), Some(RecoveryRequired), Some(Unchanged)}
    ensures r == Some(RolledBack) ==> Some(Completed) !in results
  {
    hide Txn.Safe, Txn.Closed, Txn.Recovering, Txn.Before, Txn.After, Txn.Poss, PowerLoss, Encodable, At, JournalFile,
         MarkFile, SettlingAll, KeptBy;
    var m := new Installer(h, allow, slot, d, Anything);
    var result := m.Recover(t);
    assert forall k | 0 < k < |m.trail| :: t.Recovering(d, m.trail[k]);
    RecoveringSelf(t, d);
    forall k | 0 <= k < |m.trail| ensures KeptBy(t, d, m.trail[k]) && SettlingAll(t, results, m.trail[k]) {
      RecoveryPersists(t, results, d, m.trail[k]);
    }
    RecoveryPersists(t, results, d, m.disk);
    if cut != Returns {
      d' := CutShort(m.trail, cut == PowerLost, t, d, results);
      r := None;
    } else {
      r, d' := Some(result), m.disk;
      ResultExcludes(t, results, d);
      if t.Marked(d, CompletedEntry) {
        CompletedHasJournal(t, d, results);
      }
    }
    assert Settling(t, r, d');
    SettlingMore(t, results, r, d');
    seen := m.trail + [d'];
  }

  lemma ResultExcludes(t: Txn, results: seq<Option<Result>>, d: Disk)
    requires SettlingAll(t, results, d)
    ensures Some(Completed) in results ==> t.Marked(d, CompletedEntry)
    ensures Some(RolledBack) in results ==> t.Marked(d, RolledBackEntry)
  {
    assert Some(Completed) in results ==> Settling(t, Some(Completed), d);
    assert Some(RolledBack) in results ==> Settling(t, Some(RolledBack), d);
  }

  lemma CompletedHasJournal(t: Txn, d: Disk, results: seq<Option<Result>>)
    requires t.Valid() && Kept(t, d) && t.Marked(d, CompletedEntry)
    ensures At(d, t.Here(JournalEntry)).now == t.journal
  {
    SafeHasEntries(t, d);
    JournalRead(t, d);
    assert At(d, t.Here(JournalEntry)).now in t.Poss(d, JournalEntry);
    assert At(d, t.Here(RolledBackEntry)).now in t.Poss(d, RolledBackEntry);
  }

  /** The run itself, cut short at any state after its first write or not at all. */
  method RunOnce(h: Hash, allow: AllowPath, slot: bool, p: Plan, d: Disk, cut: Cut, ghost t: Txn)
    returns (r: Option<Result>, d': Disk, seen: seq<Disk>)
    requires Built(p) && t == RunTxn(h, slot, p, t.edits) && FreshSlot(slot, p, d)
    ensures r == Some(Refused) || r == Some(Unchanged) ==> d' == d && seen == []
    ensures r != Some(Refused) && r != Some(Unchanged) ==>
      && Journalled(t, h, allow, slot)
      && t.Safe(d') && SettlingAll(t, [r], d') && AllSafe(t, seen) && d' in seen
  {
    hide Txn.Safe, Txn.Closed, Txn.Running, PowerLoss, Encodable, Startable, Pointless, Txn.NeedsCf, Txn.RestBefore,
         Txn.Pointed;
    var m := new Installer(h, allow, slot, d, Anything);
    var result := m.Run(p, t);
    r, d', seen := Some(result), m.disk, [];
    if result == Refused || result == Unchanged {
      return;
    }
    assert forall i | 0 <= i < |p.members| :: p.members[i] in p.members;
    RunningIsSafe(t, d, m.disk);
    forall k | 1 <= k < |m.trail| ensures t.Safe(m.trail[k]) {
      RunningIsSafe(t, d, m.trail[k]);
    }
    if cut != Returns && |m.trail| > 1 {
      var k: nat :| 1 <= k < |m.trail|;
      r, d' := None, m.trail[k];
      if cut == PowerLost {
        SafeHasEntries(t, m.trail[k]);
        assert Coherent(m.trail[k]);
        d' := LosePower(m.trail[k]);
        PowerLossPersists(t, [], m.trail[k], d');
      }
    }
    seen := m.trail[1..] + [d'];
  }

  datatype Event = Recovery(cut: Cut) | Edit(member: nat, image: File) | LateEdit(path: Path, image: File)

  ghost predicate Legal(t: Txn, e: Event) {
    e.Edit? ==> t.edits && e.member < |t.plan.members| && !t.plan.members[e.member].Gate()
  }

  /** An early edit takes place only while no cutover marker exists. */
  method EditOnce(p: Plan, d: Disk, i: nat, f: File, cutover: Loc, ghost t: Txn, ghost results: seq<Option<Result>>)
    returns (d': Disk)
    requires t.Valid() && t.plan == p && cutover == t.Here(CutoverEntry) && Legal(t, Edit(i, f))
    requires t.Safe(d) && SettlingAll(t, results, d)
    ensures t.Safe(d') && SettlingAll(t, results + [None], d')
  {
    SafeHasEntries(t, d);
    MarkRead(t, d, CutoverEntry);
    d' := d;
    if At(d, cutover).now.kind == 0 {
      d' := d[Root(p.members[i].path) := Cell(f, {f})];
      EditKeeps(t, results, d, i, f, d');
    }
  }

  /** What holds on the way: `late` says that files were changed after the end. */
  ghost predicate OnTheWay(t: Txn, d: Disk, results: seq<Option<Result>>, seen: seq<Disk>, late: seq<Disk>) {
    && (if late == [] then t.Safe(d) else t.Closed(d))
    && SettlingAll(t, results, d) && AllSafe(t, seen) && AllClosed(t, late)
  }

  /** One event of a life. */
  method Live(h: Hash, allow: AllowPath, slot: bool, p: Plan, d: Disk, e: Event, results: seq<Option<Result>>,
              seen: seq<Disk>, late: seq<Disk>, ghost t: Txn)
    returns (r: Option<Result>, d': Disk, seen': seq<Disk>, late': seq<Disk>)
    requires Journalled(t, h, allow, slot) && t.plan == p && Legal(t, e) && OnTheWay(t, d, results, seen, late)
    ensures OnTheWay(t, d', results + [r], seen', late') && (late != [] ==> late' != [])
    ensures !e.LateEdit? ==> (late' != [] <==> late != [])
    ensures Some(Completed) in results ==> r in {None, Some(Completed), Some(RecoveryRequired)}
    ensures Some(RolledBack) in results ==> r in {None, Some(RolledBack), Some(RecoveryRequired), Some(Unchanged)}
    ensures r == Some(RolledBack) ==> Some(Completed) !in results
  {
    hide Txn.Safe, Txn.Closed, Encodable, JournalFile, MarkFile, Txn.Valid, SettlingAll;
    r, d', seen', late' := None, d, seen, late;
    match e {
      case Recovery(cut) =>
        var states;
        r, d', states := RecoverOnce(h, allow, slot, d, cut, t, results);
        if late == [] {
          seen' := seen + states;
        } else {
          late' := late + states;
        }
      case Edit(i, f) =>
        if late == [] {
          d' := EditOnce(p, d, i, f, Slot(slot, CutoverEntry), t, results);
          seen' := seen + [d'];
        } else {
          SettlingMore(t, results, None, d);
        }
      case LateEdit(path, f) =>
        if Some(Completed) in results || Some(RolledBack) in results {
          EndsForGood(t, results, d);
          d' := d[Root(path) := Cell(f, {f})];
          LateEditKeeps(t, results, d, path, f, d');
          late' := late + [d'];
        }
        SettlingMore(t, results, None, d');
    }
  }

  /** What one call says the others say too: completed stays completed, rolled back stays rolled back. */
  ghost predicate Consistent(results: seq<Option<Result>>) {
    && !(Some(Completed) in results && Some(RolledBack) in results)
    && (forall i, j | 0 <= i < j < |results| && results[i] == Some(Completed) ::
          results[j] in {None, Some(Completed), Some(RecoveryRequired)})
    && (forall i, j | 0 <= i < j < |results| && results[i] == Some(RolledBack) ::
          results[j] in {None, Some(RolledBack), Some(RecoveryRequired), Some(Unchanged)})
  }

  lemma ConsistentMore(results: seq<Option<Result>>, r: Option<Result>)
    requires Consistent(results) && (r == Some(RolledBack) ==> Some(Completed) !in results)
    requires Some(Completed) in results ==> r in {None, Some(Completed), Some(RecoveryRequired)}
    requires Some(RolledBack) in results ==> r in {None, Some(RolledBack), Some(RecoveryRequired), Some(Unchanged)}
    ensures Consistent(results + [r])
  {
  }

  lemma WayStarts(t: Txn, d: Disk, r: Option<Result>, seen: seq<Disk>)
    requires t.Safe(d) && SettlingAll(t, [r], d) && AllSafe(t, seen)
    ensures OnTheWay(t, d, [r], seen, []) && Consistent([r])
  {
    hide Txn.Safe;
  }

  /**
   * Every life of a transaction: the run, then `events`. `seen` holds every disk
   * state of every call and after every power loss up to the first edit that came
   * after the end, `late` those from there on; `results` has None for a call that
   * was cut short and for an edit.
   */
  method Lifetime(h: Hash, allow: AllowPath, slot: bool, p: Plan, d0: Disk, cutRun: Cut, events: seq<Event>,
                  ghost t: Txn)
    returns (results: seq<Option<Result>>, final: Disk, seen: seq<Disk>, late: seq<Disk>)
    requires Built(p) && t == RunTxn(h, slot, p, t.edits) && FreshSlot(slot, p, d0)
    requires forall e | e in events :: Legal(t, e)
    ensures |results| >= 1
    ensures results[0] == Some(Refused) || results[0] == Some(Unchanged) ==> final == d0 && |results| == 1
    ensures results[0] != Some(Refused) && results[0] != Some(Unchanged) ==>
      && |results| == 1 + |events|
      && (late == [] && Some(Completed) in results ==> t.AllAfter(final))
      && (late == [] && Some(RolledBack) in results ==> t.Before(final, true) && (!t.edits ==> t.AllBefore(final)))
      && ((forall e | e in events :: !e.LateEdit?) ==> late == [])
      && Consistent(results)
      && (forall d | d in seen || d in late || d == final ::
            !(t.Marked(d, CompletedEntry) && t.Marked(d, RolledBackEntry)))
      && (forall d | d in seen :: !t.edits && !t.Before(d, false) ==> t.After(d, true))
  {
    hide Txn.Safe, Txn.Closed, Encodable, FreshSlot, Txn.Valid, OnTheWay, Consistent, Txn.Before, Txn.After, Txn.Marked;
    var r;
    r, final, seen := RunOnce(h, allow, slot, p, d0, cutRun, t);
    results, late := [r], [];
    if r == Some(Refused) || r == Some(Unchanged) {
      return;
    }
    WayStarts(t, final, r, seen);
    for n := 0 to |events|
      invariant |results| == 1 + n && results[0] == r
      invariant OnTheWay(t, final, results, seen, late)
      invariant (forall e | e in events :: !e.LateEdit?) ==> late == []
      invariant Consistent(results)
    {
      assert events[n] in events;
      var next;
      next, final, seen, late := Live(h, allow, slot, p, final, events[n], results, seen, late, t);
      ConsistentMore(results, next);
      results := results + [next];
    }
    WayEnds(t, final, results, seen, late);
  }

  lemma WayEnds(t: Txn, final: Disk, results: seq<Option<Result>>, seen: seq<Disk>, late: seq<Disk>)
    requires t.Valid() && OnTheWay(t, final, results, seen, late)
    ensures late == [] && Some(Completed) in results ==> t.AllAfter(final)
    ensures late == [] && Some(RolledBack) in results ==> t.Before(final, true) && (!t.edits ==> t.AllBefore(final))
    ensures forall d | d in seen || d in late || d == final ::
              !(t.Marked(d, CompletedEntry) && t.Marked(d, RolledBackEntry))
    ensures forall d | d in seen :: !t.edits && !t.Before(d, false) ==> t.After(d, true)
  {
    hide Txn.Safe, Txn.Closed, Txn.Marked, Txn.Before, Txn.After;
    ResultExcludes(t, results, final);
    forall d | d in seen || d in late || d == final
      ensures !(t.Marked(d, CompletedEntry) && t.Marked(d, RolledBackEntry))
      ensures d in seen ==> !t.edits && !t.Before(d, false) ==> t.After(d, true)
    {
      TerminalOnce(t, d);
      if d in seen {
        SafeMeans(t, d);
      }
    }
    if late == [] {
      SafeMeans(t, final);
      GatesAfterRollback(t, final);
    }
  }

  lemma GatesAfterRollback(t: Txn, d: Disk)
    requires t.Safe(d)
    ensures t.Marked(d, RolledBackEntry) ==> t.Before(d, true)
  {
  }
}
