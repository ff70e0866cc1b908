/**
 * Two slots and the file `active` that names one of them: how the orchestrator
 * picks a slot, what it empties before a new transaction, and what `active`
 * names whenever the power fails.
 */
module InstallRotation {
  import opened Base
  import opened InstallJournal
  import opened InstallDisk
  import opened InstallTransaction

  /** A slot holds a decodable journal that no power loss takes away. */
  ghost predicate Holds(h: Hash, allow: AllowPath, d: Disk, s: bool) {
    var l := Slot(s, JournalEntry);
    Durable(d, l) && Decode(h, allow, At(d, l).now).Some?
  }

  ghost predicate MayName(d: Disk, s: bool) { SlotName(s) in At(d, Active).poss }

  /** Whatever `active` may say after a power loss, the slot it names holds a decodable journal. */
  ghost predicate Named(h: Hash, allow: AllowPath, d: Disk) {
    && (forall f | f in At(d, Active).poss :: f == ABSENT || f == SlotName(false) || f == SlotName(true))
    && forall s :: MayName(d, s) ==> Holds(h, allow, d, s)
  }

  // ------------------------------------------------------------------ retirement

  /** The slot's entries, in the order they are removed. */
  function Removal(k: nat): Entry {
    if k == 0 then JournalEntry else if k == 1 then CutoverEntry else if k == 2 then RolledBackEntry else CompletedEntry
  }

  /** What emptying a slot may have done so far: the journal goes first, and durably, before any marker. */
  ghost predicate Emptying(d0: Disk, d: Disk, s: bool) {
    && Coherent(d)
    && (forall l | At(d, l) != At(d0, l) :: l.Slot? && l.slot == s)
    && (forall e :: At(d, Slot(s, e)).poss <= At(d0, Slot(s, e)).poss + {ABSENT})
    && (forall e | e != JournalEntry && At(d, Slot(s, e)) != At(d0, Slot(s, e)) ::
        At(d, Slot(s, JournalEntry)).poss == {ABSENT})
  }

  /** The slot may be given up: no journal, a terminal marker of it, or nothing changed since it was planned. */
  ghost predicate Disposable(h: Hash, allow: AllowPath, d: Disk, s: bool) {
    var j := At(d, Slot(s, JournalEntry)).now;
    j.kind == 0 ||
    (Decode(h, allow, j).Some? &&
     (Mine(h, d, s, CompletedEntry, j) || Mine(h, d, s, RolledBackEntry, j)
      || var p := Decode(h, allow, j).value;
         forall i | 0 <= i < |p.members| :: At(d, Root(p.members[i].path)).now == p.members[i].before))
  }

  /** A marker of the journal `j`. */
  ghost predicate Mine(h: Hash, d: Disk, s: bool, e: Entry, j: File) {
    At(d, Slot(s, e)).now.kind == REGULAR && At(d, Slot(s, e)).now.data == Digest(h, j.data)
  }

  /** A journal that cannot be decoded, a terminal marker of another one, or two markers. */
  ghost predicate Muddled(h: Hash, allow: AllowPath, d: Disk, s: bool) {
    var j := At(d, Slot(s, JournalEntry)).now;
    j.kind != 0 &&
    (Decode(h, allow, j).None?
     || (At(d, Slot(s, CompletedEntry)).now.kind != 0 && !Mine(h, d, s, CompletedEntry, j))
     || (At(d, Slot(s, RolledBackEntry)).now.kind != 0 && !Mine(h, d, s, RolledBackEntry, j))
     || (Mine(h, d, s, CompletedEntry, j) && Mine(h, d, s, RolledBackEntry, j)))
  }

  /** `install_transaction_status`: what the slot says, unless it is muddled or cannot be read. */
  method Status(m: Installer) returns (r: Result)
    ensures r == Unchanged ==> At(m.disk, Slot(m.slot, JournalEntry)).now.kind == 0
    ensures r != Unchanged && r != RecoveryRequired ==>
              At(m.disk, Slot(m.slot, JournalEntry)).now.kind != 0 && !Muddled(m.h, m.allow, m.disk, m.slot)
    ensures r == Completed || r == RolledBack ==>
              var e := if r == Completed then CompletedEntry else RolledBackEntry;
              Mine(m.h, m.disk, m.slot, e, At(m.disk, Slot(m.slot, JournalEntry)).now)
    ensures r == WaitCf ==> At(m.disk, Slot(m.slot, CompletedEntry)).now.kind == 0
                            && At(m.disk, Slot(m.slot, RolledBackEntry)).now.kind == 0
    ensures r == RecoveryRequired ==> m.luck == Anything || Muddled(m.h, m.allow, m.disk, m.slot)
    ensures r == Unchanged || r == RecoveryRequired || r == Completed || r == RolledBack || r == WaitCf
  {
    hide Decode, At;
    var j := m.Read(Slot(m.slot, JournalEntry));
    if j.None? {
      return RecoveryRequired;
    }
    if j.value.kind == 0 {
      return Unchanged;
    }
    var p := DecodeJournal(m.h, m.allow, j.value);
    if p.None? {
      return RecoveryRequired;
    }
    var a := m.ReadMark(CompletedEntry, j.value);
    var b := m.ReadMark(RolledBackEntry, j.value);
    if a < 0 || b < 0 || (a == 1 && b == 1) {
      return RecoveryRequired;
    }
    r := if a == 1 then Completed else if b == 1 then RolledBack else WaitCf;
  }

  lemma EmptyingStep(d0: Disk, d: Disk, d': Disk, s: bool, k: nat, ok: bool)
    requires Emptying(d0, d, s) && k < 4 && Published(d, Slot(s, Removal(k)), ABSENT, ok, d')
    requires k > 0 ==> At(d, Slot(s, JournalEntry)) == Cell(ABSENT, {ABSENT})
    ensures Emptying(d0, d', s)
    ensures ok ==> At(d', Slot(s, Removal(k))) == Cell(ABSENT, {ABSENT})
    ensures forall e | e != Removal(k) :: At(d', Slot(s, e)) == At(d, Slot(s, e))
  {
    assert forall l | l != Slot(s, Removal(k)) :: At(d', l) == At(d, l);
  }

  lemma EmptyingSelf(d: Disk, s: bool)
    requires Coherent(d)
    ensures Emptying(d, d, s)
  {
  }

  /** An unfinished transaction: only while every file still reads as its before-image. */
  method Unstarted(m: Installer) returns (ok: bool)
    modifies m`compared
    requires Decode(m.h, m.allow, At(m.disk, Slot(m.slot, JournalEntry)).now).Some?
    ensures ok ==> var p := Decode(m.h, m.allow, At(m.disk, Slot(m.slot, JournalEntry)).now).value;
                   forall i | 0 <= i < |p.members| :: At(m.disk, Root(p.members[i].path)).now == p.members[i].before
    ensures var p := Decode(m.h, m.allow, At(m.disk, Slot(m.slot, JournalEntry)).now).value;
            m.luck != Anything && m.Reads(p, false, false) ==> ok
  {
    hide Decode, At;
    var j := m.Read(Slot(m.slot, JournalEntry));
    if j.None? {
      return false;
    }
    var p := DecodeJournal(m.h, m.allow, j.value);
    ok := m.Matches(p.value, false, false);
  }

  /**
   * `retire_slot`: nothing is removed unless the slot is disposable, the journal
   * goes before its markers, and success leaves the slot durably empty.
   */
  method RetireSlot(m: Installer) returns (ok: bool)
    requires Coherent(m.disk)
    modifies m`disk, m`trail, m`compared
    ensures old(m.trail) <= m.trail
    ensures Emptying(old(m.disk), m.disk, m.slot)
    ensures forall k | |old(m.trail)| <= k < |m.trail| :: Emptying(old(m.disk), m.trail[k], m.slot)
    ensures ok ==> forall e :: At(m.disk, Slot(m.slot, e)) == Cell(ABSENT, {ABSENT})
    ensures ok || m.disk != old(m.disk) ==> Disposable(m.h, m.allow, old(m.disk), m.slot)
    ensures var d := old(m.disk);
            m.luck.Writes() && Disposable(m.h, m.allow, d, m.slot) && !Muddled(m.h, m.allow, d, m.slot) ==> ok
  {
    hide Decode, At, Published, Emptying;
    ghost var d0 := m.disk;
    EmptyingSelf(d0, m.slot);
    var r := Status(m);
    var inventory := m.Ask();
    if r == RecoveryRequired || !inventory {
      return false;
    }
    if r == WaitCf {
      var unstarted := Unstarted(m);
      if !unstarted {
        return false;
      }
    }
    for k := 0 to 4
      invariant old(m.trail) <= m.trail && Emptying(d0, m.disk, m.slot)
      invariant forall i | |old(m.trail)| <= i < |m.trail| :: Emptying(d0, m.trail[i], m.slot)
      invariant forall i | 0 <= i < k :: At(m.disk, Slot(m.slot, Removal(i))) == Cell(ABSENT, {ABSENT})
    {
      ghost var d := m.disk;
      assert k > 0 ==> Removal(0) == JournalEntry;
      var done := m.Publish(Slot(m.slot, Removal(k)), ABSENT);
      EmptyingStep(d0, d, m.disk, m.slot, k, done);
      if !done {
        return false;
      }
    }
    forall e ensures At(m.disk, Slot(m.slot, e)) == Cell(ABSENT, {ABSENT}) {
      EveryEntry(e);
    }
    ok := true;
  }

  lemma EveryEntry(e: Entry)
    ensures exists i: nat | i < 4 :: Removal(i) == e
  {
    assert Removal(0) == JournalEntry && Removal(1) == CutoverEntry;
    assert Removal(2) == RolledBackEntry && Removal(3) == CompletedEntry;
  }

  /** An interrupted retirement leaves the whole old transaction or none of it. */
  lemma WholeOrNone(d0: Disk, d: Disk, s: bool, d': Disk)
    requires Emptying(d0, d, s) && PowerLoss(d, d')
    ensures At(d', Slot(s, JournalEntry)).now == ABSENT || forall e :: At(d', Slot(s, e)).now in At(d0, Slot(s, e)).poss
  {
    hide At;
    if At(d', Slot(s, JournalEntry)).now != ABSENT {
      forall e ensures At(d', Slot(s, e)).now in At(d0, Slot(s, e)).poss {
        assert At(d', Slot(s, e)).now in At(d, Slot(s, e)).poss;
      }
    }
  }

  /** A retired slot is one a new transaction can start in. */
  lemma RetiredIsFresh(s: bool, p: Plan, d: Disk)
    requires Coherent(d) && forall e :: At(d, Slot(s, e)) == Cell(ABSENT, {ABSENT})
    requires forall i | 0 <= i < |p.members| :: Durable(d, Root(p.members[i].path))
    ensures FreshSlot(s, p, d)
  {
    hide At, Coherent;
  }

  // ------------------------------------------------------------ what is named

  lemma NamesDiffer()
    ensures SlotName(false) != SlotName(true) && SlotName(false) != ABSENT && SlotName(true) != ABSENT
  {
    assert SlotName(false).data[4] != SlotName(true).data[4];
  }

  /** Journals and `active` as they were: what is named still is. */
  lemma NamedStays(h: Hash, allow: AllowPath, d: Disk, d': Disk)
    requires Named(h, allow, d) && At(d', Active) == At(d, Active)
    requires forall s | MayName(d, s) :: At(d', Slot(s, JournalEntry)) == At(d, Slot(s, JournalEntry))
    ensures Named(h, allow, d')
  {
    hide Decode, SlotName;
    forall s | MayName(d', s) ensures Holds(h, allow, d', s) {
      assert MayName(d, s) && Holds(h, allow, d, s);
    }
  }

  /**
   * Emptying a slot keeps `active` good exactly when no power loss could make
   * it name that slot.
   */
  lemma EmptiedNames(h: Hash, allow: AllowPath, d0: Disk, d: Disk, s: bool)
    requires Named(h, allow, d0) && Emptying(d0, d, s)
    ensures !MayName(d0, s) ==> Named(h, allow, d)
    ensures At(d, Slot(s, JournalEntry)) == Cell(ABSENT, {ABSENT}) ==> (Named(h, allow, d) <==> !MayName(d0, s))
  {
    hide At, SlotName;
    assert At(d, Active) == At(d0, Active);
    if !MayName(d0, s) {
      NamedStays(h, allow, d0, d);
    } else if At(d, Slot(s, JournalEntry)) == Cell(ABSENT, {ABSENT}) {
      NoPlanInAbsent(h, allow);
      assert MayName(d, s) && !Holds(h, allow, d, s);
    }
  }

  lemma NoPlanInAbsent(h: Hash, allow: AllowPath)
    ensures Decode(h, allow, ABSENT).None?
  {
  }

  lemma PowerLossNames(h: Hash, allow: AllowPath, d: Disk, d': Disk)
    requires Coherent(d) && Named(h, allow, d) && PowerLoss(d, d')
    ensures Named(h, allow, d') && Coherent(d') && Durable(d', Active)
  {
    hide Decode, At, SlotName;
    forall s | MayName(d', s) ensures Holds(h, allow, d', s) {
      assert MayName(d, s) && Holds(h, allow, d, s);
      assert At(d', Slot(s, JournalEntry)).now in At(d, Slot(s, JournalEntry)).poss;
    }
  }

  /** A run switches `active` only to the slot whose journal it made durable. */
  lemma RunNames(h: Hash, allow: AllowPath, t: Txn, d0: Disk, d: Disk)
    requires Named(h, allow, d0) && Durable(d0, Active)
    requires Journal0Absent(d0, t.slot) && t.Valid() && t.Running(d0, d)
    requires t.journal == JournalFile(h, t.plan) && Encodable(t.plan) && Admissible(allow, t.plan)
    ensures Named(h, allow, d) && Coherent(d)
  {
    hide Decode, At, SlotName, Encodable, JournalFile, Published;
    RunningIsSafe(t, d0, d);
    assert !MayName(d0, t.slot) by { EmptyIsNotNamed(h, allow, d0, t.slot); }
    DecodeEncode(h, allow, t.plan);
    forall s | MayName(d, s) ensures Holds(h, allow, d, s) {
      if s == t.slot {
        assert At(d, Active) != At(d0, Active);
        JournalIsHeld(h, allow, t, d);
      } else {
        OtherJournal(t, d0, d, s);
        OnlyOneNew(t, d0, d, s);
      }
    }
    ActiveValues(h, allow, t, d0, d);
    hide Txn.Safe;
  }

  ghost predicate Journal0Absent(d: Disk, s: bool) { At(d, Slot(s, JournalEntry)).now == ABSENT }

  lemma EmptyIsNotNamed(h: Hash, allow: AllowPath, d: Disk, s: bool)
    requires Named(h, allow, d) && Journal0Absent(d, s)
    ensures !MayName(d, s)
  {
    NoPlanInAbsent(h, allow);
    hide Decode, SlotName;
  }

  lemma JournalIsHeld(h: Hash, allow: AllowPath, t: Txn, d: Disk)
    requires t.Poss(d, JournalEntry) == {t.journal} && Coherent(d) && Decode(h, allow, t.journal).Some?
    ensures Holds(h, allow, d, t.slot)
  {
    assert At(d, Slot(t.slot, JournalEntry)).now in t.Poss(d, JournalEntry);
    hide Decode, At;
  }

  lemma OtherJournal(t: Txn, d0: Disk, d: Disk, s: bool)
    requires t.Running(d0, d) && s != t.slot
    ensures At(d, Slot(s, JournalEntry)) == At(d0, Slot(s, JournalEntry))
  {
    hide Txn.Safe, At;
  }

  lemma OnlyOneNew(t: Txn, d0: Disk, d: Disk, s: bool)
    requires t.Running(d0, d) && s != t.slot && MayName(d, s)
    ensures MayName(d0, s)
  {
    NamesDiffer();
    hide Txn.Safe, At, SlotName;
  }

  lemma ActiveValues(h: Hash, allow: AllowPath, t: Txn, d0: Disk, d: Disk)
    requires Named(h, allow, d0) && t.Running(d0, d)
    ensures forall f | f in At(d, Active).poss :: f == ABSENT || f == SlotName(false) || f == SlotName(true)
  {
    hide Txn.Safe, At, SlotName, Holds;
  }

  // ----------------------------------------------------- the transaction named

  ghost predicate SlotSame(d: Disk, d': Disk, s: bool) {
    forall e :: At(d', Slot(s, e)) == At(d, Slot(s, e))
  }

  ghost predicate RootsSame(d: Disk, d': Disk) {
    forall l: Loc | l.Root? :: At(d', l) == At(d, l)
  }

  /** The transaction whose journal a slot that may be named holds can be recovered at any time, or has ended. */
  ghost predicate Led(h: Hash, allow: AllowPath, d: Disk, txns: map<bool, Txn>) {
    forall s | MayName(d, s) :: s in txns && Carried(h, allow, txns[s], s) && Kept(txns[s], d)
  }

  ghost predicate Carried(h: Hash, allow: AllowPath, t: Txn, s: bool) {
    && t.Valid() && t.slot == s && Encodable(t.plan) && Admissible(allow, t.plan) && t.edits
    && t.journal == JournalFile(h, t.plan) && t.mark == MarkFile(h, t.journal)
  }

  /** The file is one the transaction may have left undecided: a gate, or a member once it may be cut over. */
  ghost predicate Owes(t: Txn, d: Disk, l: Loc) {
    t.Safe(d) && exists i | 0 <= i < |t.plan.members| ::
      l == Root(t.plan.members[i].path) && (t.plan.members[i].Gate() || t.Marked(d, CutoverEntry))
  }

  ghost predicate Owed(d: Disk, txns: map<bool, Txn>, l: Loc) {
    exists s | s in txns :: MayName(d, s) && Owes(txns[s], d, l)
  }

  /** With `active` decided, only the transaction it names has left files undecided. */
  ghost predicate Traced(d: Disk, txns: map<bool, Txn>) {
    Durable(d, Active) ==> forall l: Loc | l.Root? :: Durable(d, l) || Owed(d, txns, l)
  }

  /** Everything the orchestrator relies on. */
  ghost predicate Sound(h: Hash, allow: AllowPath, d: Disk, txns: map<bool, Txn>) {
    Coherent(d) && Named(h, allow, d) && Led(h, allow, d, txns) && Traced(d, txns)
  }

  /** Nothing a power loss could undo about `active` and the installed set. */
  ghost predicate Steady(d: Disk) {
    Durable(d, Active) && forall l: Loc | l.Root? :: Durable(d, l)
  }

  lemma SteadyIsTraced(d: Disk, txns: map<bool, Txn>)
    requires Steady(d)
    ensures Traced(d, txns)
  {
    hide Owed;
  }

  lemma PowerLossIsSound(h: Hash, allow: AllowPath, d: Disk, txns: map<bool, Txn>, d': Disk)
    requires Sound(h, allow, d, txns) && PowerLoss(d, d')
    ensures Sound(h, allow, d', txns) && Settled(d') && Durable(d', Active)
  {
    hide Txn.Safe, Txn.Closed, Decode, SlotName, Encodable, JournalFile, MarkFile, Owed;
    PowerLossNames(h, allow, d, d');
    forall s | MayName(d', s) ensures s in txns && Carried(h, allow, txns[s], s) && Kept(txns[s], d') {
      assert At(d', Active).now in At(d, Active).poss;
      assert MayName(d, s);
      KeptSurvives(txns[s], d, d');
    }
    forall l ensures Durable(d', l) {
    }
  }

  lemma KeptSurvives(t: Txn, d: Disk, d': Disk)
    requires t.Valid() && Kept(t, d) && PowerLoss(d, d')
    ensures Kept(t, d')
  {
    if t.Safe(d) {
      SafeSurvivesPowerLoss(t, d, d');
    } else {
      ClosedSurvivesPowerLoss(t, d, d');
    }
    hide Txn.Safe, Txn.Closed, PowerLoss;
  }

  /** A transaction whose entries are untouched has ended if it had. */
  lemma SameClosed(t: Txn, d: Disk, d': Disk)
    requires t.Closed(d) && Coherent(d') && forall e :: At(d', t.Here(e)) == At(d, t.Here(e))
    ensures t.Closed(d')
  {
    hide At, Coherent;
  }

  lemma SameKept(t: Txn, d: Disk, d': Disk)
    requires Kept(t, d) && Coherent(d') && SlotSame(d, d', t.slot) && RootsSame(d, d')
    ensures Kept(t, d') && (t.Safe(d) ==> t.Safe(d'))
  {
    hide Txn.Safe, Txn.Closed, At, Coherent;
    assert forall e :: At(d', t.Here(e)) == At(d, t.Here(e));
    if t.Safe(d) {
      SameSafe(t, d, d');
    } else {
      SameClosed(t, d, d');
    }
  }

  /** The same transaction owes the same files as long as it can be recovered and its cutover marker stays. */
  lemma StillOwes(t: Txn, d: Disk, d': Disk, l: Loc)
    requires Owes(t, d, l) && t.Safe(d') && (t.Marked(d, CutoverEntry) ==> t.Marked(d', CutoverEntry))
    ensures Owes(t, d', l)
  {
    hide Txn.Safe, Txn.Marked;
  }

  /** Recovering the transaction that is named keeps everything sound. */
  lemma RecoveryIsSound(h: Hash, allow: AllowPath, s: bool, d: Disk, txns: map<bool, Txn>, d': Disk)
    requires Sound(h, allow, d, txns) && At(d, Active).poss == {SlotName(s)} && s in txns && txns[s].slot == s
    requires txns[s].Recovering(d, d') && Coherent(d')
    ensures Sound(h, allow, d', txns) && At(d', Active) == At(d, Active)
    ensures At(d', Slot(s, JournalEntry)) == At(d, Slot(s, JournalEntry))
  {
    hide Txn.Safe, Txn.Closed, Decode, SlotName, Encodable, JournalFile, MarkFile, Traced, Coherent;
    var t := txns[s];
    assert At(d', Active) == At(d, Active);
    assert MayName(d, s) && Holds(h, allow, d, s);
    HeldJournalStays(t, d, d');
    assert forall x :: MayName(d', x) ==> x == s by { NamesDiffer(); }
    NamedStays(h, allow, d, d');
    RecoveryIsTraced(s, d, txns, d');
  }

  lemma HeldJournalStays(t: Txn, d: Disk, d': Disk)
    requires t.Recovering(d, d') && Coherent(d') && Durable(d, t.Here(JournalEntry))
    ensures At(d', t.Here(JournalEntry)) == At(d, t.Here(JournalEntry))
  {
    assert At(d', t.Here(JournalEntry)).now in t.Poss(d', JournalEntry);
    assert t.Poss(d', JournalEntry) <= t.Poss(d, JournalEntry) + {};
    hide Txn.Safe, Txn.Closed;
  }

  lemma RecoveryIsTraced(s: bool, d: Disk, txns: map<bool, Txn>, d': Disk)
    requires Traced(d, txns) && Coherent(d) && At(d, Active).poss == {SlotName(s)} && s in txns
    requires Kept(txns[s], d) && txns[s].Recovering(d, d') && Coherent(d') && At(d', Active) == At(d, Active)
    ensures Traced(d', txns)
  {
    hide Txn.Safe, Txn.Closed, SlotName, Owes, Kept;
    var t := txns[s];
    assert Durable(d, Active) by { assert At(d, Active).now in At(d, Active).poss; }
    assert forall x :: MayName(d, x) ==> x == s by { NamesDiffer(); }
    assert MayName(d', s);
    forall l: Loc | l.Root? && !Durable(d', l) ensures Owed(d', txns, l) {
      if At(d', l) == At(d, l) {
        assert Owes(t, d, l);
        CutoverStays(t, d, d');
        OwesIsSafe(t, d, l);
        StillOwes(t, d, d', l);
      } else {
        ChangedIsOwed(t, d, d', l);
      }
    }
  }

  lemma OwesIsSafe(t: Txn, d: Disk, l: Loc)
    requires Owes(t, d, l)
    ensures t.Safe(d)
  {
  }

  lemma CutoverStays(t: Txn, d: Disk, d': Disk)
    requires Kept(t, d) && t.Recovering(d, d') && Coherent(d')
    ensures t.Marked(d, CutoverEntry) ==> t.Marked(d', CutoverEntry)
  {
    SafeHasEntries(t, d);
    hide Txn.Safe, Txn.Closed;
    assert At(d', t.Here(CutoverEntry)).now in t.Poss(d', CutoverEntry);
  }

  /** What a recovery changed is what its transaction owes. */
  lemma ChangedIsOwed(t: Txn, d: Disk, d': Disk, l: Loc)
    requires Kept(t, d) && t.Recovering(d, d') && Coherent(d') && l.Root? && At(d', l) != At(d, l)
    ensures Owes(t, d', l)
  {
    CutoverStays(t, d, d');
    hide Txn.Safe, Txn.Closed, At, Coherent;
    assert !t.Closed(d);
    var m :| m in t.plan.members && m.path == l.path;
    var i :| 0 <= i < |t.plan.members| && t.plan.members[i] == m;
    assert l == Root(t.plan.members[i].path);
    assert !t.Marked(d, CutoverEntry) && !t.plan.members[i].Gate() ==> At(d', l) == At(d, l);
  }

  /** The transaction named has ended: no file of the installed set is undecided. */
  lemma ClosedIsSteady(h: Hash, allow: AllowPath, s: bool, d: Disk, txns: map<bool, Txn>)
    requires Sound(h, allow, d, txns) && At(d, Active).poss == {SlotName(s)} && s in txns && txns[s].Closed(d)
    ensures Steady(d)
  {
    hide Txn.Safe, Txn.Closed, SlotName, Owes, Named, Carried, Kept;
    var t := txns[s];
    assert Durable(d, Active) by { assert At(d, Active).now in At(d, Active).poss; }
    assert forall x :: MayName(d, x) ==> x == s by { NamesDiffer(); }
    assert t.Valid() by { NamedSlot(h, allow, d, txns, s); }
    forall l: Loc | l.Root? ensures Durable(d, l) {
      if Owes(t, d, l) {
        ClosedOwesNothing(t, d, l);
      }
    }
  }

  lemma ClosedOwesNothing(t: Txn, d: Disk, l: Loc)
    requires t.Valid() && t.Closed(d) && Owes(t, d, l)
    ensures Durable(d, l)
  {
    var i :| 0 <= i < |t.plan.members| && l == Root(t.plan.members[i].path)
             && (t.plan.members[i].Gate() || t.Marked(d, CutoverEntry));
    assert At(d, l).now in t.Images(d, i);
    assert |t.Images(d, i)| == 1;
  }

  /** Emptying the slot that is not named touches nothing of the transaction that is. */
  lemma EmptyingIsSound(h: Hash, allow: AllowPath, s: bool, d: Disk, txns: map<bool, Txn>, d': Disk)
    requires Sound(h, allow, d, txns) && Steady(d) && !MayName(d, s) && Emptying(d, d', s)
    ensures Sound(h, allow, d', txns) && Steady(d') && At(d', Active) == At(d, Active)
    ensures SlotSame(d, d', !s) && RootsSame(d, d')
  {
    hide Txn.Safe, Txn.Closed, Decode, SlotName, Encodable, JournalFile, MarkFile, Owed, Kept;
    EmptiedNames(h, allow, d, d', s);
    assert SlotSame(d, d', !s) && RootsSame(d, d');
    forall x | MayName(d', x) ensures x in txns && Carried(h, allow, txns[x], x) && Kept(txns[x], d') {
      assert x == !s && MayName(d, x);
      SameKept(txns[x], d, d');
    }
  }

  /** A run in an empty slot: until `active` names it for good, nothing of the old transaction has changed. */
  lemma RunIsSound(h: Hash, allow: AllowPath, t: Txn, d: Disk, txns: map<bool, Txn>, d': Disk)
    requires Sound(h, allow, d, txns) && Steady(d) && Journal0Absent(d, t.slot)
    requires Carried(h, allow, t, t.slot) && t.Running(d, d')
    ensures Sound(h, allow, d', txns[t.slot := t])
    ensures SlotSame(d, d', !t.slot)
  {
    hide Txn.Safe, Txn.Closed, Decode, SlotName, Encodable, JournalFile, MarkFile, Kept, Traced, Steady;
    SteadyActive(d);
    RunNames(h, allow, t, d, d');
    RunningIsSafe(t, d, d');
    OtherEntries(t, d, d');
    forall x | MayName(d', x)
      ensures x in txns[t.slot := t] && Carried(h, allow, txns[t.slot := t][x], x) && Kept(txns[t.slot := t][x], d')
    {
      if x == t.slot {
        assert Kept(t, d') by { SafeIsKept(t, d'); }
      } else {
        OnlyOneNew(t, d, d', x);
        assert !t.Pointed(d') by { NamesDiffer(); }
        SameKept(txns[x], d, d');
      }
    }
    RunIsTraced(t, d, txns[t.slot := t], d');
  }

  lemma SteadyActive(d: Disk)
    requires Steady(d)
    ensures Durable(d, Active)
  {
  }

  lemma SafeIsKept(t: Txn, d: Disk)
    requires t.Safe(d)
    ensures Kept(t, d)
  {
  }

  lemma RunIsTraced(t: Txn, d: Disk, txns: map<bool, Txn>, d': Disk)
    requires Steady(d) && t.Running(d, d') && t.slot in txns && txns[t.slot] == t
    ensures Traced(d', txns)
  {
    hide Txn.Safe, SlotName, At;
    OtherEntries(t, d, d');
    if t.Pointed(d') {
      assert MayName(d', t.slot);
      forall l: Loc | l.Root? && !Durable(d', l) ensures Owed(d', txns, l) {
        assert At(d', l) != At(d, l);
        var m :| m in t.plan.members && m.path == l.path;
        var i :| 0 <= i < |t.plan.members| && t.plan.members[i] == m;
        assert l == Root(t.plan.members[i].path);
        assert !t.Marked(d', CutoverEntry) && !t.plan.members[i].Gate() ==> At(d', l) == At(d, l);
        assert Owes(t, d', l) by { RunningIsSafe(t, d, d'); }
      }
    }
  }

  lemma OtherEntries(t: Txn, d: Disk, d': Disk)
    requires t.Running(d, d')
    ensures SlotSame(d, d', !t.slot)
    ensures !t.Pointed(d') ==> RootsSame(d, d')
  {
    hide Txn.Safe, At;
  }

  // ----------------------------------------------------------- what others change

  /** Others change a file of the installed set while nothing is named. */
  lemma FreeEdit(h: Hash, allow: AllowPath, d: Disk, txns: map<bool, Txn>, l: Loc, f: File, d': Disk)
    requires Sound(h, allow, d, txns) && At(d, Active).poss == {ABSENT} && l.Root? && d' == d[l := Cell(f, {f})]
    ensures Sound(h, allow, d', txns)
  {
    EditIsElsewhere(d, l, f, d');
    NamesDiffer();
    hide Decode, SlotName, Coherent, Kept, Carried;
    NamedStays(h, allow, d, d');
    assert forall s :: !MayName(d, s) && !MayName(d', s);
    forall x: Loc | x.Root? ensures Durable(d', x) {
      assert x != l ==> At(d', x) == At(d, x) && Durable(d, x);
    }
  }

  lemma EditIsElsewhere(d: Disk, l: Loc, f: File, d': Disk)
    requires Coherent(d) && d' == d[l := Cell(f, {f})]
    ensures Coherent(d') && Durable(d', l) && forall x | x != l :: At(d', x) == At(d, x)
  {
    assert forall x | x != l :: At(d', x) == At(d, x);
  }

  /** Others change any file of the installed set once the transaction named has ended. */
  lemma LateEdit(h: Hash, allow: AllowPath, s: bool, d: Disk, txns: map<bool, Txn>, l: Loc, f: File, d': Disk)
    requires Sound(h, allow, d, txns) && At(d, Active).poss == {SlotName(s)} && s in txns && txns[s].Closed(d)
    requires l.Root? && d' == d[l := Cell(f, {f})]
    ensures Sound(h, allow, d', txns)
  {
    ClosedIsSteady(h, allow, s, d, txns);
    EditIsElsewhere(d, l, f, d');
    NamedSlot(h, allow, d, txns, s);
    SameClosed(txns[s], d, d');
    SteadyEdited(d, l, d');
    SteadyIsTraced(d', txns);
    hide Named, Led, Coherent, Txn.Safe, Txn.Closed, Carried, Traced, Steady, At;
    EditedIsSound(h, allow, s, d, txns, d');
  }

  lemma SteadyEdited(d: Disk, l: Loc, d': Disk)
    requires Steady(d) && l.Root? && Durable(d', l) && forall x | x != l :: At(d', x) == At(d, x)
    ensures Steady(d')
  {
    forall x: Loc | x.Root? ensures Durable(d', x) {
      assert x != l ==> At(d', x) == At(d, x) && Durable(d, x);
    }
  }

  lemma NamedSlot(h: Hash, allow: AllowPath, d: Disk, txns: map<bool, Txn>, s: bool)
    requires Led(h, allow, d, txns) && MayName(d, s)
    ensures s in txns && txns[s].Valid() && txns[s].slot == s && Carried(h, allow, txns[s], s) && Kept(txns[s], d)
  {
    hide Txn.Safe, Txn.Closed, SlotName, At, Encodable, JournalFile, MarkFile;
  }

  /** Only a file of the installed set has changed. */
  lemma EditedIsSound(h: Hash, allow: AllowPath, s: bool, d: Disk, txns: map<bool, Txn>, d': Disk)
    requires Sound(h, allow, d, txns) && At(d, Active).poss == {SlotName(s)} && Coherent(d')
    requires forall l: Loc | !l.Root? :: At(d', l) == At(d, l)
    requires s in txns && Kept(txns[s], d') && Traced(d', txns)
    ensures Sound(h, allow, d', txns)
  {
    hide Decode, SlotName, Coherent, Kept, Carried, Traced, At, Holds;
    assert forall x :: MayName(d, x) ==> x == s by { NamesDiffer(); }
    assert At(d', Active) == At(d, Active);
    NamedStays(h, allow, d, d');
    NamedSlot(h, allow, d, txns, s);
    forall x | MayName(d', x) ensures x in txns && Carried(h, allow, txns[x], x) && Kept(txns[x], d') {
      assert MayName(d, x);
    }
  }

  /** Before any cutover others may change what is no gate of the plan. */
  lemma EarlyEdit(h: Hash, allow: AllowPath, s: bool, d: Disk, txns: map<bool, Txn>, l: Loc, f: File, d': Disk)
    requires Sound(h, allow, d, txns) && At(d, Active).poss == {SlotName(s)} && s in txns
    requires txns[s].Safe(d) && !txns[s].Marked(d, CutoverEntry)
    requires l.Root? && forall m | m in txns[s].plan.members && m.path == l.path :: !m.Gate()
    requires d' == d[l := Cell(f, {f})]
    ensures Sound(h, allow, d', txns)
  {
    var t := txns[s];
    EditIsElsewhere(d, l, f, d');
    NamedSlot(h, allow, d, txns, s);
    assert t.Valid() && t.edits;
    EarlyEditIsSafe(t, d, l, f, d');
    EarlyEditIsTraced(s, d, txns, l, d');
    hide Named, Led, Coherent, Txn.Safe, Txn.Closed, Carried, Traced, At;
    EditedIsSound(h, allow, s, d, txns, d');
  }

  lemma EarlyEditIsTraced(s: bool, d: Disk, txns: map<bool, Txn>, l: Loc, d': Disk)
    requires Traced(d, txns) && At(d, Active).poss == {SlotName(s)} && s in txns && txns[s].Safe(d') && l.Root?
    requires !txns[s].Marked(d, CutoverEntry) && Durable(d', l) && forall x | x != l :: At(d', x) == At(d, x)
    ensures Traced(d', txns)
  {
    hide SlotName, Txn.Safe, Txn.Marked, Owes, At;
    assert forall x :: MayName(d, x) ==> x == s by { NamesDiffer(); }
    forall x: Loc | x.Root? && !Durable(d', x) ensures Durable(d', Active) ==> Owed(d', txns, x) {
      if Durable(d', Active) {
        assert At(d', x) == At(d, x) && Owes(txns[s], d, x);
        StillOwes(txns[s], d, d', x);
        assert MayName(d', s);
      }
    }
  }

  lemma EarlyEditIsSafe(t: Txn, d: Disk, l: Loc, f: File, d': Disk)
    requires t.Valid() && t.edits && t.Safe(d) && !t.Marked(d, CutoverEntry) && l.Root? && d' == d[l := Cell(f, {f})]
    requires forall m | m in t.plan.members && m.path == l.path :: !m.Gate()
    ensures t.Safe(d') && !t.Marked(d', CutoverEntry)
  {
    SafeHasEntries(t, d);
    EditIsElsewhere(d, l, f, d');
    hide Txn.Safe, At, Coherent;
    if i :| 0 <= i < |t.plan.members| && t.plan.members[i].path == l.path {
      assert t.plan.members[i] in t.plan.members;
      EditIsSafe(t, d, i, f, d');
    } else {
      SameSafe(t, d, d');
    }
  }

  // ------------------------------------------------------- whole installations

  /** `active` read: None when it cannot be read or names no slot, Some(None) when it is absent. */
  method ReadActive(m: Installer) returns (r: Option<Option<bool>>)
    ensures r == Some(None) ==> At(m.disk, Active).now.kind == 0
    ensures forall s :: r == Some(Some(s)) ==> At(m.disk, Active).now.data == SlotName(s).data
    ensures forall s :: r == Some(Some(s)) ==> At(m.disk, Active).now.kind == REGULAR
    ensures forall s | m.luck != Anything && At(m.disk, Active).now == SlotName(s) :: r == Some(Some(s))
    ensures m.luck != Anything && At(m.disk, Active).now.kind == 0 ==> r == Some(None)
  {
    NamesDiffer();
    assert SlotName(false).data != SlotName(true).data;
    var f := m.Read(Active);
    if f.None? {
      return None;
    }
    if f.value.kind == 0 {
      return Some(None);
    }
    if f.value.kind == REGULAR && f.value.data == SlotName(false).data {
      return Some(Some(false));
    }
    if f.value.kind == REGULAR && f.value.data == SlotName(true).data {
      return Some(Some(true));
    }
    r := None;
  }

  ghost predicate AllSound(h: Hash, allow: AllowPath, ds: seq<Disk>, txns: map<bool, Txn>) {
    forall d | d in ds :: Sound(h, allow, d, txns)
  }

  /** What `active` says is what it names. */
  lemma ActiveRead(h: Hash, allow: AllowPath, d: Disk, txns: map<bool, Txn>, r: Option<Option<bool>>)
    requires Sound(h, allow, d, txns) && Durable(d, Active)
    requires r == Some(None) ==> At(d, Active).now.kind == 0
    requires forall s :: r == Some(Some(s)) ==>
               At(d, Active).now.data == SlotName(s).data && At(d, Active).now.kind == REGULAR
    ensures r == Some(None) ==> At(d, Active).poss == {ABSENT}
    ensures forall s :: r == Some(Some(s)) ==> At(d, Active).poss == {SlotName(s)} && s in txns
    ensures forall s :: r == Some(Some(s)) ==> Carried(h, allow, txns[s], s) && Kept(txns[s], d)
    ensures forall s :: r == Some(None) || r == Some(Some(!s)) ==> !MayName(d, s)
  {
    NamesDiffer();
    assert At(d, Active).now in At(d, Active).poss;
    assert SlotName(false).data != SlotName(true).data;
    hide Txn.Safe, Txn.Closed, Decode, Encodable, JournalFile, MarkFile, Owed;
  }

  /** What the result of recovering a transaction says of its files and markers. */
  ghost predicate Recovered(t: Txn, d: Disk, d': Disk, r: Result) {
    && t.Recovering(d, d')
    && (r == Completed ==> t.Poss(d', CompletedEntry) == {t.mark} && (t.Safe(d) ==> t.AllAfter(d')))
    && (r == RolledBack ==>
          && t.Poss(d', RolledBackEntry) == {t.mark}
          && (t.Safe(d) ==> t.Before(d', true) && (t.Marked(d, CutoverEntry) ==> t.Before(d', false))))
    && (r == WaitCf ==>
          t.Safe(d) && t.Marked(d, CutoverEntry) && t.NeedsCf() && t.RestBefore(d') && t.LateSame(d, d'))
    && (t.Marked(d, CompletedEntry) ==> r == Completed || r == RecoveryRequired)
    && (t.Marked(d, RolledBackEntry) ==> r == RolledBack || r == RecoveryRequired)
  }

  /** The transaction named is recovered. */
  method RecoverNamed(h: Hash, allow: AllowPath, s: bool, d: Disk, luck: Luck, ghost txns: map<bool, Txn>)
    returns (r: Result, d': Disk, seen: seq<Disk>)
    requires Sound(h, allow, d, txns) && At(d, Active).poss == {SlotName(s)} && s in txns
    requires Carried(h, allow, txns[s], s) && Kept(txns[s], d)
    ensures AllSound(h, allow, seen, txns) && Sound(h, allow, d', txns) && At(d', Active) == At(d, Active)
    ensures forall x | x in seen || x == d' ::
      At(x, Slot(s, JournalEntry)) == At(d, Slot(s, JournalEntry)) && At(x, Active) == At(d, Active)
    ensures r == Completed || r == RolledBack ==> Steady(d') && txns[s].Closed(d')
    ensures r == Completed || r == RolledBack || r == WaitCf || r == RecoveryRequired
    ensures Recovered(txns[s], d, d', r)
    ensures luck.Writes() ==> r == Ends(txns[s], d)
  {
    NamedHasJournal(h, allow, d, txns, s);
    hide Txn.Safe, Txn.Closed, Txn.Recovering, Sound, Encodable, JournalFile, MarkFile, Txn.Before, Txn.After,
         Txn.Poss, At, Steady, Coherent, Txn.RestBefore, Txn.LateSame, Txn.NeedsCf;
    ghost var t := txns[s];
    var m := new Installer(h, allow, s, d, luck);
    r := m.Recover(t);
    d', seen := m.disk, m.trail[1..];
    RecoveringIsKept(t, d, d');
    RecoveryIsSound(h, allow, s, d, txns, d');
    forall k | 1 <= k < |m.trail|
      ensures Sound(h, allow, m.trail[k], txns) && At(m.trail[k], Slot(s, JournalEntry)) == At(d, Slot(s, JournalEntry))
      ensures At(m.trail[k], Active) == At(d, Active)
    {
      RecoveringIsKept(t, d, m.trail[k]);
      RecoveryIsSound(h, allow, s, d, txns, m.trail[k]);
    }
    if r == Completed || r == RolledBack {
      MarkerCloses(t, d');
      ClosedIsSteady(h, allow, s, d', txns);
    }
  }

  lemma NamedHasJournal(h: Hash, allow: AllowPath, d: Disk, txns: map<bool, Txn>, s: bool)
    requires Sound(h, allow, d, txns) && MayName(d, s)
    ensures At(d, Slot(s, JournalEntry)).now != ABSENT
  {
    NoPlanInAbsent(h, allow);
    hide Decode, Led, Traced, Coherent, SlotName;
  }

  lemma RecoveringIsKept(t: Txn, d: Disk, d': Disk)
    requires Kept(t, d) && t.Recovering(d, d')
    ensures Kept(t, d') && Coherent(d')
  {
    assert Kept(t, d') by { hide Txn.Safe, Txn.Closed; }
    SafeHasEntries(t, d');
  }

  lemma SoundWith(h: Hash, allow: AllowPath, d: Disk, txns: map<bool, Txn>, slot: bool, t: Txn)
    requires Sound(h, allow, d, txns) && !MayName(d, slot)
    ensures Sound(h, allow, d, txns[slot := t])
  {
    hide Named, Carried, Txn.Safe, Txn.Closed, Owes, Durable, MayName;
    forall l | Owed(d, txns, l) ensures Owed(d, txns[slot := t], l) {
      var s :| s in txns && MayName(d, s) && Owes(txns[s], d, l);
      assert txns[slot := t][s] == txns[s];
    }
  }

  lemma RunAfterEmptying(h: Hash, allow: AllowPath, t: Txn, d: Disk, txns: map<bool, Txn>, d': Disk)
    requires Sound(h, allow, d, txns) && Steady(d) && Carried(h, allow, t, t.slot) && t.Running(d, d')
    requires forall e :: At(d, Slot(t.slot, e)) == Cell(ABSENT, {ABSENT})
    ensures Sound(h, allow, d', txns[t.slot := t]) && SlotSame(d, d', !t.slot)
  {
    hide Sound, Carried, Txn.Running, Steady;
    RunIsSound(h, allow, t, d, txns, d');
  }

  /** The transactions known, with the one that `ran` in the slot, if any did. */
  ghost function With(txns: map<bool, Txn>, slot: bool, ran: Option<Txn>): map<bool, Txn> {
    if ran.Some? then txns[slot := ran.value] else txns
  }

  ghost predicate AllSame(d: Disk, seen: seq<Disk>, s: bool) {
    forall x | x in seen :: SlotSame(d, x, s)
  }

  /** What the result of a run of the plan says, with `ready` the disk before it and before its slot was emptied. */
  ghost predicate RunEnded(h: Hash, slot: bool, p: Plan, ready: Disk, d': Disk, r: Result, ran: Option<Txn>)
    requires Distinct(p.members)
  {
    && (ran.Some? ==> ran.value == RunTxn(h, slot, p, true))
    && (ran.None? ==> RootsSame(ready, d') && At(d', Active) == At(ready, Active))
    && (r == Refused || r == Unchanged ==> ran.None?)
    && (r == Unchanged ==> Pointless(p))
    && (r == Completed || r == RolledBack || r == WaitCf ==> ran.Some? && ran.value.Pointed(d'))
    && (r == Completed ==> ran.value.AllAfter(d') && ran.value.Poss(d', CompletedEntry) == {ran.value.mark})
    && (r == RolledBack ==> ran.value.AllBefore(d') && ran.value.Poss(d', RolledBackEntry) == {ran.value.mark})
    && (r == WaitCf ==>
          ran.value.Marked(d', CutoverEntry) && ran.value.NeedsCf() && ran.value.RestBefore(d'))
  }

  /** A slot that cannot be named is emptied and the plan is run in it. */
  method UseSlot(h: Hash, allow: AllowPath, slot: bool, p: Plan, d: Disk, luck: Luck, ghost txns: map<bool, Txn>)
    returns (r: Result, d': Disk, seen: seq<Disk>, ghost ran: Option<Txn>)
    requires Built(p) && Sound(h, allow, d, txns) && Steady(d) && !MayName(d, slot)
    ensures AllSound(h, allow, seen, With(txns, slot, ran)) && Sound(h, allow, d', With(txns, slot, ran))
    ensures AllSame(d, seen, !slot) && SlotSame(d, d', !slot)
    ensures RunEnded(h, slot, p, d, d', r, ran)
    ensures !Disposable(h, allow, d, slot) ==> d' == d && (r == Refused || r == RecoveryRequired)
    ensures Fits(h, allow, slot, p, d) ==>
              (luck == Nothing ==> r == Completed) && (luck == Unhealthy ==> r == RolledBack)
  {
    hide Sound, Txn.Safe, Txn.Running, Encodable, JournalFile, MarkFile, Emptying, Steady, MayName, Carried,
         Disposable, At, Muddled, SlotSame, RootsSame, Runnable;
    var m := new Installer(h, allow, slot, d, luck);
    ran := None;
    assert RootsSame(d, d) by { RootsSameAtAll(d); }
    var ready := m.Ask();
    if !ready {
      SameAtAll(d, !slot);
      return Refused, d, [], ran;
    }
    assert Coherent(d) by { SoundIsCoherent(h, allow, d, txns); }
    var retired := RetireSlot(m);
    EmptyingIsSound(h, allow, slot, d, txns, m.disk);
    forall k | 1 <= k < |m.trail|
      ensures Sound(h, allow, m.trail[k], txns) && SlotSame(d, m.trail[k], !slot) && !MayName(m.trail[k], slot)
    {
      EmptyingIsSound(h, allow, slot, d, txns, m.trail[k]);
      SameActive(d, m.trail[k], slot);
    }
    d', seen := m.disk, m.trail[1..];
    var prepared := m.Ask();
    if !retired || !prepared {
      return if retired then Refused else RecoveryRequired, d', seen, ran;
    }
    RunnableStays(allow, p, d, m.disk);
    r, d', seen, ran := RunPlan(m, p, d, txns);
  }

  /** The slot can be emptied and the plan can be run. */
  ghost predicate Fits(h: Hash, allow: AllowPath, slot: bool, p: Plan, d: Disk) {
    Disposable(h, allow, d, slot) && !Muddled(h, allow, d, slot) && Runnable(allow, p, d)
  }

  lemma RootsSameAtAll(d: Disk)
    ensures RootsSame(d, d)
  {
  }

  lemma RunnableStays(allow: AllowPath, p: Plan, d: Disk, d': Disk)
    requires RootsSame(d, d')
    ensures Runnable(allow, p, d) <==> Runnable(allow, p, d')
  {
    hide At, Encodable;
    assert forall i | 0 <= i < |p.members| :: At(d', Root(p.members[i].path)) == At(d, Root(p.members[i].path));
  }

  lemma SameActive(d: Disk, d': Disk, s: bool)
    requires At(d', Active) == At(d, Active)
    ensures MayName(d', s) <==> MayName(d, s)
  {
  }

  /** The run in the emptied slot, seen from before it was emptied. */
  method RunPlan(m: Installer, p: Plan, d: Disk, ghost txns: map<bool, Txn>)
    returns (r: Result, d': Disk, seen: seq<Disk>, ghost ran: Option<Txn>)
    requires Built(p) && |m.trail| >= 1
    requires forall k | 1 <= k < |m.trail| ::
      Sound(m.h, m.allow, m.trail[k], txns) && SlotSame(d, m.trail[k], !m.slot) && !MayName(m.trail[k], m.slot)
    requires Sound(m.h, m.allow, m.disk, txns) && SlotSame(d, m.disk, !m.slot) && Steady(m.disk)
    requires forall e :: At(m.disk, Slot(m.slot, e)) == Cell(ABSENT, {ABSENT})
    requires RootsSame(d, m.disk) && At(m.disk, Active) == At(d, Active)
    modifies m
    ensures AllSound(m.h, m.allow, seen, With(txns, m.slot, ran)) && Sound(m.h, m.allow, d', With(txns, m.slot, ran))
    ensures AllSame(d, seen, !m.slot) && SlotSame(d, d', !m.slot)
    ensures RunEnded(m.h, m.slot, p, d, d', r, ran)
    ensures Runnable(m.allow, p, old(m.disk)) ==>
              (m.luck == Nothing ==> r == Completed) && (m.luck == Unhealthy ==> r == RolledBack)
  {
    hide Sound, Txn.Safe, Txn.Running, Encodable, JournalFile, MarkFile, At, MayName, Carried, Durable, SlotSame,
         RootsSame, Runnable, Txn.Before, Txn.After, Txn.Poss, Txn.Marked, Txn.NeedsCf, Txn.RestBefore, Txn.Pointed,
         Pointless;
    ghost var start, n := m.disk, |m.trail|;
    ghost var t := RunTxn(m.h, m.slot, p, true);
    ran := None;
    assert FreshSlot(m.slot, p, start) by {
      SoundIsCoherent(m.h, m.allow, start, txns);
      RetiredIsFresh(m.slot, p, start);
    }
    r := m.Run(p, t);
    d', seen := m.disk, m.trail[1..];
    if r == Refused || r == Unchanged {
      return;
    }
    ran := Some(t);
    assert Carried(m.h, m.allow, t, m.slot) by { RunIsCarried(m.h, m.allow, m.slot, p, t); }
    RunAfterEmptying(m.h, m.allow, t, start, txns, m.disk);
    SameTwice(d, start, m.disk, !m.slot);
    forall k | 1 <= k < |m.trail|
      ensures Sound(m.h, m.allow, m.trail[k], txns[m.slot := t]) && SlotSame(d, m.trail[k], !m.slot)
    {
      if k < n {
        SoundWith(m.h, m.allow, m.trail[k], txns, m.slot, t);
      } else {
        RunAfterEmptying(m.h, m.allow, t, start, txns, m.trail[k]);
        SameTwice(d, start, m.trail[k], !m.slot);
      }
    }
  }

  lemma SoundIsCoherent(h: Hash, allow: AllowPath, d: Disk, txns: map<bool, Txn>)
    requires Sound(h, allow, d, txns)
    ensures Coherent(d)
  {
    hide Named, Led, Traced;
  }

  lemma SameAtAll(d: Disk, s: bool)
    ensures SlotSame(d, d, s)
  {
  }

  lemma SameTwice(a: Disk, b: Disk, c: Disk, s: bool)
    requires SlotSame(a, b, s) && SlotSame(b, c, s)
    ensures SlotSame(a, c, s)
  {
    hide At;
  }

  lemma RunIsCarried(h: Hash, allow: AllowPath, slot: bool, p: Plan, t: Txn)
    requires Built(p) && t == RunTxn(h, slot, p, true) && Encodable(p)
    requires forall i | 0 <= i < |p.members| :: allow(p.members[i].path, p.members[i].flags)
    ensures Carried(h, allow, t, slot)
  {
    assert forall i | 0 <= i < |p.members| :: p.members[i] in p.members;
    hide Encodable, JournalFile, MarkFile;
  }

  /** What `active` leads to: the disk after recovery and the slot to use, or a final result. */
  method Prepare(h: Hash, allow: AllowPath, d: Disk, luck: Luck, ghost txns: map<bool, Txn>)
    returns (r: Option<Result>, slot: bool, d': Disk, seen: seq<Disk>)
    requires Sound(h, allow, d, txns) && Durable(d, Active)
    ensures AllSound(h, allow, seen, txns) && Sound(h, allow, d', txns)
    ensures forall x | x in seen || x == d' :: At(x, Active) == At(d, Active)
    ensures forall s | At(d, Active).now == SlotName(s) :: JournalKept(d, seen + [d'], s)
    ensures r.None? ==> Steady(d') && !MayName(d', slot)
    ensures Prepared(d, txns, r, slot, d')
    ensures luck.Writes() ==> r.None?
  {
    hide Sound, SlotName, Txn.Safe, Txn.Closed, Carried, At, Steady, Recovered, RootsSame, Ends;
    var m := new Installer(h, allow, false, d, luck);
    var named := ReadActive(m);
    ActiveRead(h, allow, d, txns, named);
    r, slot, d', seen := Some(RecoveryRequired), false, d, [];
    NamesDiffer();
    if named == Some(None) {
      r := None;
      NothingIsOwed(h, allow, d, txns);
    } else if named.Some? {
      var s := named.value.value;
      var result;
      result, d', seen := RecoverNamed(h, allow, s, d, luck, txns);
      r := if result == Completed || result == RolledBack then None else Some(result);
      slot := !s;
      SameActive(d, d', slot);
      NamedEnds(h, allow, d, txns, s);
    } else {
      ReadIsNamed(h, allow, d, txns);
      forall s | At(d, Active).now == SlotName(s) ensures Recovered(txns[s], d, d, RecoveryRequired) {
        NotRecovered(h, allow, d, txns, s);
      }
    }
  }

  /**
   * What the recovery before an installation comes to. With nothing named it does
   * nothing; otherwise the transaction named is completed or rolled back, the
   * other slot is the one to use, or the result is final.
   */
  ghost predicate Prepared(d: Disk, txns: map<bool, Txn>, r: Option<Result>, slot: bool, d': Disk) {
    && (At(d, Active).now == ABSENT ==> d' == d && !slot && (r == None || r == Some(RecoveryRequired)))
    && forall s | At(d, Active).now == SlotName(s) ::
         && s in txns
         && (r.None? ==> slot == !s && txns[s].Closed(d')
                         && (Recovered(txns[s], d, d', Completed) || Recovered(txns[s], d, d', RolledBack)))
         && (r.Some? ==> (r.value == WaitCf || r.value == RecoveryRequired) && Recovered(txns[s], d, d', r.value))
  }

  lemma NotRecovered(h: Hash, allow: AllowPath, d: Disk, txns: map<bool, Txn>, s: bool)
    requires Sound(h, allow, d, txns) && MayName(d, s)
    ensures s in txns && Recovered(txns[s], d, d, RecoveryRequired)
  {
    RecoveringSelf(txns[s], d);
    hide Txn.Safe, Txn.Closed, Txn.Recovering, Carried, Named, Traced;
  }

  /** `active` durably says what is named. */
  lemma ReadIsNamed(h: Hash, allow: AllowPath, d: Disk, txns: map<bool, Txn>)
    requires Sound(h, allow, d, txns) && Durable(d, Active)
    ensures forall s | At(d, Active).now == SlotName(s) :: MayName(d, s) && s in txns
    ensures At(d, Active).now == ABSENT || At(d, Active).now == SlotName(false) || At(d, Active).now == SlotName(true)
  {
    hide Txn.Safe, Txn.Closed, Carried, SlotName, Traced, Kept;
  }

  /** A recovery in which nothing goes wrong ends the transaction named. */
  lemma NamedEnds(h: Hash, allow: AllowPath, d: Disk, txns: map<bool, Txn>, s: bool)
    requires Sound(h, allow, d, txns) && MayName(d, s) && s in txns
    ensures Ends(txns[s], d) == Completed || Ends(txns[s], d) == RolledBack
  {
    NamedHasJournal(h, allow, d, txns, s);
    NamedSlot(h, allow, d, txns, s) by { SoundParts(h, allow, d, txns); }
    hide Sound, Txn.Marked;
  }

  lemma NothingIsOwed(h: Hash, allow: AllowPath, d: Disk, txns: map<bool, Txn>)
    requires Sound(h, allow, d, txns) && Durable(d, Active) && At(d, Active).poss == {ABSENT}
    ensures Steady(d)
  {
    NamesDiffer();
    hide Named, Led, SlotName, Owes;
  }

  /** How an installation went: the result of the recovery before it if that is final, else the slot, the disk
      then, and the transaction that was started there, if any was. */
  datatype Course = Course(early: Option<Result>, slot: bool, ready: Disk, ran: Option<Txn>)

  /** What the result of an installation says of the device. */
  ghost predicate Orchestrated(h: Hash, p: Plan, d: Disk, txns: map<bool, Txn>, r: Result, d': Disk, c: Course)
    requires Distinct(p.members)
  {
    && Prepared(d, txns, c.early, c.slot, c.ready)
    && if c.early.Some? then r == c.early.value && d' == c.ready && c.ran.None?
       else RunEnded(h, c.slot, p, c.ready, d', r, c.ran)
  }

  /**
   * `install_orchestrate` once the platform is fit: recover what `active`
   * names, take the other slot, empty it, run the plan there. `seen` are all the
   * states the disk went through.
   */
  method Orchestrate(h: Hash, allow: AllowPath, p: Plan, d: Disk, luck: Luck, ghost txns: map<bool, Txn>)
    returns (r: Result, d': Disk, seen: seq<Disk>, ghost after: map<bool, Txn>, ghost course: Course)
    requires Built(p) && Sound(h, allow, d, txns) && Durable(d, Active)
    ensures AllSound(h, allow, seen, after) && Sound(h, allow, d', after) && Sound(h, allow, d, after)
    ensures forall s | At(d, Active).now == SlotName(s) :: JournalKept(d, seen + [d'], s)
    ensures Orchestrated(h, p, d, txns, r, d', course) && after == With(txns, course.slot, course.ran)
    ensures course.early.None? && !Disposable(h, allow, course.ready, course.slot) ==>
              d' == course.ready && (r == Refused || r == RecoveryRequired)
    ensures luck.Writes() ==> course.early.None?
    ensures Fits(h, allow, course.slot, p, course.ready) ==>
              (luck == Nothing ==> r == Completed) && (luck == Unhealthy ==> r == RolledBack)
  {
    hide Sound, Built, SlotName, MayName, SlotSame, At, Steady, RunEnded, Recovered, Fits, Disposable, Txn.Closed;
    after := txns;
    var early, slot;
    early, slot, d', seen := Prepare(h, allow, d, luck, txns);
    course := Course(early, slot, d', None);
    if early.Some? {
      return early.value, d', seen, after, course;
    }
    var first := seen;
    ghost var middle := d';
    var more;
    ghost var ran;
    r, d', more, ran := UseSlot(h, allow, slot, p, d', luck, txns);
    course := Course(early, slot, middle, ran);
    after := With(txns, slot, ran);
    SoundBefore(h, allow, d, first, middle, txns, slot, ran);
    seen := first + more;
    forall s | At(d, Active).now == SlotName(s) ensures JournalKept(d, seen + [d'], s) {
      assert !slot == s;
      forall x | x in more + [d'] ensures SlotSame(middle, x, s) {
        assert x in more || x == d';
      }
      KeptAlong(d, middle, first, more + [d'], s);
      assert seen + [d'] == first + (more + [d']);
    }
  }

  /** What was sound before the run still is with its transaction known. */
  lemma SoundBefore(h: Hash, allow: AllowPath, d: Disk, first: seq<Disk>, middle: Disk, txns: map<bool, Txn>,
                    slot: bool, ran: Option<Txn>)
    requires AllSound(h, allow, first, txns) && Sound(h, allow, d, txns) && !MayName(middle, slot)
    requires forall x | x in first || x == middle :: At(x, Active) == At(d, Active)
    ensures AllSound(h, allow, first, With(txns, slot, ran)) && Sound(h, allow, d, With(txns, slot, ran))
  {
    hide Sound, MayName, At;
    forall x | x in first || x == d ensures Sound(h, allow, x, With(txns, slot, ran)) {
      if ran.Some? {
        SameActive(d, x, slot);
        SameActive(d, middle, slot);
        SoundWith(h, allow, x, txns, slot, ran.value);
      }
    }
  }

  lemma KeptAlong(d: Disk, middle: Disk, first: seq<Disk>, more: seq<Disk>, s: bool)
    requires JournalKept(d, first + [middle], s) && forall x | x in more :: SlotSame(middle, x, s)
    ensures JournalKept(d, first + more, s)
  {
    hide At;
    assert middle in first + [middle];
  }

  ghost predicate JournalKept(d: Disk, seen: seq<Disk>, s: bool) {
    forall x | x in seen :: At(x, Slot(s, JournalEntry)) == At(d, Slot(s, JournalEntry))
  }

  /** What the result of the recovery at boot says. */
  ghost predicate Booted(d: Disk, txns: map<bool, Txn>, r: Result, d': Disk) {
    && (At(d, Active).now == ABSENT ==> d' == d && (r == Unchanged || r == RecoveryRequired))
    && forall s | At(d, Active).now == SlotName(s) ::
         s in txns && r != Unchanged && r != Refused && Recovered(txns[s], d, d', r)
         && (r == Completed || r == RolledBack ==> txns[s].Closed(d'))
  }

  /** `install_recover_only`, and the recovery at boot: the slot named is recovered. */
  method BootRecovery(h: Hash, allow: AllowPath, d: Disk, luck: Luck, ghost txns: map<bool, Txn>)
    returns (r: Result, d': Disk, seen: seq<Disk>)
    requires Sound(h, allow, d, txns) && Durable(d, Active)
    ensures AllSound(h, allow, seen, txns) && Sound(h, allow, d', txns)
    ensures r == Completed || r == RolledBack ==> Steady(d')
    ensures Booted(d, txns, r, d')
    ensures luck.Writes() ==>
              && (At(d, Active).now == ABSENT ==> r == Unchanged)
              && forall s | At(d, Active).now == SlotName(s) :: r == Ends(txns[s], d)
  {
    hide Sound, SlotName, Txn.Safe, Txn.Closed, Carried, At, Steady, Recovered, Ends;
    var m := new Installer(h, allow, false, d, luck);
    var named := ReadActive(m);
    ActiveRead(h, allow, d, txns, named);
    ReadIsNamed(h, allow, d, txns);
    NamesDiffer();
    r, d', seen := RecoveryRequired, d, [];
    if named == Some(None) {
      r := Unchanged;
    } else if named.Some? {
      r, d', seen := RecoverNamed(h, allow, named.value.value, d, luck, txns);
    } else {
      forall s | At(d, Active).now == SlotName(s) ensures Recovered(txns[s], d, d, RecoveryRequired) {
        NotRecovered(h, allow, d, txns, s);
      }
    }
  }

  // ------------------------------------------------------------------- histories

  /** What happens to the device; a call may be cut short at any state it goes through. */
  datatype Deed = Install(plan: Plan, cut: Cut) | Boot(cut: Cut) | Change(path: Path, image: File)

  ghost predicate AllNamed(h: Hash, allow: AllowPath, ds: seq<Disk>) {
    forall d | d in ds :: Named(h, allow, d)
  }

  /** Whether a power loss would leave `active` as it is seen. */
  method IsDecided(d: Disk) returns (b: bool)
    ensures b <==> Durable(d, Active)
  {
    b := Active !in d || d[Active].poss == {d[Active].now};
  }

  /** The slot named has a terminal marker that no power loss takes away. */
  predicate Ended(d: Disk, s: bool) {
    exists e | e == CompletedEntry || e == RolledBackEntry ::
      At(d, Slot(s, e)).now.kind != 0 && At(d, Slot(s, e)).poss == {At(d, Slot(s, e)).now}
  }

  /** The slot named has no cutover marker, and the file is no gate of its plan. */
  predicate Untouched(h: Hash, allow: AllowPath, d: Disk, s: bool, path: Path) {
    var p := Decode(h, allow, At(d, Slot(s, JournalEntry)).now);
    && At(d, Slot(s, CutoverEntry)).now.kind == 0
    && p.Some? && forall m | m in p.value.members && m.path == path :: !m.Gate()
  }

  /** When others may change a file: nothing is named, the transaction named has ended, or has not cut over. */
  predicate Free(h: Hash, allow: AllowPath, d: Disk, path: Path) {
    var a := At(d, Active).now;
    a == ABSENT || exists s :: a == SlotName(s) && (Ended(d, s) || Untouched(h, allow, d, s, path))
  }

  lemma ChangeIsSound(h: Hash, allow: AllowPath, d: Disk, txns: map<bool, Txn>, path: Path, f: File, d': Disk)
    requires Sound(h, allow, d, txns) && Durable(d, Active) && Free(h, allow, d, path)
             && d' == d[Root(path) := Cell(f, {f})]
    ensures Sound(h, allow, d', txns)
  {
    hide Sound, Ended, Untouched, SlotName, Kept, Carried;
    if At(d, Active).now == ABSENT {
      FreeEdit(h, allow, d, txns, Root(path), f, d');
    } else {
      var s :| At(d, Active).now == SlotName(s) && (Ended(d, s) || Untouched(h, allow, d, s, path));
      assert Led(h, allow, d, txns) && Coherent(d) by { SoundParts(h, allow, d, txns); }
      NamedSlot(h, allow, d, txns, s);
      if Ended(d, s) || txns[s].Closed(d) {
        if Ended(d, s) {
          EndedIsClosed(txns[s], d, s);
        }
        LateEdit(h, allow, s, d, txns, Root(path), f, d');
      } else {
        UntouchedIsEarly(h, allow, txns[s], d, s, path);
        assert txns[s].Safe(d) by { assert Kept(txns[s], d); IsSafe(txns[s], d); }
        EarlyEdit(h, allow, s, d, txns, Root(path), f, d');
      }
    }
  }

  lemma IsSafe(t: Txn, d: Disk)
    requires Kept(t, d) && !t.Closed(d)
    ensures t.Safe(d)
  {
  }

  lemma SoundParts(h: Hash, allow: AllowPath, d: Disk, txns: map<bool, Txn>)
    requires Sound(h, allow, d, txns)
    ensures Coherent(d) && Named(h, allow, d) && Led(h, allow, d, txns)
  {
    hide Named, Led, Traced;
  }

  lemma EndedIsClosed(t: Txn, d: Disk, s: bool)
    requires t.Valid() && t.slot == s && Kept(t, d) && Ended(d, s)
    ensures t.Closed(d)
  {
    SafeHasEntries(t, d);
    MarkRead(t, d, CompletedEntry);
    MarkRead(t, d, RolledBackEntry);
    hide Txn.Safe, Txn.Closed;
    MarkerCloses(t, d);
  }

  lemma UntouchedIsEarly(h: Hash, allow: AllowPath, t: Txn, d: Disk, s: bool, path: Path)
    requires Carried(h, allow, t, s) && Kept(t, d) && Untouched(h, allow, d, s, path)
    ensures !t.Marked(d, CutoverEntry) && forall m | m in t.plan.members && m.path == path :: !m.Gate()
  {
    SafeHasEntries(t, d);
    MarkRead(t, d, CutoverEntry);
    JournalRead(t, d);
    NoPlanInAbsent(h, allow);
    DecodeEncode(h, allow, t.plan);
    hide Txn.Safe, Txn.Closed, Decode, Encodable, JournalFile, MarkFile;
  }

  /** What one call did, cut short or not. */
  method EndCall(h: Hash, allow: AllowPath, cut: Cut, whole: Disk, states: seq<Disk>, before: Disk, seen: seq<Disk>,
                 ghost txns: map<bool, Txn>)
    returns (final: Disk, seen': seq<Disk>)
    requires AllSound(h, allow, states, txns) && Sound(h, allow, whole, txns) && Sound(h, allow, before, txns)
    requires AllNamed(h, allow, seen)
    ensures Sound(h, allow, final, txns) && AllNamed(h, allow, seen') && seen <= seen'
    ensures cut == Returns ==> final == whole
  {
    hide Sound, Named;
    final, seen' := whole, seen + states;
    forall d | d in states ensures Named(h, allow, d) {
      SoundParts(h, allow, d, txns);
    }
    if cut != Returns {
      var all := [before] + states;
      var k: nat :| k < |all|;
      final := all[k];
      assert final == before || final in states;
      if cut == PowerLost {
        final, seen' := Blackout(h, allow, final, seen', txns);
      }
    }
  }

  /**
   * Any sequence of installations, boot recoveries and changes made by others,
   * each call killed or cut short by a power loss anywhere, or not at all: at
   * every moment whatever `active` may say after a power loss names a slot with a
   * decodable journal, the transaction there can be recovered at any time or has
   * ended, and it alone has left files undecided. Others change a file only when
   * it is free; an `active` whose publication failed and is undecided is followed
   * by a loss of power. Every call that returned has the result its `log` entry
   * explains.
   */
  method Installations(h: Hash, allow: AllowPath, d0: Disk, deeds: seq<Deed>)
    returns (final: Disk, seen: seq<Disk>, ghost txns: map<bool, Txn>, ghost log: seq<Option<Outcome>>)
    requires Coherent(d0) && At(d0, Active) == Cell(ABSENT, {ABSENT}) && forall l: Loc | l.Root? :: Durable(d0, l)
    requires forall e | e in deeds && e.Install? :: Built(e.plan)
    ensures AllNamed(h, allow, seen) && Sound(h, allow, final, txns) && final in seen
    ensures |log| == |deeds| && forall n | 0 <= n < |deeds| :: Explained(h, allow, deeds[n], log[n], seen)
  {
    hide Sound, Named, Built, Coherent, Free, At, Durable, Explained;
    final, seen, txns, log := d0, [d0], map[], [];
    NothingNamed(h, allow, d0, txns);
    for n := 0 to |deeds|
      invariant AllNamed(h, allow, seen) && Sound(h, allow, final, txns)
      invariant |log| == n && forall k | 0 <= k < n :: Explained(h, allow, deeds[k], log[k], seen)
    {
      assert deeds[n] in deeds;
      ghost var was := seen;
      ghost var entry;
      final, seen, txns, entry := DoDeed(h, allow, deeds[n], final, seen, txns);
      SoundParts(h, allow, final, txns);
      ExplainedLater(h, allow, deeds, log, was, seen);
      log := log + [entry];
    }
    SoundParts(h, allow, final, txns);
    ghost var was := seen;
    seen := seen + [final];
    ExplainedLater(h, allow, deeds, log, was, seen);
  }

  /** A call that returned: where it began and ended, and what it found. */
  datatype Outcome = Outcome(d: Disk, txns: map<bool, Txn>, r: Result, d': Disk, course: Course)

  /** The entry of a call that was not cut short gives its result, and the result means what it says. */
  ghost predicate Explained(h: Hash, allow: AllowPath, deed: Deed, entry: Option<Outcome>, seen: seq<Disk>) {
    (deed.Install? || deed.Boot?) && deed.cut == Returns ==>
      && entry.Some? && var o := entry.value;
      && o.d in seen && o.d' in seen && Sound(h, allow, o.d, o.txns)
      && (deed.Install? ==> Distinct(deed.plan.members) && Orchestrated(h, deed.plan, o.d, o.txns, o.r, o.d', o.course))
      && (deed.Boot? ==> Booted(o.d, o.txns, o.r, o.d'))
  }

  lemma ExplainedLater(h: Hash, allow: AllowPath, deeds: seq<Deed>, log: seq<Option<Outcome>>, seen: seq<Disk>,
                       seen': seq<Disk>)
    requires |log| <= |deeds| && seen <= seen'
    requires forall k | 0 <= k < |log| :: Explained(h, allow, deeds[k], log[k], seen)
    ensures forall k | 0 <= k < |log| :: Explained(h, allow, deeds[k], log[k], seen')
  {
    hide Orchestrated, Booted, Sound, Distinct;
    assert forall x | x in seen :: x in seen';
  }

  /** One deed, and the state after it as the last one seen. */
  method DoDeed(h: Hash, allow: AllowPath, deed: Deed, d: Disk, states: seq<Disk>, ghost known: map<bool, Txn>)
    returns (final: Disk, seen: seq<Disk>, ghost txns: map<bool, Txn>, ghost entry: Option<Outcome>)
    requires AllNamed(h, allow, states) && Sound(h, allow, d, known) && (deed.Install? ==> Built(deed.plan))
    ensures AllNamed(h, allow, seen) && Sound(h, allow, final, txns) && states <= seen
    ensures Explained(h, allow, deed, entry, seen)
  {
    hide Sound, Named, Coherent, Free, At, Durable, Explained, Built;
    final, seen, txns, entry := d, states, known, None;
    var decided := IsDecided(final);
    if !decided {
      final, seen := Blackout(h, allow, final, seen, txns);
    }
    SoundParts(h, allow, final, txns);
    seen := seen + [final];
    match deed {
      case Install(plan, cut) =>
        final, seen, txns, entry := DoInstall(h, allow, plan, cut, final, seen, txns);
      case Boot(cut) =>
        final, seen, entry := DoBoot(h, allow, cut, final, seen, txns);
      case Change(path, image) =>
        if Free(h, allow, final, path) {
          ghost var before := final;
          final := final[Root(path) := Cell(image, {image})];
          ChangeIsSound(h, allow, before, txns, path, image, final);
        }
        SoundParts(h, allow, final, txns);
        seen := seen + [final];
        assert Explained(h, allow, deed, entry, seen) by { ChangeIsExplained(h, allow, deed, entry, seen); }
    }
  }

  lemma ChangeIsExplained(h: Hash, allow: AllowPath, deed: Deed, entry: Option<Outcome>, seen: seq<Disk>)
    requires deed.Change?
    ensures Explained(h, allow, deed, entry, seen)
  {
  }

  method DoInstall(h: Hash, allow: AllowPath, plan: Plan, cut: Cut, d: Disk, states: seq<Disk>,
                   ghost known: map<bool, Txn>)
    returns (final: Disk, seen: seq<Disk>, ghost txns: map<bool, Txn>, ghost entry: Option<Outcome>)
    requires AllNamed(h, allow, states) && Sound(h, allow, d, known) && Built(plan) && Durable(d, Active) && d in states
    ensures AllNamed(h, allow, seen) && Sound(h, allow, final, txns) && states <= seen
    ensures Explained(h, allow, Install(plan, cut), entry, seen)
  {
    hide Sound, Named, Coherent, At, Durable, Orchestrated;
    var r, whole, later;
    ghost var course;
    r, whole, later, txns, course := Orchestrate(h, allow, plan, d, Anything, known);
    entry := Some(Outcome(d, known, r, whole, course));
    final, seen := EndCall(h, allow, cut, whole, later, d, states, txns);
    SoundParts(h, allow, final, txns);
    seen := seen + [final];
    assert final in seen && states <= seen;
  }

  method DoBoot(h: Hash, allow: AllowPath, cut: Cut, d: Disk, states: seq<Disk>, ghost txns: map<bool, Txn>)
    returns (final: Disk, seen: seq<Disk>, ghost entry: Option<Outcome>)
    requires AllNamed(h, allow, states) && Sound(h, allow, d, txns) && Durable(d, Active) && d in states
    ensures AllNamed(h, allow, seen) && Sound(h, allow, final, txns) && states <= seen
    ensures Explained(h, allow, Boot(cut), entry, seen)
  {
    hide Sound, Named, Coherent, At, Durable, Booted;
    var r, whole, later := BootRecovery(h, allow, d, Anything, txns);
    entry := Some(Outcome(d, txns, r, whole, Course(None, false, whole, None)));
    final, seen := EndCall(h, allow, cut, whole, later, d, states, txns);
    SoundParts(h, allow, final, txns);
    seen := seen + [final];
    assert final in seen && states <= seen;
  }

  /** The power fails. */
  method Blackout(h: Hash, allow: AllowPath, d: Disk, seen: seq<Disk>, ghost txns: map<bool, Txn>)
    returns (d': Disk, seen': seq<Disk>)
    requires Sound(h, allow, d, txns) && AllNamed(h, allow, seen)
    ensures Sound(h, allow, d', txns) && Durable(d', Active) && AllNamed(h, allow, seen') && seen <= seen'
  {
    hide Named, Led, Traced, PowerLoss, Durable, At;
    d' := LosePower(d);
    PowerLossIsSound(h, allow, d, txns, d');
    seen' := seen + [d'];
  }

  lemma NothingNamed(h: Hash, allow: AllowPath, d: Disk, txns: map<bool, Txn>)
    requires Coherent(d) && At(d, Active) == Cell(ABSENT, {ABSENT}) && forall l: Loc | l.Root? :: Durable(d, l)
    ensures Sound(h, allow, d, txns) && Named(h, allow, d)
  {
    NamesDiffer();
    hide SlotName, Coherent, Owed;
  }

  // --------------------------------------------------------- an undecided `active`

  /** The slot holds a completed transaction, and everything about it is durable. */
  ghost predicate Finished(h: Hash, allow: AllowPath, d: Disk, s: bool) {
    var j := At(d, Slot(s, JournalEntry)).now;
    && j.kind != 0 && Decode(h, allow, j).Some?
    && Mine(h, d, s, CompletedEntry, j) && At(d, Slot(s, RolledBackEntry)).now.kind == 0
  }

  lemma FinishedIsDisposable(h: Hash, allow: AllowPath, d: Disk, d': Disk, s: bool)
    requires Finished(h, allow, d, s) && SlotSame(d, d', s)
    ensures Disposable(h, allow, d', s) && !Muddled(h, allow, d', s)
  {
    hide Decode, At;
  }

  /**
   * What a run leaves whose publication of `active` slips: its own journal, and an
   * `active` that may name either slot.
   */
  lemma SlippedRun(t: Txn, d0: Disk, d: Disk)
    requires t.Valid() && t.Running(d0, d) && (forall e :: At(d0, t.Here(e)) == Cell(ABSENT, {ABSENT}))
    requires d == Slipped(WithJournal(d0, t.slot, t.journal), t.slot)
    ensures t.Safe(d) && !t.Closed(d) && Installed(t, d)
    ensures At(d, Active) == Cell(SlotName(t.slot), At(d0, Active).poss + {SlotName(t.slot)})
            && SlotSame(d0, d, !t.slot)
  {
    RunningIsSafe(t, d0, d);
    hide Txn.Safe, SlotName;
    assert forall l | l != Active && l != t.Here(JournalEntry) :: At(d, l) == At(d0, l);
  }

  /** A journal and no terminal marker. */
  ghost predicate Installed(t: Txn, d: Disk) {
    At(d, t.Here(JournalEntry)).now == t.journal && !t.Marked(d, CompletedEntry)
  }

  lemma RecoveryIsElsewhere(t: Txn, d: Disk, d': Disk)
    requires t.Recovering(d, d')
    ensures At(d', Active) == At(d, Active) && SlotSame(d, d', !t.slot)
  {
    hide Txn.Safe, Txn.Closed, At;
  }

  /**
   * The power loss in between is needed. From a device whose slot `!s` holds the
   * completed transaction that `active` names, any plan that can be started comes
   * to this: the publication of `active` is visible but not synchronised, so the
   * run stops; the next call recovers what `active` shows, rolls it back, and
   * empties the other slot, with nothing going wrong. `active` may then still name
   * the slot that was emptied.
   */
  method UndecidedActive(h: Hash, allow: AllowPath, s: bool, p: Plan, d0: Disk)
    returns (d: Disk, run: Result, named: Option<Option<bool>>, recovered: Result, retired: bool)
    requires Built(p) && Startable(allow, s, p, d0) && FreshSlot(s, p, d0)
    requires forall e :: At(d0, Slot(s, e)) == Cell(ABSENT, {ABSENT})
    requires Finished(h, allow, d0, !s) && At(d0, Active) == Cell(SlotName(!s), {SlotName(!s)})
    ensures run == RecoveryRequired && named == Some(Some(s)) && recovered == RolledBack && retired
    ensures MayName(d, !s) && At(d, Slot(!s, JournalEntry)) == Cell(ABSENT, {ABSENT}) && !Named(h, allow, d)
  {
    hide Txn.Safe, Txn.Closed, Txn.Running, Txn.Recovering, Encodable, JournalFile, MarkFile, SlotName, Decode, At,
         SlotSame, Disposable, Muddled, Finished, Emptying, Coherent, FreshSlot, Startable;
    ghost var t := RunTxn(h, s, p, true);
    assert Encodable(p) && Carried(h, allow, t, s) by { StartableIsCarried(h, allow, s, p, d0, t); }
    var m := new Installer(h, allow, s, d0, ActiveSlips);
    run := m.Run(p, t);
    var d1 := m.disk;
    SlippedRun(t, d0, d1);
    var n := new Installer(h, allow, s, d1, Nothing);
    named := ReadActive(n);
    recovered := n.Recover(t);
    var d2 := n.disk;
    RecoveryIsElsewhere(t, d1, d2);
    SameTwice(d0, d1, d2, !s);
    FinishedIsDisposable(h, allow, d0, d2, !s);
    assert Coherent(d2) by {
      assert Kept(t, d1);
      RecoveringIsKept(t, d1, d2);
    }
    var q := new Installer(h, allow, !s, d2, Nothing);
    retired := RetireSlot(q);
    d := q.disk;
    assert At(d, Active) == At(d2, Active) by { EmptyingIsElsewhere(d2, d, !s); }
    NoPlanInAbsent(h, allow);
  }

  lemma EmptyingIsElsewhere(d: Disk, d': Disk, s: bool)
    requires Emptying(d, d', s)
    ensures At(d', Active) == At(d, Active)
  {
    hide At;
  }

  lemma StartableIsCarried(h: Hash, allow: AllowPath, s: bool, p: Plan, d: Disk, t: Txn)
    requires Built(p) && Startable(allow, s, p, d) && t == RunTxn(h, s, p, true)
    ensures Encodable(p) && Carried(h, allow, t, s)
  {
    assert forall i | 0 <= i < |p.members| :: p.members[i] in p.members;
    hide Encodable, JournalFile, MarkFile;
  }
}
