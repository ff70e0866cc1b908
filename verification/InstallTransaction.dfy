/**
 * The installer's crash-safe transaction: journal, boot gates, cutover marker,
 * payload, terminal marker; and the recovery that may run any number of times.
 */
module InstallTransaction {
  import opened Base
  import opened InstallJournal
  import opened InstallDisk

  datatype Result = Completed | RolledBack | WaitCf | Unchanged | Refused | RecoveryRequired

  /** A marker holds the digest of the journal it belongs to. */
  function MarkFile(h: Hash, j: File): File {
    File(REGULAR, MODE_0600, Digest(h, j.data))
  }

  function SlotName(slot: bool): File {
    File(REGULAR, MODE_0600, if slot then [115, 108, 111, 116, 49] else [115, 108, 111, 116, 48])
  }

  // ------------------------------------------------------------ the invariant

  /**
   * One transaction. `edits` says that others may change members that are not
   * gates while no cutover marker exists.
   */
  datatype Txn = Txn(slot: bool, plan: Plan, journal: File, mark: File, edits: bool) {
    ghost predicate Valid() {
      Distinct(plan.members) && journal.kind == REGULAR && mark.kind == REGULAR
    }

    function Here(e: Entry): Loc { Slot(slot, e) }

    function Poss(d: Disk, e: Entry): set<File> { At(d, Here(e)).poss }

    function Images(d: Disk, i: nat): set<File>
      requires i < |plan.members|
    {
      At(d, Root(plan.members[i].path)).poss
    }

    ghost predicate Either(d: Disk, gates: bool) {
      forall i | 0 <= i < |plan.members| && plan.members[i].Gate() == gates ::
        Images(d, i) <= {plan.members[i].before, plan.members[i].after}
    }

    ghost predicate Before(d: Disk, gates: bool) {
      forall i | 0 <= i < |plan.members| && plan.members[i].Gate() == gates ::
        Images(d, i) == {plan.members[i].before}
    }

    ghost predicate After(d: Disk, gates: bool) {
      forall i | 0 <= i < |plan.members| && plan.members[i].Gate() == gates ::
        Images(d, i) == {plan.members[i].after}
    }

    ghost predicate AllBefore(d: Disk) { Before(d, true) && Before(d, false) }

    ghost predicate AllAfter(d: Disk) { After(d, true) && After(d, false) }

    /** Some member cannot be put back while CompactFlash is missing. */
    ghost predicate NeedsCf() {
      exists i | 0 <= i < |plan.members| :: plan.members[i].Gate() || plan.members[i].OnCf()
    }

    /** Every member that does not need CompactFlash has its before-image. */
    ghost predicate RestBefore(d: Disk) {
      forall i | 0 <= i < |plan.members| && !plan.members[i].Gate() && !plan.members[i].OnCf() ::
        Images(d, i) == {plan.members[i].before}
    }

    /** The members that need CompactFlash are as in `d0`. */
    ghost predicate LateSame(d0: Disk, d: Disk) {
      forall i | 0 <= i < |plan.members| && (plan.members[i].Gate() || plan.members[i].OnCf()) ::
        At(d, Root(plan.members[i].path)) == At(d0, Root(plan.members[i].path))
    }

    /** The pass over the gates, or over the others, leaves this one for when CompactFlash is there. */
    ghost predicate Late(i: nat, gates: bool, cf: bool, cutover: bool)
      requires i < |plan.members|
    {
      plan.members[i].Gate() == gates && !cf && cutover && (gates || plan.members[i].OnCf())
    }

    ghost predicate Waits(gates: bool, cf: bool, cutover: bool) {
      exists i | 0 <= i < |plan.members| :: Late(i, gates, cf, cutover)
    }

    /** What a pass has to put back: gates always, payload only after a cutover. */
    ghost predicate Due(i: nat, gates: bool, cf: bool, cutover: bool)
      requires i < |plan.members|
    {
      plan.members[i].Gate() == gates && (gates || cutover) && !Late(i, gates, cf, cutover)
    }

    ghost predicate PutBack(d: Disk, n: nat, gates: bool, cf: bool, cutover: bool) {
      forall i | 0 <= i < n && i < |plan.members| && Due(i, gates, cf, cutover) ::
        Images(d, i) == {plan.members[i].before}
    }

    ghost predicate Left(d0: Disk, d: Disk, gates: bool, cf: bool, cutover: bool) {
      forall i | 0 <= i < |plan.members| && !Due(i, gates, cf, cutover) ::
        At(d, Root(plan.members[i].path)) == At(d0, Root(plan.members[i].path))
    }

    /** A slot entry is absent or holds `f`, and is visible once it may survive. */
    ghost predicate Binary(d: Disk, e: Entry, f: File) {
      Poss(d, e) <= {ABSENT, f} && (f in Poss(d, e) ==> At(d, Here(e)).now == f)
    }

    ghost predicate Never(d: Disk, e: Entry) { Poss(d, e) == {ABSENT} }

    ghost predicate Marked(d: Disk, e: Entry) { mark in Poss(d, e) }

    /** The slot holds nothing but entries of this transaction. */
    ghost predicate Entries(d: Disk) {
      && Coherent(d)
      && Binary(d, JournalEntry, journal)
      && Binary(d, CutoverEntry, mark) && Binary(d, CompletedEntry, mark) && Binary(d, RolledBackEntry, mark)
    }

    /** One terminal marker, for good: from here on others may change every file of the installed set. */
    ghost predicate Closed(d: Disk) {
      && Entries(d)
      && if Never(d, RolledBackEntry) then Poss(d, CompletedEntry) == {mark} && Poss(d, JournalEntry) == {journal}
         else Poss(d, RolledBackEntry) == {mark} && Never(d, CompletedEntry)
    }

    /** What holds of the disk at every moment of the transaction's life. */
    ghost predicate Safe(d: Disk) {
      && Entries(d)
      && Either(d, true)
      && (Marked(d, CutoverEntry) ==> Either(d, false))
      // the journal is durable before anything else changes
      && (ABSENT in Poss(d, JournalEntry) ==>
            Before(d, true) && Never(d, CutoverEntry) && Never(d, CompletedEntry))
      // the cutover marker is durable before any payload changes
      && (ABSENT in Poss(d, CutoverEntry) ==> Never(d, CompletedEntry))
      && (ABSENT in Poss(d, CutoverEntry) && (Marked(d, CutoverEntry) || !edits) ==> Before(d, false))
      // terminal markers
      && (Marked(d, CompletedEntry) ==> AllAfter(d) && Never(d, RolledBackEntry))
      && (Marked(d, RolledBackEntry) ==> Before(d, true) && (Marked(d, CutoverEntry) ==> Before(d, false)))
      // gates stay installed while any payload may be half done
      && GatesHold(d)
    }

    ghost predicate GatesHold(d: Disk) {
      Marked(d, CutoverEntry) && !Before(d, false) ==> After(d, true)
    }

    /** What restoring may change: members (payload only once cutover is possible) and its own marker. */
    ghost predicate Restoring(d0: Disk, d: Disk) {
      && Safe(d)
      && (forall l | At(d, l) != At(d0, l) ::
            l == Here(RolledBackEntry) || (l.Root? && exists m | m in plan.members :: m.path == l.path))
      && Poss(d, RolledBackEntry) <= Poss(d0, RolledBackEntry) + {mark}
      && (!Marked(d0, CutoverEntry) ==> PayloadSame(d0, d))
    }

    /** Members that are not gates, and their images, are as in `d0`. */
    ghost predicate PayloadSame(d0: Disk, d: Disk) {
      forall i | 0 <= i < |plan.members| && !plan.members[i].Gate() ::
        At(d, Root(plan.members[i].path)) == At(d0, Root(plan.members[i].path))
    }

    /** What a whole recovery may change. */
    ghost predicate Recovering(d0: Disk, d: Disk) {
      && (Safe(d0) ==> Safe(d)) && (Closed(d0) ==> Closed(d))
      && (forall l | At(d, l) != At(d0, l) ::
            (l.Slot? && l.slot == slot) || (l.Root? && exists m | m in plan.members :: m.path == l.path))
      && (!Marked(d0, CutoverEntry) ==> PayloadSame(d0, d))
      && (forall e :: Poss(d, e) <= Poss(d0, e) + if e == RolledBackEntry then {mark} else {})
      && (forall e | e != RolledBackEntry :: At(d, Here(e)).now == At(d0, Here(e)).now)
      && (Closed(d0) ==> RootSame(d0, d))
    }

    /** `active` names this transaction's slot for good. */
    ghost predicate Pointed(d: Disk) { At(d, Active).poss == {SlotName(slot)} }

    /** No file of the installed set, and no image of one, has changed. */
    ghost predicate RootSame(d0: Disk, d: Disk) {
      forall l: Loc | l.Root? :: At(d, l) == At(d0, l)
    }

    /** What a run may change: nothing but gates before the cutover marker may exist, those
        only once `active` is durable, and `active` once the journal is. */
    ghost predicate Running(d0: Disk, d: Disk) {
      && Safe(d)
      && Elsewhere(d0, d)
      && (!Marked(d, CutoverEntry) ==> PayloadSame(d0, d))
      && (!Pointed(d) ==> RootSame(d0, d))
      && (At(d, Active) != At(d0, Active) ==>
            Poss(d, JournalEntry) == {journal} && At(d, Active).poss <= At(d0, Active).poss + {SlotName(slot)})
    }

    /** Only this slot, the members and `active` may differ from `d0`. */
    ghost predicate Elsewhere(d0: Disk, d: Disk) {
      forall l | At(d, l) != At(d0, l) ::
        l == Active || (l.Slot? && l.slot == slot) || (l.Root? && exists m | m in plan.members :: m.path == l.path)
    }
  }

  /** The transaction can be recovered, or has ended for good. */
  ghost predicate Kept(t: Txn, d: Disk) { t.Safe(d) || t.Closed(d) }

  lemma SafeSurvivesPowerLoss(t: Txn, d: Disk, d': Disk)
    requires t.Valid() && t.Safe(d) && PowerLoss(d, d')
    ensures t.Safe(d') && Settled(d')
  {
    hide At, Published;
    forall e ensures At(d', t.Here(e)).now in t.Poss(d, e) && t.Poss(d', e) == {At(d', t.Here(e)).now} {
    }
    forall i | 0 <= i < |t.plan.members| ensures t.Images(d', i) <= t.Images(d, i) {
    }
  }

  lemma ClosedSurvivesPowerLoss(t: Txn, d: Disk, d': Disk)
    requires t.Valid() && t.Closed(d) && PowerLoss(d, d')
    ensures t.Closed(d')
  {
    forall e ensures At(d', t.Here(e)).now in t.Poss(d, e) && t.Poss(d', e) == {At(d', t.Here(e)).now} {
    }
    hide At;
  }

  // ------------------------------------- what each kind of publication keeps

  /** The effect of one publication on member `i`, and on nothing else. */
  lemma PublishMember(t: Txn, d: Disk, i: nat, f: File, ok: bool, d': Disk)
    requires t.Valid() && Coherent(d) && i < |t.plan.members|
    requires Published(d, Root(t.plan.members[i].path), f, ok, d')
    ensures Coherent(d')
    ensures forall e :: At(d', t.Here(e)) == At(d, t.Here(e))
    ensures forall k | 0 <= k < |t.plan.members| && k != i ::
              At(d', Root(t.plan.members[k].path)) == At(d, Root(t.plan.members[k].path))
    ensures ok ==> t.Images(d', i) == {f}
    ensures t.Images(d', i) == t.Images(d, i) || t.Images(d', i) == {f} || t.Images(d', i) == t.Images(d, i) + {f}
    ensures t.Elsewhere(d, d')
  {
    assert forall k | 0 <= k < |t.plan.members| && k != i :: t.plan.members[k].path != t.plan.members[i].path;
    assert forall l | l != Root(t.plan.members[i].path) :: At(d', l) == At(d, l);
    assert t.plan.members[i] in t.plan.members;
  }

  lemma OtherClass(t: Txn, d: Disk, i: nat, d': Disk)
    requires i < |t.plan.members|
    requires forall k | 0 <= k < |t.plan.members| && k != i ::
               At(d', Root(t.plan.members[k].path)) == At(d, Root(t.plan.members[k].path))
    ensures var other := !t.plan.members[i].Gate();
            && (t.Before(d', other) <==> t.Before(d, other))
            && (t.After(d', other) <==> t.After(d, other))
            && (t.Either(d', other) <==> t.Either(d, other))
  {
    hide At;
  }

  /** Restoring a before-image, gates only once no payload is half done. */
  lemma RestoreKeeps(t: Txn, d: Disk, i: nat, ok: bool, d': Disk)
    requires t.Valid() && t.Safe(d) && !t.Marked(d, CompletedEntry) && i < |t.plan.members|
    requires Published(d, Root(t.plan.members[i].path), t.plan.members[i].before, ok, d')
    requires if t.plan.members[i].Gate() then t.Marked(d, CutoverEntry) ==> t.Before(d, false)
             else t.Marked(d, CutoverEntry)
    ensures t.Safe(d')
    ensures t.Before(d, true) ==> t.Before(d', true)
    ensures t.Before(d, false) ==> t.Before(d', false)
  {
    RestoreClasses(t, d, i, ok, d');
    RestoreSafe(t, d, i, d');
  }

  lemma RestoreClasses(t: Txn, d: Disk, i: nat, ok: bool, d': Disk)
    requires t.Valid() && Coherent(d) && i < |t.plan.members|
    requires Published(d, Root(t.plan.members[i].path), t.plan.members[i].before, ok, d')
    ensures Coherent(d') && forall e :: At(d', t.Here(e)) == At(d, t.Here(e))
    ensures forall g :: (t.Before(d, g) ==> t.Before(d', g)) && (t.Either(d, g) ==> t.Either(d', g))
    ensures t.After(d, !t.plan.members[i].Gate()) ==> t.After(d', !t.plan.members[i].Gate())
    ensures t.Before(d', !t.plan.members[i].Gate()) ==> t.Before(d, !t.plan.members[i].Gate())
  {
    PublishMember(t, d, i, t.plan.members[i].before, ok, d');
    OtherClass(t, d, i, d');
    SameClass(t, d, i, d');
    hide At, Published, Txn.Images, Txn.Before, Txn.Either, Txn.After;
  }

  lemma RestoreSafe(t: Txn, d: Disk, i: nat, d': Disk)
    requires t.Valid() && t.Safe(d) && !t.Marked(d, CompletedEntry) && i < |t.plan.members|
    requires Coherent(d') && forall e :: At(d', t.Here(e)) == At(d, t.Here(e))
    requires forall g :: (t.Before(d, g) ==> t.Before(d', g)) && (t.Either(d, g) ==> t.Either(d', g))
    requires t.After(d, !t.plan.members[i].Gate()) ==> t.After(d', !t.plan.members[i].Gate())
    requires t.Before(d', !t.plan.members[i].Gate()) ==> t.Before(d, !t.plan.members[i].Gate())
    requires if t.plan.members[i].Gate() then t.Marked(d, CutoverEntry) ==> t.Before(d, false)
             else t.Marked(d, CutoverEntry)
    ensures t.Safe(d')
  {
    hide At, Coherent, Member.Gate, Txn.Before, Txn.Either, Txn.After;
  }

  lemma SameClass(t: Txn, d: Disk, i: nat, d': Disk)
    requires i < |t.plan.members|
    requires forall k | 0 <= k < |t.plan.members| && k != i ::
               At(d', Root(t.plan.members[k].path)) == At(d, Root(t.plan.members[k].path))
    requires t.Images(d', i) <= t.Images(d, i) + {t.plan.members[i].before} && t.Images(d', i) != {}
    ensures var g := t.plan.members[i].Gate();
            && (t.Before(d, g) ==> t.Before(d', g))
            && (t.Either(d, g) ==> t.Either(d', g))
  {
    hide At;
  }

  /** Installing an after-image: gates before cutover, anything after it. */
  lemma InstallKeeps(t: Txn, d: Disk, i: nat, ok: bool, d': Disk)
    requires t.Valid() && t.Safe(d) && i < |t.plan.members|
    requires Published(d, Root(t.plan.members[i].path), t.plan.members[i].after, ok, d')
    requires t.Never(d, CompletedEntry) && t.Never(d, RolledBackEntry) && ABSENT !in t.Poss(d, JournalEntry)
    requires if t.plan.members[i].Gate() then t.Marked(d, CutoverEntry) ==> t.After(d, true)
             else ABSENT !in t.Poss(d, CutoverEntry) && t.After(d, true)
    ensures t.Safe(d')
    ensures t.After(d, true) ==> t.After(d', true)
    ensures t.After(d, false) ==> t.After(d', false)
    ensures t.plan.members[i].Gate() && t.Before(d, false) ==> t.Before(d', false)
  {
    InstallClasses(t, d, i, ok, d');
    InstallSafe(t, d, i, d');
    hide Txn.Safe, Published, Txn.Before, Txn.After;
  }

  lemma InstallClasses(t: Txn, d: Disk, i: nat, ok: bool, d': Disk)
    requires t.Valid() && Coherent(d) && i < |t.plan.members|
    requires Published(d, Root(t.plan.members[i].path), t.plan.members[i].after, ok, d')
    ensures Coherent(d') && forall e :: At(d', t.Here(e)) == At(d, t.Here(e))
    ensures forall g :: (t.After(d, g) ==> t.After(d', g)) && (t.Either(d, g) ==> t.Either(d', g))
    ensures t.Before(d, !t.plan.members[i].Gate()) <==> t.Before(d', !t.plan.members[i].Gate())
  {
    PublishMember(t, d, i, t.plan.members[i].after, ok, d');
    OtherClass(t, d, i, d');
    SameClassAfter(t, d, i, d');
    hide At, Published, Txn.Images, Txn.Before, Txn.Either, Txn.After;
  }

  lemma SameClassAfter(t: Txn, d: Disk, i: nat, d': Disk)
    requires i < |t.plan.members|
    requires forall k | 0 <= k < |t.plan.members| && k != i ::
               At(d', Root(t.plan.members[k].path)) == At(d, Root(t.plan.members[k].path))
    requires t.Images(d', i) <= t.Images(d, i) + {t.plan.members[i].after} && t.Images(d', i) != {}
    ensures var g := t.plan.members[i].Gate();
            && (t.After(d, g) ==> t.After(d', g))
            && (t.Either(d, g) ==> t.Either(d', g))
  {
    hide At;
  }

  lemma InstallSafe(t: Txn, d: Disk, i: nat, d': Disk)
    requires t.Valid() && t.Safe(d) && i < |t.plan.members|
    requires Coherent(d') && forall e :: At(d', t.Here(e)) == At(d, t.Here(e))
    requires forall g :: (t.After(d, g) ==> t.After(d', g)) && (t.Either(d, g) ==> t.Either(d', g))
    requires t.Before(d, !t.plan.members[i].Gate()) <==> t.Before(d', !t.plan.members[i].Gate())
    requires t.Never(d, CompletedEntry) && t.Never(d, RolledBackEntry) && ABSENT !in t.Poss(d, JournalEntry)
    requires if t.plan.members[i].Gate() then t.Marked(d, CutoverEntry) ==> t.After(d, true)
             else ABSENT !in t.Poss(d, CutoverEntry) && t.After(d, true)
    ensures t.Safe(d')
  {
    hide At, Coherent, Member.Gate, Txn.Before, Txn.Either, Txn.After;
  }

  /** The effect of one publication on a slot entry, and on nothing else. */
  lemma PublishEntry(t: Txn, d: Disk, e: Entry, f: File, ok: bool, d': Disk)
    requires Coherent(d) && Published(d, t.Here(e), f, ok, d')
    ensures Coherent(d')
    ensures forall x | x != e :: At(d', t.Here(x)) == At(d, t.Here(x))
    ensures forall i | 0 <= i < |t.plan.members| ::
              At(d', Root(t.plan.members[i].path)) == At(d, Root(t.plan.members[i].path))
    ensures ok ==> t.Poss(d', e) == {f} && At(d', t.Here(e)).now == f
    ensures At(d', t.Here(e)) == At(d, t.Here(e))
         || (At(d', t.Here(e)).now == f && t.Poss(d', e) <= t.Poss(d, e) + {f})
    ensures t.Elsewhere(d, d') && t.PayloadSame(d, d')
  {
    assert forall l | l != t.Here(e) :: At(d', l) == At(d, l);
  }

  lemma JournalKeeps(t: Txn, d: Disk, ok: bool, d': Disk)
    requires t.Valid() && t.Safe(d) && Published(d, t.Here(JournalEntry), t.journal, ok, d')
    ensures t.Safe(d')
  {
    hide At, Published;
    PublishEntry(t, d, JournalEntry, t.journal, ok, d');
  }

  lemma CutoverKeeps(t: Txn, d: Disk, ok: bool, d': Disk)
    requires t.Valid() && t.Safe(d) && Published(d, t.Here(CutoverEntry), t.mark, ok, d')
    requires ABSENT !in t.Poss(d, JournalEntry) && t.Before(d, false) && t.After(d, true)
    requires t.Never(d, CompletedEntry) && t.Never(d, RolledBackEntry)
    ensures t.Safe(d')
  {
    hide At, Published;
    PublishEntry(t, d, CutoverEntry, t.mark, ok, d');
  }

  lemma CompletedKeeps(t: Txn, d: Disk, ok: bool, d': Disk)
    requires t.Valid() && t.Safe(d) && Published(d, t.Here(CompletedEntry), t.mark, ok, d')
    requires ABSENT !in t.Poss(d, JournalEntry) && ABSENT !in t.Poss(d, CutoverEntry)
    requires t.AllAfter(d) && t.Never(d, RolledBackEntry)
    ensures t.Safe(d')
  {
    hide At, Published;
    PublishEntry(t, d, CompletedEntry, t.mark, ok, d');
  }

  lemma RolledBackKeeps(t: Txn, d: Disk, ok: bool, d': Disk)
    requires t.Valid() && t.Safe(d) && Published(d, t.Here(RolledBackEntry), t.mark, ok, d')
    requires !t.Marked(d, CompletedEntry)
    requires t.Before(d, true) && (t.Marked(d, CutoverEntry) ==> t.Before(d, false))
    ensures t.Safe(d')
  {
    hide At, Published;
    PublishEntry(t, d, RolledBackEntry, t.mark, ok, d');
  }

  lemma RestoringIsSafe(t: Txn, d0: Disk, d: Disk)
    requires t.Restoring(d0, d)
    ensures t.Safe(d)
  {
  }

  lemma RestoringStep(t: Txn, d0: Disk, d: Disk, i: nat, ok: bool, d': Disk)
    requires t.Valid() && i < |t.plan.members|
    requires t.Restoring(d0, d) && t.Safe(d')
    requires Published(d, Root(t.plan.members[i].path), t.plan.members[i].before, ok, d')
    requires t.plan.members[i].Gate() || t.Marked(d0, CutoverEntry)
    ensures t.Restoring(d0, d')
  {
    PublishMember(t, d, i, t.plan.members[i].before, ok, d');
    assert forall l | l != Root(t.plan.members[i].path) :: At(d', l) == At(d, l);
    assert t.plan.members[i] in t.plan.members;
  }

  lemma RestoringMark(t: Txn, d0: Disk, d: Disk, ok: bool, d': Disk)
    requires t.Restoring(d0, d) && t.Safe(d') && Published(d, t.Here(RolledBackEntry), t.mark, ok, d')
    ensures t.Restoring(d0, d')
  {
    PublishEntry(t, d, RolledBackEntry, t.mark, ok, d');
    assert forall l | l != t.Here(RolledBackEntry) :: At(d', l) == At(d, l);
  }

  /** What reading a marker says about its possible images. */
  lemma MarkRead(t: Txn, d: Disk, e: Entry)
    requires t.Valid() && t.Entries(d) && e != JournalEntry
    ensures At(d, t.Here(e)).now.kind == 0 <==> !t.Marked(d, e)
    ensures !t.Marked(d, e) ==> t.Never(d, e)
    ensures t.Marked(d, e) ==> At(d, t.Here(e)).now == t.mark
  {
    assert At(d, t.Here(e)).now in t.Poss(d, e);
  }

  lemma RunningRestoring(t: Txn, d0: Disk, d: Disk, d': Disk)
    requires t.Running(d0, d) && t.Restoring(d, d') && t.Pointed(d)
    ensures t.Running(d0, d') && t.Pointed(d') && (t.Marked(d, CutoverEntry) ==> t.Marked(d', CutoverEntry))
  {
    hide Txn.Safe;
    assert At(d', Active) == At(d, Active);
    assert At(d', t.Here(CutoverEntry)) == At(d, t.Here(CutoverEntry));
    assert At(d', t.Here(JournalEntry)) == At(d, t.Here(JournalEntry));
  }

  lemma RecoveringRestoring(t: Txn, d: Disk, d': Disk)
    requires t.Restoring(d, d') && !t.Closed(d)
    ensures t.Recovering(d, d')
  {
    hide Txn.Safe, Txn.Closed;
    assert forall e | e != RolledBackEntry :: At(d', t.Here(e)) == At(d, t.Here(e));
  }

  /** A member the plan does not change already holds its before-image. */
  lemma UnchangedMember(t: Txn, d: Disk, i: nat)
    requires t.Safe(d) && i < |t.plan.members| && t.plan.members[i].before == t.plan.members[i].after
    requires t.plan.members[i].Gate() || t.Marked(d, CutoverEntry)
    ensures t.Images(d, i) == {t.plan.members[i].before}
  {
    assert At(d, Root(t.plan.members[i].path)).now in t.Images(d, i);
  }

  /** One iteration of `restore` that publishes. */
  lemma RestoreStep(t: Txn, d0: Disk, d: Disk, i: nat, ok: bool, d': Disk)
    requires t.Valid() && i < |t.plan.members|
    requires t.Restoring(d0, d) && !t.Marked(d, CompletedEntry)
    requires Published(d, Root(t.plan.members[i].path), t.plan.members[i].before, ok, d')
    requires if t.plan.members[i].Gate() then t.Marked(d, CutoverEntry) ==> t.Before(d, false)
             else t.Marked(d, CutoverEntry) && t.Marked(d0, CutoverEntry)
    ensures t.Restoring(d0, d')
    ensures t.Before(d, true) ==> t.Before(d', true)
    ensures t.Before(d, false) ==> t.Before(d', false)
    ensures forall e :: At(d', t.Here(e)) == At(d, t.Here(e))
    ensures forall k | 0 <= k < |t.plan.members| && k != i ::
              At(d', Root(t.plan.members[k].path)) == At(d, Root(t.plan.members[k].path))
    ensures ok ==> t.Images(d', i) == {t.plan.members[i].before}
  {
    hide Txn.GatesHold, Txn.Either, Txn.Binary;
    PublishMember(t, d, i, t.plan.members[i].before, ok, d');
    RestoreKeeps(t, d, i, ok, d');
    RestoringStep(t, d0, d, i, ok, d');
  }

  lemma LateMeans(t: Txn, i: nat, gates: bool, cf: bool, cutover: bool)
    requires i < |t.plan.members|
    ensures var m := t.plan.members[i];
            && (t.Late(i, gates, cf, cutover) <==> m.Gate() == gates && !cf && cutover && (gates || m.OnCf()))
            && (t.Due(i, gates, cf, cutover)
                <==> m.Gate() == gates && (gates || cutover) && !t.Late(i, gates, cf, cutover))
  {
  }

  lemma LeftSelf(t: Txn, d: Disk, gates: bool, cf: bool, cutover: bool)
    ensures t.Left(d, d, gates, cf, cutover) && t.PutBack(d, 0, gates, cf, cutover)
  {
  }

  lemma PutBackSkips(t: Txn, d: Disk, i: nat, gates: bool, cf: bool, cutover: bool)
    requires t.PutBack(d, i, gates, cf, cutover) && i < |t.plan.members| && !t.Due(i, gates, cf, cutover)
    ensures t.PutBack(d, i + 1, gates, cf, cutover)
  {
    hide At, Txn.Due;
  }

  lemma PutBackGrows(t: Txn, d: Disk, i: nat, d': Disk, gates: bool, cf: bool, cutover: bool)
    requires t.PutBack(d, i, gates, cf, cutover) && i < |t.plan.members|
    requires t.Images(d', i) == {t.plan.members[i].before}
    requires forall k | 0 <= k < |t.plan.members| && k != i ::
               At(d', Root(t.plan.members[k].path)) == At(d, Root(t.plan.members[k].path))
    ensures t.PutBack(d', i + 1, gates, cf, cutover)
  {
    hide At, Txn.Due;
    forall k | 0 <= k < i + 1 && k < |t.plan.members| && t.Due(k, gates, cf, cutover)
      ensures t.Images(d', k) == {t.plan.members[k].before}
    {
      if k != i {
        assert t.Images(d', k) == t.Images(d, k);
      }
    }
  }

  lemma LeftGrows(t: Txn, d0: Disk, d: Disk, i: nat, d': Disk, gates: bool, cf: bool, cutover: bool)
    requires t.Left(d0, d, gates, cf, cutover) && i < |t.plan.members| && t.Due(i, gates, cf, cutover)
    requires forall k | 0 <= k < |t.plan.members| && k != i ::
               At(d', Root(t.plan.members[k].path)) == At(d, Root(t.plan.members[k].path))
    ensures t.Left(d0, d', gates, cf, cutover)
  {
    hide At, Txn.Due;
  }

  /** What the first pass of `restore` comes to. */
  lemma PayloadPass(t: Txn, d: Disk, d': Disk, cf: bool, cutover: bool)
    requires t.PutBack(d', |t.plan.members|, false, cf, cutover) && t.Left(d, d', false, cf, cutover)
    ensures cutover && cf ==> t.Before(d', false)
    ensures cutover && !cf ==> t.RestBefore(d') && t.LateSame(d, d')
    ensures !t.Waits(false, cf, cutover) && cutover ==> t.Before(d', false)
    ensures t.Waits(false, cf, cutover) ==> !cf && cutover && t.NeedsCf()
  {
    hide At;
  }

  /** What the second pass comes to. */
  lemma GatePass(t: Txn, d: Disk, d': Disk, cf: bool, cutover: bool)
    requires t.PutBack(d', |t.plan.members|, true, cf, cutover) && t.Left(d, d', true, cf, cutover)
    ensures !t.Waits(true, cf, cutover) ==> t.Before(d', true)
    ensures t.Before(d, false) ==> t.Before(d', false)
    ensures t.Waits(true, cf, cutover) ==> !cf && cutover && t.NeedsCf()
    ensures cutover && !cf && !t.Waits(true, cf, cutover) && !t.Waits(false, cf, cutover) ==> !t.NeedsCf()
  {
    hide At;
    if t.Before(d, false) {
      forall i | 0 <= i < |t.plan.members| && !t.plan.members[i].Gate()
        ensures t.Images(d', i) == {t.plan.members[i].before}
      {
        assert !t.Due(i, true, cf, cutover);
        assert t.Images(d', i) == t.Images(d, i);
      }
    }
    if cutover && !cf && t.NeedsCf() {
      var i :| 0 <= i < |t.plan.members| && (t.plan.members[i].Gate() || t.plan.members[i].OnCf());
      assert t.Late(i, t.plan.members[i].Gate(), cf, cutover);
    }
  }

  lemma RolledBackStep(t: Txn, d0: Disk, d: Disk, ok: bool, d': Disk)
    requires t.Valid() && t.Restoring(d0, d) && !t.Marked(d, CompletedEntry)
    requires Published(d, t.Here(RolledBackEntry), t.mark, ok, d')
    requires t.Before(d, true) && (t.Marked(d, CutoverEntry) ==> t.Before(d, false))
    ensures t.Restoring(d0, d') && t.Before(d', true)
    ensures t.Before(d, false) ==> t.Before(d', false)
    ensures ok ==> t.Poss(d', RolledBackEntry) == {t.mark}
  {
    RolledBackKeeps(t, d, ok, d');
    RestoringMark(t, d0, d, ok, d');
    PublishEntry(t, d, RolledBackEntry, t.mark, ok, d');
    hide Txn.Safe;
  }

  function Index(e: Entry): nat {
    match e
    case JournalEntry => 0
    case CutoverEntry => 1
    case CompletedEntry => 2
    case RolledBackEntry => 3
  }

  function Nth(k: nat): Entry {
    if k == 0 then JournalEntry else if k == 1 then CutoverEntry else if k == 2 then CompletedEntry else RolledBackEntry
  }

  ghost predicate Synced(slot: bool, d: Disk, d': Disk) {
    forall l :: At(d', l) == if l.Slot? && l.slot == slot then Cell(At(d, l).now, {At(d, l).now}) else At(d, l)
  }

  lemma RecoveringSelf(t: Txn, d: Disk)
    ensures t.Recovering(d, d)
  {
  }

  lemma JournalRead(t: Txn, d: Disk)
    requires t.Valid() && t.Entries(d)
    ensures At(d, t.Here(JournalEntry)).now == ABSENT || At(d, t.Here(JournalEntry)).now == t.journal
  {
    assert At(d, t.Here(JournalEntry)).now in t.Poss(d, JournalEntry);
  }

  /** The two terminal markers never coexist. */
  lemma TerminalOnce(t: Txn, d: Disk)
    requires (t.Safe(d) || t.Closed(d)) && t.mark.kind == REGULAR
    ensures !(t.Marked(d, CompletedEntry) && t.Marked(d, RolledBackEntry))
  {
  }

  lemma SyncedKeeps(t: Txn, d: Disk, d': Disk)
    requires t.Valid() && t.Entries(d) && Synced(t.slot, d, d')
    requires t.Marked(d, CompletedEntry) || t.Marked(d, RolledBackEntry)
    ensures t.Recovering(d, d')
    ensures t.Marked(d, CompletedEntry) ==> t.Poss(d', CompletedEntry) == {t.mark} && (t.Safe(d) ==> t.AllAfter(d'))
    ensures t.Marked(d, RolledBackEntry) ==>
              t.Poss(d', RolledBackEntry) == {t.mark} && (t.Safe(d) ==> t.Before(d', true))
    ensures t.Marked(d, RolledBackEntry) && t.Marked(d, CutoverEntry) && t.Safe(d) ==> t.Before(d', false)
    ensures forall l: Loc | l.Root? :: At(d', l) == At(d, l)
  {
    assert forall i | 0 <= i < |t.plan.members| ::
      At(d', Root(t.plan.members[i].path)) == At(d, Root(t.plan.members[i].path));
    forall e ensures At(d', t.Here(e)).now == At(d, t.Here(e)).now && t.Poss(d', e) == {At(d, t.Here(e)).now} {
    }
    SyncedIsClosed(t, d, d');
    if t.Safe(d) {
      SyncedIsSafe(t, d, d');
    }
    hide Txn.Safe, Txn.Closed, Txn.Entries;
  }

  lemma SyncedIsClosed(t: Txn, d: Disk, d': Disk)
    requires t.Valid() && Coherent(d) && Synced(t.slot, d, d')
    ensures t.Entries(d) ==> t.Entries(d')
    ensures t.Closed(d) ==> t.Closed(d')
  {
    forall e ensures At(d', t.Here(e)).now == At(d, t.Here(e)).now && t.Poss(d', e) == {At(d, t.Here(e)).now} {
    }
    hide At;
  }

  lemma SyncedIsSafe(t: Txn, d: Disk, d': Disk)
    requires t.Valid() && t.Safe(d) && Synced(t.slot, d, d')
    requires t.Marked(d, CompletedEntry) || t.Marked(d, RolledBackEntry)
    ensures t.Safe(d')
    ensures t.Marked(d, CompletedEntry) ==> t.AllAfter(d')
    ensures t.Marked(d, RolledBackEntry) ==> t.Before(d', true) && (t.Marked(d, CutoverEntry) ==> t.Before(d', false))
  {
    assert forall i | 0 <= i < |t.plan.members| ::
      At(d', Root(t.plan.members[i].path)) == At(d, Root(t.plan.members[i].path));
    forall e ensures At(d', t.Here(e)).now == At(d, t.Here(e)).now && t.Poss(d', e) == {At(d, t.Here(e)).now} {
    }
  }

  /** Others change a payload member before any cutover. */
  lemma EditIsSafe(t: Txn, d: Disk, i: nat, f: File, d': Disk)
    requires t.Valid() && t.edits && t.Safe(d)
    requires i < |t.plan.members| && !t.plan.members[i].Gate() && !t.Marked(d, CutoverEntry)
    requires d' == d[Root(t.plan.members[i].path) := Cell(f, {f})]
    ensures t.Safe(d') && forall e :: At(d', t.Here(e)) == At(d, t.Here(e))
  {
    PublishMember(t, d, i, f, true, d');
    OtherClass(t, d, i, d');
    MarkRead(t, d, CutoverEntry);
    hide At, Coherent, Txn.Before, Txn.Either, Txn.After;
  }

  /** A terminal marker that is durable ends the transaction for good. */
  lemma MarkerCloses(t: Txn, d: Disk)
    requires t.Valid() && (t.Safe(d) || t.Closed(d))
    requires t.Poss(d, CompletedEntry) == {t.mark} || t.Poss(d, RolledBackEntry) == {t.mark}
    ensures t.Closed(d)
  {
    if !t.Closed(d) {
      assert At(d, t.Here(JournalEntry)).now in t.Poss(d, JournalEntry);
      assert At(d, t.Here(RolledBackEntry)).now in t.Poss(d, RolledBackEntry);
    }
  }

  /** A member all of whose images are its before-image reads as that. */
  lemma BeforeReads(t: Txn, d: Disk)
    requires t.Safe(d) && t.AllBefore(d)
    ensures forall i | 0 <= i < |t.plan.members| :: At(d, Root(t.plan.members[i].path)).now == t.plan.members[i].before
  {
    forall i | 0 <= i < |t.plan.members|
      ensures At(d, Root(t.plan.members[i].path)).now == t.plan.members[i].before
    {
      assert At(d, Root(t.plan.members[i].path)).now in t.Images(d, i);
    }
  }

  lemma SafeHasEntries(t: Txn, d: Disk)
    requires t.Safe(d) || t.Closed(d)
    ensures t.Entries(d)
  {
  }

  /** A location that a power loss leaves as it is seen. */
  ghost predicate Durable(d: Disk, l: Loc) { At(d, l).poss == {At(d, l).now} }

  /** Where a run begins: what it is about is durable, and its slot is empty or already has a journal. */
  ghost predicate FreshSlot(slot: bool, p: Plan, d: Disk) {
    && Coherent(d)
    && (forall i | 0 <= i < |p.members| :: Durable(d, Root(p.members[i].path)))
    && (forall e :: Durable(d, Slot(slot, e)))
    && (At(d, Slot(slot, JournalEntry)).now.kind == 0 ==> forall e :: At(d, Slot(slot, e)).now == ABSENT)
  }

  lemma RunStart(t: Txn, d: Disk)
    requires t.Valid() && FreshSlot(t.slot, t.plan, d) && forall e :: At(d, t.Here(e)).now == ABSENT
    requires forall i | 0 <= i < |t.plan.members| ::
               At(d, Root(t.plan.members[i].path)).now == t.plan.members[i].before
    ensures t.Running(d, d) && t.AllBefore(d)
    ensures forall e :: t.Never(d, e)
  {
    hide At;
    forall e ensures t.Poss(d, e) == {ABSENT} {
      assert Durable(d, Slot(t.slot, e));
    }
    forall i | 0 <= i < |t.plan.members| ensures t.Images(d, i) == {t.plan.members[i].before} {
    }
  }

  lemma JournalStep(t: Txn, d: Disk, ok: bool, d': Disk)
    requires t.Valid() && t.Running(d, d) && Published(d, t.Here(JournalEntry), t.journal, ok, d')
    requires t.AllBefore(d) && forall e :: t.Never(d, e)
    ensures t.Running(d, d') && t.AllBefore(d')
    ensures forall e | e != JournalEntry :: t.Never(d', e)
    ensures ok ==> t.Poss(d', JournalEntry) == {t.journal}
  {
    JournalKeeps(t, d, ok, d');
    PublishEntry(t, d, JournalEntry, t.journal, ok, d');
    forall e | e != JournalEntry ensures t.Never(d', e) {
      assert At(d', t.Here(e)) == At(d, t.Here(e)) && t.Never(d, e);
    }
    hide Txn.Safe, Published;
  }

  lemma SameSafe(t: Txn, d: Disk, d': Disk)
    requires t.Safe(d) && Coherent(d')
    requires forall e :: At(d', t.Here(e)) == At(d, t.Here(e))
    requires forall i | 0 <= i < |t.plan.members| ::
               At(d', Root(t.plan.members[i].path)) == At(d, Root(t.plan.members[i].path))
    ensures t.Safe(d')
  {
    hide At, Coherent;
    forall g: bool
      ensures t.Before(d', g) <==> t.Before(d, g)
      ensures t.After(d', g) <==> t.After(d, g)
      ensures t.Either(d', g) <==> t.Either(d, g)
    {
    }
  }

  /** Publishing `active` touches nothing of the transaction itself. */
  lemma ActiveStep(t: Txn, d0: Disk, d: Disk, ok: bool, d': Disk)
    requires t.Running(d0, d) && t.Poss(d, JournalEntry) == {t.journal}
    requires Published(d, Active, SlotName(t.slot), ok, d')
    ensures t.Running(d0, d')
    ensures forall l | l != Active :: At(d', l) == At(d, l)
    ensures ok ==> t.Pointed(d')
  {
    assert forall l | l != Active :: At(d', l) == At(d, l);
    assert Coherent(d');
    SameSafe(t, d, d');
    hide Txn.Safe, Coherent;
  }

  /** What the stages of a run know about the disk. */
  ghost predicate Gating(t: Txn, d0: Disk, d: Disk) {
    && t.Running(d0, d) && t.Poss(d, JournalEntry) == {t.journal}
    && t.Never(d, CutoverEntry) && t.Never(d, CompletedEntry) && t.Never(d, RolledBackEntry)
    && t.Before(d, false)
  }

  ghost predicate CutOver(t: Txn, d0: Disk, d: Disk) {
    && t.Running(d0, d) && t.Poss(d, JournalEntry) == {t.journal}
    && t.Poss(d, CutoverEntry) == {t.mark} && t.Never(d, CompletedEntry) && t.Never(d, RolledBackEntry)
    && t.After(d, true) && t.Pointed(d)
  }

  lemma GateStep(t: Txn, d0: Disk, d: Disk, i: nat, ok: bool, d': Disk)
    requires t.Valid() && Gating(t, d0, d) && t.Pointed(d) && i < |t.plan.members| && t.plan.members[i].Gate()
    requires Published(d, Root(t.plan.members[i].path), t.plan.members[i].after, ok, d')
    ensures Gating(t, d0, d') && t.Pointed(d')
    ensures forall k | 0 <= k < |t.plan.members| && k != i :: t.Images(d', k) == t.Images(d, k)
    ensures ok ==> t.Images(d', i) == {t.plan.members[i].after}
  {
    InstallKeeps(t, d, i, ok, d');
    PublishMember(t, d, i, t.plan.members[i].after, ok, d');
    assert At(d', Active) == At(d, Active);
    hide Txn.Safe, Published;
  }

  lemma PayloadStep(t: Txn, d0: Disk, d: Disk, i: nat, ok: bool, d': Disk)
    requires t.Valid() && t.mark.kind == REGULAR && CutOver(t, d0, d) && i < |t.plan.members|
    requires Published(d, Root(t.plan.members[i].path), t.plan.members[i].after, ok, d')
    ensures CutOver(t, d0, d')
    ensures forall k | 0 <= k < |t.plan.members| && k != i :: t.Images(d', k) == t.Images(d, k)
    ensures ok ==> t.Images(d', i) == {t.plan.members[i].after}
  {
    InstallKeeps(t, d, i, ok, d');
    PublishMember(t, d, i, t.plan.members[i].after, ok, d');
    assert At(d', Active) == At(d, Active);
    hide Txn.Safe, Published;
  }

  lemma CutoverStep(t: Txn, d0: Disk, d: Disk, ok: bool, d': Disk)
    requires t.Valid() && Gating(t, d0, d) && t.After(d, true) && t.Pointed(d)
    requires Published(d, t.Here(CutoverEntry), t.mark, ok, d')
    ensures t.Running(d0, d') && t.Before(d', false) && t.Never(d', CompletedEntry) && t.Pointed(d')
    ensures ok ==> CutOver(t, d0, d')
  {
    CutoverKeeps(t, d, ok, d');
    PublishEntry(t, d, CutoverEntry, t.mark, ok, d');
    assert At(d', Active) == At(d, Active);
    hide Txn.Safe, Published;
  }

  lemma CompletedStep(t: Txn, d0: Disk, d: Disk, ok: bool, d': Disk)
    requires t.Valid() && CutOver(t, d0, d) && t.After(d, false)
    requires Published(d, t.Here(CompletedEntry), t.mark, ok, d')
    ensures t.Running(d0, d') && t.AllAfter(d') && t.Pointed(d')
    ensures ok ==> t.Poss(d', CompletedEntry) == {t.mark}
  {
    CompletedKeeps(t, d, ok, d');
    PublishEntry(t, d, CompletedEntry, t.mark, ok, d');
    assert At(d', Active) == At(d, Active);
    hide Txn.Safe, Published;
  }

  lemma StageReads(t: Txn, d0: Disk, d: Disk, restAfter: bool)
    requires t.Running(d0, d) && t.After(d, true) && (if restAfter then t.After(d, false) else t.Before(d, false))
    ensures forall i | 0 <= i < |t.plan.members| ::
              var m := t.plan.members[i];
              At(d, Root(m.path)).now == if m.Gate() || restAfter then m.after else m.before
  {
    RunningIsSafe(t, d0, d);
    assert Coherent(d);
    hide Txn.Safe, Txn.Running;
    forall i | 0 <= i < |t.plan.members|
      ensures At(d, Root(t.plan.members[i].path)).now
              == if t.plan.members[i].Gate() || restAfter then t.plan.members[i].after else t.plan.members[i].before
    {
      assert At(d, Root(t.plan.members[i].path)).now in t.Images(d, i);
    }
  }

  lemma RunningIsSafe(t: Txn, d0: Disk, d: Disk)
    requires t.Running(d0, d)
    ensures t.Safe(d)
  {
  }

  /** Without a cutover marker no payload was touched, so rolling back leaves it as it was found. */
  lemma RolledBackPayload(t: Txn, d0: Disk, d: Disk, d': Disk)
    requires t.Running(d0, d) && t.Restoring(d, d') && t.Before(d0, false)
    requires t.Marked(d, CutoverEntry) ==> t.Before(d', false)
    ensures t.Before(d', false)
  {
    hide Txn.Safe;
    if !t.Marked(d, CutoverEntry) {
      assert t.PayloadSame(d0, d) && t.PayloadSame(d, d');
      forall i | 0 <= i < |t.plan.members| && !t.plan.members[i].Gate()
        ensures t.Images(d', i) == {t.plan.members[i].before}
      {
        assert t.Images(d', i) == t.Images(d0, i);
      }
    }
  }

  /** The transaction a run of plan `p` in `slot` carries out. */
  ghost function RunTxn(h: Hash, slot: bool, p: Plan, edits: bool): (t: Txn)
    requires Distinct(p.members)
    ensures t.Valid() && t.slot == slot && t.plan == p
    ensures t.journal == JournalFile(h, p) && t.mark == MarkFile(h, t.journal)
  {
    Txn(slot, p, JournalFile(h, p), MarkFile(h, JournalFile(h, p)), edits)
  }

  /** How a recovery ends in which nothing goes wrong. */
  ghost function Ends(t: Txn, d: Disk): Result {
    if At(d, t.Here(JournalEntry)).now == ABSENT then Unchanged
    else if t.Marked(d, CompletedEntry) then Completed
    else RolledBack
  }

  /** A journal published durably. */
  function WithJournal(d: Disk, slot: bool, j: File): Disk { d[Slot(slot, JournalEntry) := Cell(j, {j})] }

  /** `active` renamed, and its directory not synchronised. */
  function Slipped(d: Disk, slot: bool): Disk {
    d[Active := Cell(SlotName(slot), At(d, Active).poss + {SlotName(slot)})]
  }

  /** The plan fits the files installed and changes one of them. */
  ghost predicate Runnable(allow: AllowPath, p: Plan, d: Disk) {
    && Encodable(p)
    && (forall i | 0 <= i < |p.members| ::
          allow(p.members[i].path, p.members[i].flags) && At(d, Root(p.members[i].path)).now == p.members[i].before)
    && !Pointless(p)
  }

  /** The plan changes nothing. */
  ghost predicate Pointless(p: Plan) {
    forall i | 0 <= i < |p.members| :: p.members[i].before == p.members[i].after
  }

  /** A run of the plan here is neither refused nor pointless. */
  ghost predicate Startable(allow: AllowPath, slot: bool, p: Plan, d: Disk) {
    Runnable(allow, p, d) && At(d, Slot(slot, JournalEntry)).now.kind == 0
  }

  lemma StartableIsOpen(allow: AllowPath, slot: bool, p: Plan, d: Disk)
    requires Startable(allow, slot, p, d)
    ensures 1 <= |p.members| <= MEMBERS && Encodable(p)
  {
  }

  /** A fresh slot without a journal has no entries. */
  lemma AbsentEntries(slot: bool, p: Plan, d: Disk)
    requires FreshSlot(slot, p, d) && At(d, Slot(slot, JournalEntry)).now.kind == 0
    ensures forall e :: At(d, Slot(slot, e)).now == ABSENT
  {
  }

  // ------------------------------------------------------------- the installer

  /**
   * What may go wrong: anything; nothing; only that the new installation is found
   * unhealthy; or only that `active` is renamed and its directory then not
   * synchronised.
   */
  datatype Luck = Anything | Nothing | Unhealthy | ActiveSlips {
    /** Every file that is to be written is written. */
    predicate Writes() { Nothing? || Unhealthy? }
  }

  class Installer {
    const h: Hash
    const allow: AllowPath
    const slot: bool
    const luck: Luck
    var disk: Disk
    /** Every state the disk went through, one per publication. */
    var trail: seq<Disk>
    /** What the platform said of CompactFlash when last asked: 1 available, 0 late or absent, negative an error. */
    var cf: int
    /** Whether services may be running. */
    var up: bool
    /** What was last found healthy: the new installation (false), or the old one put back (true). */
    var healthy: Option<bool>
    /** Whether every file was found as it should be since services were last stopped, which may change files. */
    var compared: bool

    constructor (h: Hash, allow: AllowPath, slot: bool, disk: Disk, luck: Luck)
      ensures this.h == h && this.allow == allow && this.slot == slot && this.luck == luck
      ensures this.disk == disk && trail == [disk]
    {
      this.h, this.allow, this.slot, this.luck := h, allow, slot, luck;
      this.disk, this.trail, this.cf, this.up, this.healthy, this.compared := disk, [disk], 1, true, None,
        false;
    }

    ghost predicate RestoringSince(t: Txn, d0: Disk, n: nat)
      reads this
    {
      n <= |trail| && forall k | n <= k < |trail| :: t.Restoring(d0, trail[k])
    }

    /** A read may fail; otherwise it yields what is visible. */
    method Read(l: Loc) returns (r: Option<File>)
      ensures r.Some? ==> r.value == At(disk, l).now
      ensures luck != Anything ==> r.Some?
    {
      var fails: bool := *;
      r := if luck == Anything && fails then None else Some(At(disk, l).now);
    }

    method Publish(l: Loc, f: File) returns (ok: bool)
      modifies this`disk, this`trail
      ensures Published(old(disk), l, f, ok, disk)
      ensures trail == old(trail) + [disk]
      ensures luck.Writes() || (luck == ActiveSlips && l != Active) ==> ok
      ensures luck == ActiveSlips && l == Active ==>
                !ok && disk == old(disk)[Active := Cell(f, At(old(disk), Active).poss + {f})]
    {
      ok := *;
      var seen: bool := *;
      if luck != Anything {
        ok, seen := luck.Writes() || l != Active, true;
      }
      if ok {
        disk := disk[l := Cell(f, {f})];
      } else if seen {
        disk := disk[l := Cell(f, At(disk, l).poss + {f})];
      }
      trail := trail + [disk];
    }

    /** The services are stopped. */
    method StopServices() returns (ok: bool)
      modifies this`up, this`compared
      ensures !compared && (ok ==> !up)
      ensures luck != Anything ==> ok
    {
      ok, up := *, *;
      ok := ok || luck != Anything;
      up, compared := up && !ok, false;
    }

    /** The services are started. */
    method StartServices() returns (ok: bool)
      modifies this`up
      ensures ok ==> up
      ensures luck != Anything ==> ok
    {
      ok, up := *, *;
      ok := ok || luck != Anything;
      up := up || ok;
    }

    /** Boundary points: any answer, no effect on members. */
    method Ask() returns (ok: bool)
      ensures luck != Anything ==> ok
    {
      ok := *;
      ok := ok || luck != Anything;
    }

    /** Whether the installation is healthy: the new one, or the old one put back. */
    method Verify(restored: bool) returns (ok: bool)
      modifies this`healthy
      ensures healthy == if ok then Some(restored) else None
      ensures luck != Anything ==> (ok <==> restored || luck != Unhealthy)
    {
      ok := *;
      if luck != Anything {
        ok := restored || luck != Unhealthy;
      }
      healthy := if ok then Some(restored) else None;
    }

    method CfAvailable() returns (r: int)
      modifies this`cf
      ensures r == cf
      ensures luck != Anything ==> r == 1
    {
      cf := *;
      if luck != Anything {
        cf := 1;
      }
      r := cf;
    }

    /** `marked`: 0 absent, 1 this journal's marker, -1 unreadable or foreign. */
    method ReadMark(e: Entry, j: File) returns (r: int)
      ensures r == 0 ==> At(disk, Slot(slot, e)).now.kind == 0
      ensures r == 1 ==> At(disk, Slot(slot, e)).now.kind == REGULAR
                         && At(disk, Slot(slot, e)).now.data == Digest(h, j.data)
      ensures -1 <= r <= 1
      ensures luck != Anything && r == -1 ==>
                At(disk, Slot(slot, e)).now.kind != 0 && !(At(disk, Slot(slot, e)).now.kind == REGULAR
                                                           && At(disk, Slot(slot, e)).now.data == Digest(h, j.data))
    {
      var m := Read(Slot(slot, e));
      if m.None? {
        return -1;
      }
      if m.value.kind == 0 {
        return 0;
      }
      r := if m.value.kind == REGULAR && m.value.data == Digest(h, j.data) then 1 else -1;
    }

    /** Every member reads as the wanted image. */
    ghost predicate Reads(p: Plan, gatesAfter: bool, restAfter: bool)
      reads this
    {
      forall i | 0 <= i < |p.members| ::
        At(disk, Root(p.members[i].path)).now ==
        if (if p.members[i].Gate() then gatesAfter else restAfter) then p.members[i].after else p.members[i].before
    }

    /** `matches` and `matches_after_gate`. */
    method Matches(p: Plan, gatesAfter: bool, restAfter: bool) returns (ok: bool)
      modifies this`compared
      ensures compared == ok
      ensures ok ==> Reads(p, gatesAfter, restAfter)
      ensures luck != Anything && Reads(p, gatesAfter, restAfter) ==> ok
    {
      compared := false;
      for i := 0 to |p.members|
        invariant !compared
        invariant forall k | 0 <= k < i ::
                    At(disk, Root(p.members[k].path)).now ==
                    if (if p.members[k].Gate() then gatesAfter else restAfter) then p.members[k].after
                    else p.members[k].before
      {
        var m := p.members[i];
        var f := Read(Root(m.path));
        var want := if (if m.Gate() then gatesAfter else restAfter) then m.after else m.before;
        if f.None? || f.value != want {
          return false;
        }
      }
      ok, compared := true, true;
    }

    /** One pass of `restore`: the payload, or the gates. */
    method RestorePass(p: Plan, gates: bool, cf: bool, cutover: bool, ghost t: Txn, ghost d0: Disk, ghost n: nat)
      returns (ok: bool, pending: bool)
      requires t.Valid() && t.plan == p && t.slot == slot
      requires t.Restoring(d0, disk) && RestoringSince(t, d0, n) && !t.Marked(disk, CompletedEntry)
      requires cutover == t.Marked(disk, CutoverEntry) && (cutover ==> t.Marked(d0, CutoverEntry))
      requires gates && cutover && cf ==> t.Before(disk, false)
      requires !up
      modifies this`disk, this`trail
      ensures old(trail) <= trail && RestoringSince(t, d0, n) && t.Restoring(d0, disk)
      ensures !t.Marked(disk, CompletedEntry) && cutover == t.Marked(disk, CutoverEntry)
      ensures luck.Writes() ==> ok
      ensures t.Left(old(disk), disk, gates, cf, cutover)
      ensures ok ==> (pending <==> t.Waits(gates, cf, cutover)) && t.PutBack(disk, |p.members|, gates, cf, cutover)
      ensures gates && cutover && !cf ==> disk == old(disk)
      ensures At(disk, t.Here(RolledBackEntry)) == At(old(disk), t.Here(RolledBackEntry))
    {
      hide Txn.Restoring, Txn.Safe, Published, At, Txn.Left, Txn.PutBack, Txn.Late, Txn.Before, Coherent;
      pending := false;
      LeftSelf(t, disk, gates, cf, cutover);
      for i := 0 to |p.members|
        invariant old(trail) <= trail && RestoringSince(t, d0, n) && t.Restoring(d0, disk)
        invariant !t.Marked(disk, CompletedEntry) && cutover == t.Marked(disk, CutoverEntry)
        invariant t.Left(old(disk), disk, gates, cf, cutover) && t.PutBack(disk, i, gates, cf, cutover)
        invariant pending <==> exists k | 0 <= k < i :: t.Late(k, gates, cf, cutover)
        invariant gates && cutover && cf ==> t.Before(disk, false)
        invariant gates && cutover && !cf ==> disk == old(disk)
        invariant At(disk, t.Here(RolledBackEntry)) == At(old(disk), t.Here(RolledBackEntry))
      {
        var m := p.members[i];
        LateMeans(t, i, gates, cf, cutover);
        if m.Gate() != gates || (!cutover && !gates) {
          PutBackSkips(t, disk, i, gates, cf, cutover);
          continue;
        }
        if !cf && cutover && (m.OnCf() || gates) {
          PutBackSkips(t, disk, i, gates, cf, cutover);
          pending := true;
          continue;
        }
        if m.before == m.after {
          RestoringIsSafe(t, d0, disk);
          UnchangedMember(t, disk, i);
          PutBackGrows(t, disk, i, disk, gates, cf, cutover);
          continue;
        }
        ghost var d := disk;
        var done := Publish(Root(m.path), m.before);
        RestoreStep(t, d0, d, i, done, disk);
        LeftGrows(t, old(disk), d, i, disk, gates, cf, cutover);
        var past := Ask();
        if !done || !past {
          return false, pending;
        }
        PutBackGrows(t, d, i, disk, gates, cf, cutover);
      }
      ok := true;
    }

    /** `restore`: payload first, gates last, then the rolled-back marker. */
    method Restore(p: Plan, j: File, ghost t: Txn) returns (r: Result)
      requires t.Valid() && t.slot == slot && t.plan == p && t.journal == j && t.mark == MarkFile(h, j)
      requires t.Safe(disk) && !t.Marked(disk, CompletedEntry)
      modifies this`disk, this`trail, this`cf, this`up, this`healthy, this`compared
      ensures old(trail) <= trail && RestoringSince(t, old(disk), |old(trail)|) && t.Restoring(old(disk), disk)
      ensures r == RolledBack || r == WaitCf || r == RecoveryRequired
      ensures luck.Writes() ==> r == RolledBack
      ensures r == RolledBack ==> t.Poss(disk, RolledBackEntry) == {t.mark} && t.Before(disk, true)
      ensures r == RolledBack && t.Marked(old(disk), CutoverEntry) ==> t.Before(disk, false)
      ensures r == WaitCf ==> At(disk, t.Here(RolledBackEntry)) == At(old(disk), t.Here(RolledBackEntry))
      ensures r == WaitCf ==>
                cf == 0 && t.Marked(old(disk), CutoverEntry) && t.NeedsCf() && t.RestBefore(disk)
                && t.LateSame(old(disk), disk)
      ensures r == RolledBack ==> cf > 0 || !t.Marked(old(disk), CutoverEntry) || (cf == 0 && !t.NeedsCf())
      ensures r == RolledBack ==> healthy == Some(true) && (p.wasRunning != 0 ==> up)
    {
      hide Txn.Safe, Published, Txn.PutBack, Txn.Left, Txn.Late, Txn.Due, Txn.Waits, Txn.Before, Txn.RestBefore,
           Txn.LateSame, Txn.NeedsCf;
      ghost var d0, n := disk, |trail|;
      var cf := CfAvailable();
      var cut := ReadMark(CutoverEntry, j);
      var stopped := StopServices();
      SafeHasEntries(t, disk);
      MarkRead(t, disk, CutoverEntry);
      if cf < 0 || cut < 0 || !stopped {
        return RecoveryRequired;
      }
      var ok, late := RestorePass(p, false, cf != 0, cut == 1, t, d0, n);
      if !ok {
        return RecoveryRequired;
      }
      ghost var d := disk;
      PayloadPass(t, d0, d, cf != 0, cut == 1);
      var later;
      ok, later := RestorePass(p, true, cf != 0, cut == 1, t, d0, n);
      if !ok {
        return RecoveryRequired;
      }
      GatePass(t, d, disk, cf != 0, cut == 1);
      if late || later {
        return WaitCf;
      }
      r := FinishRestore(p, j, cut == 1, t, d0, n);
    }

    /** The end of `restore`: what was put back is checked, and the rolled-back marker published. */
    method FinishRestore(p: Plan, j: File, cutover: bool, ghost t: Txn, ghost d0: Disk, ghost n: nat)
      returns (r: Result)
      requires t.Valid() && t.slot == slot && t.plan == p && t.mark == MarkFile(h, j)
      requires t.Restoring(d0, disk) && RestoringSince(t, d0, n) && !t.Marked(disk, CompletedEntry)
      requires t.Before(disk, true) && cutover == t.Marked(disk, CutoverEntry) && (cutover ==> t.Before(disk, false))
      modifies this`disk, this`trail, this`up, this`healthy, this`compared
      ensures old(trail) <= trail && RestoringSince(t, d0, n) && t.Restoring(d0, disk)
      ensures r == RolledBack || (r == RecoveryRequired && !luck.Writes())
      ensures r == RolledBack ==> t.Poss(disk, RolledBackEntry) == {t.mark} && t.Before(disk, true)
      ensures t.Before(old(disk), false) ==> t.Before(disk, false)
      ensures r == RolledBack ==> healthy == Some(true) && (p.wasRunning != 0 ==> up)
    {
      hide Txn.Safe, Txn.Restoring, Published, At;
      var same := true;
      if cutover {
        same := Matches(p, false, false);
        assert luck.Writes() ==> same by {
          RestoringIsSafe(t, d0, disk);
          BeforeReads(t, disk);
        }
      }
      var started := true;
      if same && p.wasRunning != 0 {
        started := StartServices();
      }
      var verified := Verify(true);
      if !same || !started || !verified {
        return RecoveryRequired;
      }
      ghost var d := disk;
      var done := Publish(Slot(slot, RolledBackEntry), MarkFile(h, j));
      RolledBackStep(t, d0, d, done, disk);
      r := if done then RolledBack else RecoveryRequired;
    }

    /** `install_directory_sync` on the journal directory. */
    method SyncJournal() returns (ok: bool)
      modifies this`disk, this`trail
      ensures trail == old(trail) + [disk]
      ensures !ok ==> disk == old(disk)
      ensures ok ==> Synced(slot, old(disk), disk)
      ensures luck != Anything ==> ok
    {
      ok := *;
      ok := ok || luck != Anything;
      if ok {
        for k := 0 to 4
          invariant trail == old(trail)
          invariant forall l :: At(disk, l) ==
                      if l.Slot? && l.slot == slot && Index(l.entry) < k
                      then Cell(At(old(disk), l).now, {At(old(disk), l).now}) else At(old(disk), l)
        {
          var l := Slot(slot, Nth(k));
          disk := disk[l := Cell(At(disk, l).now, {At(disk, l).now})];
        }
      }
      trail := trail + [disk];
    }

    ghost predicate RecoveringSince(t: Txn, d0: Disk, n: nat)
      reads this
    {
      n <= |trail| && forall k | n <= k < |trail| :: t.Recovering(d0, trail[k])
    }

    /** `install_transaction_recover`, on a disk a run or earlier recoveries left behind. */
    method Recover(ghost t: Txn) returns (r: Result)
      requires t.Valid() && t.slot == slot && Encodable(t.plan) && Admissible(allow, t.plan)
      requires t.journal == JournalFile(h, t.plan) && t.mark == MarkFile(h, t.journal)
      requires t.Safe(disk) || t.Closed(disk)
      modifies this`disk, this`trail, this`cf, this`up, this`healthy, this`compared
      ensures old(trail) <= trail && RecoveringSince(t, old(disk), |old(trail)|) && t.Recovering(old(disk), disk)
      ensures r != Refused
      ensures luck.Writes() ==> r == Ends(t, old(disk))
      ensures r == WaitCf ==>
                cf == 0 && t.Safe(old(disk)) && t.Marked(old(disk), CutoverEntry) && t.NeedsCf() && t.RestBefore(disk)
                && t.LateSame(old(disk), disk)
      ensures r == RolledBack && !t.Marked(old(disk), RolledBackEntry) ==> healthy == Some(true)
      ensures r == RolledBack && !t.Marked(old(disk), RolledBackEntry) ==>
                cf > 0 || !t.Marked(old(disk), CutoverEntry) || (cf == 0 && !t.NeedsCf())
      ensures r == Unchanged ==> disk == old(disk) && At(disk, t.Here(JournalEntry)).now == ABSENT
      ensures r == Completed ==> t.Poss(disk, CompletedEntry) == {t.mark} && (t.Safe(old(disk)) ==> t.AllAfter(disk))
      ensures r == RolledBack ==>
                t.Poss(disk, RolledBackEntry) == {t.mark} && (t.Safe(old(disk)) ==> t.Before(disk, true))
      ensures r == RolledBack && t.Marked(old(disk), CutoverEntry) && t.Safe(old(disk)) ==> t.Before(disk, false)
      ensures t.Marked(old(disk), CompletedEntry) ==> r != RolledBack && r != WaitCf
      ensures t.Marked(old(disk), RolledBackEntry) ==> r != Completed && r != WaitCf
      ensures t.Marked(old(disk), CompletedEntry) || t.Marked(old(disk), RolledBackEntry) ==>
                forall l: Loc | l.Root? :: At(disk, l) == At(old(disk), l)
    {
      hide Txn.Safe, Txn.Restoring, Txn.Recovering, Synced, Decode, Txn.Entries;
      ghost var d0 := disk;
      RecoveringSelf(t, d0);
      SafeHasEntries(t, d0);
      var j := Read(Slot(slot, JournalEntry));
      if j.None? {
        return RecoveryRequired;
      }
      JournalRead(t, disk);
      if j.value.kind == 0 {
        return Unchanged;
      }
      DecodeEncode(h, allow, t.plan);
      var p := DecodeJournal(h, allow, j.value);
      var c := ReadMark(CompletedEntry, j.value);
      var b := ReadMark(RolledBackEntry, j.value);
      MarkRead(t, disk, CompletedEntry);
      MarkRead(t, disk, RolledBackEntry);
      TerminalOnce(t, disk);
      if c < 0 || b < 0 || (c == 1 && b == 1) {
        return RecoveryRequired;
      } else if c == 1 || b == 1 {
        var ok := SyncJournal();
        if ok {
          SyncedKeeps(t, d0, disk);
        }
        r := if !ok then RecoveryRequired else if c == 1 then Completed else RolledBack;
      } else {
        ghost var n := |trail|;
        assert !t.Closed(d0);
        r := Restore(p.value, j.value, t);
        RecoveringRestoring(t, d0, disk);
        forall k | n <= k < |trail| ensures t.Recovering(d0, trail[k]) {
          RecoveringRestoring(t, d0, trail[k]);
        }
      }
    }

    ghost predicate RunningSince(t: Txn, d0: Disk, n: nat)
      reads this
    {
      n <= |trail| && forall k | n <= k < |trail| :: t.Running(d0, trail[k])
    }

    /** The gate callback of the orchestrator: `active`, then every boot gate. */
    method Gate(p: Plan, ghost t: Txn, ghost d0: Disk, ghost n: nat) returns (ok: bool)
      requires t.Valid() && t.slot == slot && t.plan == p
      requires Gating(t, d0, disk) && RunningSince(t, d0, n)
      modifies this`disk, this`trail
      ensures old(trail) <= trail && RunningSince(t, d0, n) && t.Running(d0, disk)
      ensures ok ==> Gating(t, d0, disk) && t.After(disk, true) && t.Pointed(disk)
      ensures luck.Writes() ==> ok
      ensures luck == ActiveSlips ==> !ok && disk == Slipped(old(disk), slot)
    {
      hide Txn.Safe, Txn.Running, Published;
      ghost var d := disk;
      var done := Publish(Active, SlotName(slot));
      ActiveStep(t, d0, d, done, disk);
      var past := Ask();
      if !done || !past {
        return false;
      }
      hide At;
      for i := 0 to |p.members|
        invariant old(trail) <= trail && RunningSince(t, d0, n) && Gating(t, d0, disk) && t.Pointed(disk)
        invariant forall k | 0 <= k < i && p.members[k].Gate() :: t.Images(disk, k) == {p.members[k].after}
      {
        if p.members[i].Gate() {
          d := disk;
          done := Publish(Root(p.members[i].path), p.members[i].after);
          GateStep(t, d0, d, i, done, disk);
          past := Ask();
          if !done || !past {
            return false;
          }
        }
      }
      ok := true;
    }

    /** The payload loop of a run. */
    method Payload(p: Plan, ghost t: Txn, ghost d0: Disk, ghost n: nat) returns (ok: bool)
      requires t.Valid() && t.mark.kind == REGULAR && t.slot == slot && t.plan == p
      requires !up && CutOver(t, d0, disk) && RunningSince(t, d0, n)
      modifies this`disk, this`trail
      ensures old(trail) <= trail && RunningSince(t, d0, n) && CutOver(t, d0, disk)
      ensures ok ==> t.After(disk, false)
      ensures luck.Writes() ==> ok
    {
      hide Txn.Safe, Txn.Running, Published, At;
      for i := 0 to |p.members|
        invariant old(trail) <= trail && RunningSince(t, d0, n) && CutOver(t, d0, disk)
        invariant forall k | 0 <= k < i :: t.Images(disk, k) == {p.members[k].after}
      {
        if p.members[i].before == p.members[i].after {
          RunningIsSafe(t, d0, disk);
          UnchangedMember(t, disk, i);
          continue;
        }
        ghost var d := disk;
        var done := Publish(Root(p.members[i].path), p.members[i].after);
        PayloadStep(t, d0, d, i, done, disk);
        var past := Ask();
        if !done || !past {
          return false;
        }
      }
      ok := true;
    }

    /** From the installed gates to the terminal marker; None is the rollback exit. */
    method Forward(p: Plan, j: File, ghost t: Txn, ghost d0: Disk, ghost n: nat) returns (r: Option<Result>)
      requires t.Valid() && t.slot == slot && t.plan == p && t.mark == MarkFile(h, j)
      requires Gating(t, d0, disk) && t.After(disk, true) && t.Pointed(disk) && RunningSince(t, d0, n)
      modifies this`disk, this`trail, this`up, this`healthy, this`compared
      ensures old(trail) <= trail && RunningSince(t, d0, n) && t.Running(d0, disk)
      ensures r == None || r == Some(Completed) || r == Some(RecoveryRequired)
      ensures luck == Nothing ==> r == Some(Completed)
      ensures luck == Unhealthy ==> r == None
      ensures r == None ==> t.Never(disk, CompletedEntry) && t.Pointed(disk)
      ensures r == Some(Completed) ==> up && healthy == Some(false)
      ensures r == Some(Completed) ==> t.AllAfter(disk) && t.Poss(disk, CompletedEntry) == {t.mark} && t.Pointed(disk)
    {
      hide Txn.Safe, Txn.Running, Published, At;
      assert Reads(p, true, false) by { StageReads(t, d0, disk, false); }
      var quiet := Matches(p, true, false);
      var stopped := StopServices();
      var still := Matches(p, true, false);
      if !quiet || !stopped || !still {
        return None;
      }
      ghost var d := disk;
      var done := Publish(Slot(slot, CutoverEntry), MarkFile(h, j));
      CutoverStep(t, d0, d, done, disk);
      var past := Ask();
      if !done || !past {
        return None;
      }
      r := Finish(p, j, t, d0, n);
    }

    /** From the durable cutover marker to the terminal one. */
    method Finish(p: Plan, j: File, ghost t: Txn, ghost d0: Disk, ghost n: nat) returns (r: Option<Result>)
      requires t.Valid() && t.slot == slot && t.plan == p && t.mark == MarkFile(h, j)
      requires !up && compared && CutOver(t, d0, disk) && RunningSince(t, d0, n)
      modifies this`disk, this`trail, this`up, this`healthy, this`compared
      ensures old(trail) <= trail && RunningSince(t, d0, n) && t.Running(d0, disk)
      ensures r == None || r == Some(Completed) || r == Some(RecoveryRequired)
      ensures luck == Nothing ==> r == Some(Completed)
      ensures luck == Unhealthy ==> r == None
      ensures r == None ==> t.Never(disk, CompletedEntry) && t.Pointed(disk)
      ensures r == Some(Completed) ==> up && healthy == Some(false)
      ensures r == Some(Completed) ==> t.AllAfter(disk) && t.Poss(disk, CompletedEntry) == {t.mark} && t.Pointed(disk)
    {
      hide Txn.Safe, Txn.Running, Published, At;
      var paid := Payload(p, t, d0, n);
      if !paid {
        return None;
      }
      assert Reads(p, true, true) by { StageReads(t, d0, disk, true); }
      var same := Matches(p, true, true);
      var started := StartServices();
      var verified := Verify(false);
      if !same || !started || !verified {
        return None;
      }
      ghost var d := disk;
      var done := Publish(Slot(slot, CompletedEntry), MarkFile(h, j));
      CompletedStep(t, d0, d, done, disk);
      var past := Ask();
      r := if done && past then Some(Completed) else Some(RecoveryRequired);
    }

    /** `install_transaction_run`. */
    method Run(p: Plan, ghost t: Txn) returns (r: Result)
      requires Distinct(p.members) && t == RunTxn(h, slot, p, t.edits) && FreshSlot(slot, p, disk)
      modifies this`disk, this`trail, this`cf, this`up, this`healthy, this`compared
      ensures old(trail) <= trail && RunningSince(t, old(disk), |old(trail)|)
      ensures r == Refused || r == Unchanged ==> disk == old(disk) && trail == old(trail)
      ensures r == Unchanged ==> Pointless(p) && healthy == Some(false)
      ensures r != Refused && r != Unchanged ==>
        && t.Running(old(disk), disk) && Encodable(p)
        && forall i | 0 <= i < |p.members| :: allow(p.members[i].path, p.members[i].flags)
      ensures r == Completed ==> t.AllAfter(disk) && t.Poss(disk, CompletedEntry) == {t.mark} && t.Pointed(disk)
      ensures r == RolledBack ==> t.AllBefore(disk) && t.Poss(disk, RolledBackEntry) == {t.mark} && t.Pointed(disk)
      ensures r == Completed ==> up && healthy == Some(false)
      ensures r == RolledBack ==> healthy == Some(true) && (p.wasRunning != 0 ==> up)
      ensures r == WaitCf ==>
                cf == 0 && t.Marked(disk, CutoverEntry) && t.NeedsCf() && t.RestBefore(disk) && t.Pointed(disk)
      ensures luck == Nothing && Startable(allow, slot, p, old(disk)) ==> r == Completed
      ensures luck == Unhealthy && Startable(allow, slot, p, old(disk)) ==> r == RolledBack
      ensures luck == ActiveSlips && Startable(allow, slot, p, old(disk)) ==>
                r == RecoveryRequired && disk == Slipped(WithJournal(old(disk), slot, t.journal), slot)
    {
      hide Txn.Safe, Txn.Running, Txn.Restoring, Published, Encodable, Startable, FreshSlot;
      ghost var d0, n := disk, |trail|;
      var early := Preflight(p);
      if early.Some? {
        return early.value;
      }
      var j := Encode(h, p);
      if j.None? {
        assert !Startable(allow, slot, p, d0) by {
          if Startable(allow, slot, p, d0) {
            StartableIsOpen(allow, slot, p, d0);
          }
        }
        return Refused;
      }
      AbsentEntries(slot, p, d0);
      RunStart(t, d0);
      r := Launch(p, j.value, t, d0, n);
    }

    /** What is looked at before anything is written: a reason to do nothing, or none. */
    method Preflight(p: Plan) returns (early: Option<Result>)
      modifies this`cf, this`healthy, this`compared
      ensures early == None || early == Some(Refused) || early == Some(Unchanged)
      ensures early == None ==>
        && At(disk, Slot(slot, JournalEntry)).now.kind == 0 && Reads(p, false, false)
        && forall i | 0 <= i < |p.members| :: allow(p.members[i].path, p.members[i].flags)
      ensures early == Some(Unchanged) ==> Pointless(p) && healthy == Some(false)
      ensures luck != Anything && Startable(allow, slot, p, disk) ==> early == None
    {
      hide Encodable;
      assert Startable(allow, slot, p, disk) ==> 1 <= |p.members| <= MEMBERS by {
        if Startable(allow, slot, p, disk) {
          StartableIsOpen(allow, slot, p, disk);
        }
      }
      if p.members == [] || |p.members| > MEMBERS {
        return Some(Refused);
      }
      var existing := Read(Slot(slot, JournalEntry));
      if existing.None? || existing.value.kind != 0 {
        return Some(Refused);
      }
      var changed := false;
      for i := 0 to |p.members|
        invariant forall k | 0 <= k < i :: allow(p.members[k].path, p.members[k].flags)
        invariant changed <==> exists k | 0 <= k < i :: p.members[k].before != p.members[k].after
      {
        var m := p.members[i];
        if !allow(m.path, m.flags) {
          return Some(Refused);
        }
        changed := changed || m.before != m.after;
      }
      if !changed {
        var healthy := Verify(false);
        if healthy {
          return Some(Unchanged);
        }
      }
      var cf := CfAvailable();
      var same := Matches(p, false, false);
      early := if cf != 1 || !same then Some(Refused) else None;
    }

    /** The part of a run that writes. */
    method Launch(p: Plan, j: File, ghost t: Txn, ghost d0: Disk, ghost n: nat) returns (r: Result)
      requires t.Valid() && t.slot == slot && t.plan == p && t.journal == j && t.mark == MarkFile(h, j)
      requires d0 == disk && n == |trail|
      requires t.Running(disk, disk) && t.AllBefore(disk) && forall e :: t.Never(disk, e)
      modifies this`disk, this`trail, this`cf, this`up, this`healthy, this`compared
      ensures old(trail) <= trail && RunningSince(t, d0, n) && t.Running(d0, disk)
      ensures r == Completed || r == RolledBack || r == WaitCf || r == RecoveryRequired
      ensures luck == Nothing ==> r == Completed
      ensures luck == Unhealthy ==> r == RolledBack
      ensures luck == ActiveSlips ==> r == RecoveryRequired && disk == Slipped(WithJournal(d0, slot, j), slot)
      ensures r == Completed ==> t.AllAfter(disk) && t.Poss(disk, CompletedEntry) == {t.mark} && t.Pointed(disk)
      ensures r == RolledBack ==> t.AllBefore(disk) && t.Poss(disk, RolledBackEntry) == {t.mark} && t.Pointed(disk)
      ensures r == Completed ==> up && healthy == Some(false)
      ensures r == RolledBack ==> healthy == Some(true) && (p.wasRunning != 0 ==> up)
      ensures r == WaitCf ==>
                cf == 0 && t.Marked(disk, CutoverEntry) && t.NeedsCf() && t.RestBefore(disk) && t.Pointed(disk)
    {
      hide Txn.Safe, Txn.Running, Txn.Restoring, Published, At;
      var done := Publish(Slot(slot, JournalEntry), j);
      JournalStep(t, d0, done, disk);
      var past := Ask();
      if !done || !past {
        return RecoveryRequired;
      }
      var gated := Gate(p, t, d0, n);
      past := Ask();
      if !gated || !past {
        return RecoveryRequired;
      }
      var f := Forward(p, j, t, d0, n);
      if f.Some? {
        return f.value;
      }
      ghost var d, k := disk, |trail|;
      RunningIsSafe(t, d0, d);
      r := Restore(p, j, t);
      RunningRestoring(t, d0, d, disk);
      forall i | k <= i < |trail| ensures t.Running(d0, trail[i]) {
        RunningRestoring(t, d0, d, trail[i]);
      }
      if r == RolledBack {
        RolledBackPayload(t, d0, d, disk);
      }
    }
  }
}
