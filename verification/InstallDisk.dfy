/**
 * The storage the installer works on, and what a power loss may leave of it.
 *
 * A publication renames a finished temporary over the target and syncs the
 * directory. When it reports success the new image is durable. When it reports
 * failure the target is untouched, or the new image is already visible but a
 * power loss may still bring back any image that was possible before.
 */
module InstallDisk {
  import opened InstallJournal

  datatype Entry = JournalEntry | CutoverEntry | CompletedEntry | RolledBackEntry

  datatype Loc = Root(path: Path) | Slot(slot: bool, entry: Entry) | Active

  /** `now` is what readers see, `poss` the images a power loss may leave. */
  datatype Cell = Cell(now: File, poss: set<File>)

  type Disk = map<Loc, Cell>

  function At(d: Disk, l: Loc): Cell {
    if l in d then d[l] else Cell(ABSENT, {ABSENT})
  }

  ghost predicate Coherent(d: Disk) {
    forall l :: At(d, l).now in At(d, l).poss
  }

  /** Nothing a power loss could undo. */
  ghost predicate Settled(d: Disk) {
    forall l :: At(d, l).poss == {At(d, l).now}
  }

  ghost predicate Published(d: Disk, l: Loc, f: File, ok: bool, d': Disk) {
    if ok then d' == d[l := Cell(f, {f})]
    else d' == d || d' == d[l := Cell(f, At(d, l).poss + {f})]
  }

  ghost predicate PowerLoss(d: Disk, d': Disk) {
    forall l :: At(d', l).now in At(d, l).poss && At(d', l).poss == {At(d', l).now}
  }

  /** How a call of the installer ends: by returning, killed, or with the power lost. */
  datatype Cut = Returns | Killed | PowerLost

  /** Every location keeps one of its possible images. */
  method LosePower(d: Disk) returns (d': Disk)
    requires Coherent(d)
    ensures PowerLoss(d, d')
  {
    var left := d.Keys;
    d' := map[];
    while left != {}
      invariant left <= d.Keys
      invariant d'.Keys == d.Keys - left
      invariant forall l | l in d' :: d'[l].now in d[l].poss && d'[l].poss == {d'[l].now}
      decreases |left|
    {
      var l :| l in left;
      assert At(d, l).now in At(d, l).poss;
      var f :| f in d[l].poss;
      d' := d'[l := Cell(f, {f})];
      left := left - {l};
    }
  }
}
