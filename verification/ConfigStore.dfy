/**
 * The configuration on disk: three names in one directory, changed by writing,
 * renaming and unlinking, and the choice made at startup. Whatever point the
 * program dies at, startup loads what it would have loaded or the candidate.
 */
module ConfigStore {
  import opened Base
  import opened GatewayController

  datatype Settings = Settings(webProtocol: Word, webEnabled: Word, webInterface: Word, backlightOn: Word,
                               ntpEnabled: Word, ntpIntervalHours: Word, ntpServer: string)

  const NO_PORTS: seq<PortConfig> := [NO_CONFIG, NO_CONFIG, NO_CONFIG, NO_CONFIG, NO_CONFIG, NO_CONFIG, NO_CONFIG,
                                      NO_CONFIG]

  type Ports = s: seq<PortConfig> | |s| == PORT_COUNT witness NO_PORTS

  datatype Saved = Saved(schema: Word, settings: Settings, ports: Ports)

  /** What the text of a file decodes to. */
  datatype Decoded = Good(config: Saved) | Malformed | Unsupported

  /** The text form and the two built-in configurations, which belong to other parts of the program. */
  datatype Codec = Codec(encode: Saved -> Option<seq<Byte>>, decode: seq<Byte> -> Decoded, defaults: Saved,
                         safeMode: Saved)

  /** What the text form is for. */
  ghost predicate Faithful(k: Codec) {
    forall c: Saved :: k.encode(c).Some? ==> k.decode(k.encode(c).value) == Good(c)
  }

  datatype Files = Files(active: Option<seq<Byte>>, backup: Option<seq<Byte>>, staged: Option<seq<Byte>>)

  datatype Result = Ok | Absent | Invalid | UnsupportedVersion | IoError | Unchanged | DurabilityUncertain

  datatype Source = FromActive | FromBackup | FromDefaults | FromSafeMode

  /** `gateway_config_load_file`; `readable` is false when the file is there but cannot be read. */
  function Load(file: Option<seq<Byte>>, readable: bool, k: Codec): (Result, Option<Saved>) {
    if file.None? then (Absent, None)
    else if !readable then (IoError, None)
    else match k.decode(file.value)
      case Good(c) => (Ok, Some(c))
      case Malformed => (Invalid, None)
      case Unsupported => (UnsupportedVersion, None)
  }

  /** `gateway_config_startup_select`. */
  function Select(f: Files, readActive: bool, readBackup: bool, k: Codec): (Result, Saved, Source) {
    var a := Load(f.active, readActive, k);
    var b := Load(f.backup, readBackup, k);
    if a.1.Some? then (Ok, a.1.value, FromActive)
    else if b.1.Some? then (Ok, b.1.value, FromBackup)
    else if a.0 == Absent && b.0 == Absent then (Absent, k.defaults, FromDefaults)
    else (if a.0 == IoError || b.0 == IoError then IoError else if a.0 == UnsupportedVersion then a.0 else Invalid,
          k.safeMode, FromSafeMode)
  }

  /** What a start would load from files that can be read. */
  function Startup(f: Files, k: Codec): Saved { Select(f, true, true, k).1 }

  // ------------------------------------------------------------------- staging

  /** Writing the staged file: whether it opens, what it holds on the way, and whether all went well. */
  datatype Writing = Writing(opens: bool, partial: seq<seq<Byte>>, complete: bool)

  /** Every content the staged file has on the way: none, parts of the text, and all of it if nothing fails. */
  function StagePoints(f: Files, c: Saved, w: Writing, k: Codec): seq<Files> {
    if k.encode(c).None? || !w.opens then []
    else
      [f.(staged := Some([]))] + seq(|w.partial|, i requires 0 <= i < |w.partial| => f.(staged := Some(w.partial[i])))
      + if w.complete then [f.(staged := k.encode(c))] else []
  }

  /** `gateway_config_stage`. */
  function StageResult(c: Saved, w: Writing, k: Codec): Result {
    if k.encode(c).None? then Invalid else if w.opens && w.complete then Ok else IoError
  }

  function Last(f: Files, points: seq<Files>): Files {
    if points == [] then f else points[|points| - 1]
  }

  // ----------------------------------------------------------------- promotion

  /** What the file system answers while a staged file is promoted. */
  datatype Promotion = Promotion(readStaged: bool, readActive: bool, unlink: bool, backUp: bool, promote: bool,
                                 sync: bool)

  /** `gateway_config_promote`: the points it passes through and its result. */
  function Promote(f: Files, p: Promotion, k: Codec): (seq<Files>, Result) {
    var s := Load(f.staged, p.readStaged, k);
    var a := Load(f.active, p.readActive, k);
    if s.1.None? then ([], Invalid)
    else if a.1 == s.1 then (if p.unlink then [f.(staged := None)] else [], Unchanged)
    else if a.1.Some? && !p.backUp then ([], IoError)
    else
      var g := if a.1.Some? then f.(active := None, backup := f.active) else f;
      var first := if a.1.Some? then [g] else [];
      if !p.promote then (first, IoError)
      else (first + [g.(active := g.staged, staged := None)], if p.sync then Ok else DurabilityUncertain)
  }

  /** `gateway_config_discard_staged`. */
  function Discard(f: Files, unlink: bool): Files {
    if unlink then f.(staged := None) else f
  }

  // ----------------------------------------------------------------- the claims

  /** Staging and discarding change nothing that a start reads. */
  lemma StagedIsNotRead(f: Files, g: Files, k: Codec)
    requires g.active == f.active && g.backup == f.backup
    ensures Startup(g, k) == Startup(f, k)
  {
  }

  lemma StagingIsInvisible(f: Files, c: Saved, w: Writing, k: Codec)
    ensures forall g | g in StagePoints(f, c, w, k) :: g.active == f.active && g.backup == f.backup
    ensures StageResult(c, w, k) == Ok ==> Last(f, StagePoints(f, c, w, k)) == f.(staged := k.encode(c))
  {
  }

  /** Promotion: at every point a start loads what it loaded before, or the staged configuration. */
  lemma PromotionIsAtomic(f: Files, p: Promotion, k: Codec)
    ensures var (points, r) := Promote(f, p, k);
      && (points != [] ==> k.decode(f.staged.value).Good?)
      && forall g | g in points :: Startup(g, k) == Startup(f, k) || Startup(g, k) == k.decode(f.staged.value).config
    ensures var (points, r) := Promote(f, p, k);
      r == Ok || r == Unchanged || r == DurabilityUncertain ==>
        f.staged.Some? && k.decode(f.staged.value) == Good(Startup(Last(f, points), k))
    ensures var (points, r) := Promote(f, p, k);
      r == Invalid || r == IoError ==> Startup(Last(f, points), k) == Startup(f, k)
  {
  }

  /** A text that is there, can be read and decodes. */
  predicate Holds(file: Option<seq<Byte>>, readable: bool, c: Saved, k: Codec) {
    file.Some? && readable && k.decode(file.value) == Good(c)
  }

  /**
   * A promotion of a good staged file over another configuration: it succeeds
   * exactly if both renames and the synchronising do, and then the active file is
   * the staged one and the backup what was active, if that was good. Without the
   * synchronising it is uncertain; without the second rename the old configuration
   * is found in the backup, and the staged file is still there.
   */
  lemma PromoteMeans(f: Files, p: Promotion, k: Codec, c: Saved)
    requires Holds(f.staged, p.readStaged, c, k) && !Holds(f.active, p.readActive, c, k)
    ensures var (points, r) := Promote(f, p, k);
            var g := Last(f, points);
            var good := f.active.Some? && p.readActive && k.decode(f.active.value).Good?;
      && (r == Ok <==> (good ==> p.backUp) && p.promote && p.sync)
      && (r == DurabilityUncertain <==> (good ==> p.backUp) && p.promote && !p.sync)
      && (r == IoError <==> (good && !p.backUp) || !p.promote)
      && (r == Ok || r == DurabilityUncertain ==>
            g.active == f.staged && g.staged == None && g.backup == if good then f.active else f.backup)
      && (r == IoError ==> g.staged == f.staged && (g == f || (good && g.active == None && g.backup == f.active)))
  {
  }

  /** Otherwise nothing is promoted: a staged file that is not good is left alone, one already in force may go. */
  lemma NothingPromoted(f: Files, p: Promotion, k: Codec)
    ensures var (points, r) := Promote(f, p, k);
            var g := Last(f, points);
      && (r == Invalid <==> !exists c :: Holds(f.staged, p.readStaged, c, k))
      && (r == Unchanged <==> exists c :: Holds(f.staged, p.readStaged, c, k) && Holds(f.active, p.readActive, c, k))
      && (r == Invalid ==> g == f) && (r == Unchanged ==> g == if p.unlink then f.(staged := None) else f)
  {
    if f.staged.Some? && p.readStaged && k.decode(f.staged.value).Good? {
      assert Holds(f.staged, p.readStaged, k.decode(f.staged.value).config, k);
    }
  }

  /**
   * A start loads the active file if it is good, else the backup if that is; the
   * defaults only if there is neither, and else it is in safe mode.
   */
  lemma SelectMeans(f: Files, readActive: bool, readBackup: bool, k: Codec)
    ensures var (r, c, source) := Select(f, readActive, readBackup, k);
      && (source == FromActive <==> exists x :: Holds(f.active, readActive, x, k))
      && (source == FromActive ==> r == Ok && Holds(f.active, readActive, c, k))
      && (source == FromBackup <==>
            !(exists x :: Holds(f.active, readActive, x, k)) && exists x :: Holds(f.backup, readBackup, x, k))
      && (source == FromBackup ==> r == Ok && Holds(f.backup, readBackup, c, k))
      && (source == FromDefaults <==> f.active.None? && f.backup.None?)
      && (source == FromDefaults ==> r == Absent && c == k.defaults)
      && (source == FromSafeMode ==> r in {IoError, UnsupportedVersion, Invalid} && c == k.safeMode)
  {
    if f.active.Some? && readActive && k.decode(f.active.value).Good? {
      assert Holds(f.active, readActive, k.decode(f.active.value).config, k);
    }
    if f.backup.Some? && readBackup && k.decode(f.backup.value).Good? {
      assert Holds(f.backup, readBackup, k.decode(f.backup.value).config, k);
    }
  }

  // ---------------------------------------------------------------- power loss

  /** A rename a promotion has made; until the directory is synchronised a power loss may undo it. */
  datatype Rename = BackedUp(text: seq<Byte>) | Promoted(text: seq<Byte>)

  function Renamed(f: Files, r: Rename): Files {
    match r
    case BackedUp(x) => f.(active := None, backup := Some(x))
    case Promoted(y) => f.(active := Some(y), staged := None)
  }

  /** The renames of a promotion, in order. */
  function Renames(f: Files, p: Promotion, k: Codec): seq<Rename> {
    var s := Load(f.staged, p.readStaged, k);
    var a := Load(f.active, p.readActive, k);
    if s.1.None? || a.1 == s.1 || (a.1.Some? && !p.backUp) then []
    else (if a.1.Some? then [BackedUp(f.active.value)] else []) + if p.promote then [Promoted(f.staged.value)] else []
  }

  /** All renames last, or none does. */
  predicate Every(i: nat) { true }

  predicate No(i: nat) { false }

  /** The directory with those renames that `keep` names. */
  function Surviving(f: Files, rs: seq<Rename>, keep: nat -> bool): Files
    decreases |rs|
  {
    if rs == [] then f else
    var g := Surviving(f, rs[..|rs| - 1], keep);
    if keep(|rs| - 1) then Renamed(g, rs[|rs| - 1]) else g
  }

  /** The points of a promotion that is not unchanged are those its renames lead through. */
  lemma RenamesArePoints(f: Files, p: Promotion, k: Codec)
    requires Promote(f, p, k).1 != Unchanged
    ensures var points := Promote(f, p, k).0;
      && |points| == |Renames(f, p, k)|
      && forall i | 0 <= i < |points| :: points[i] == Surviving(f, Renames(f, p, k)[..i + 1], Every)
  {
    var rs := Renames(f, p, k);
    SurvivingAll(f, rs);
    hide Surviving;
  }

  /** At most two renames, none of them undone. */
  lemma SurvivingAll(f: Files, rs: seq<Rename>)
    requires |rs| <= 2
    ensures |rs| > 0 ==> Surviving(f, rs[..1], Every) == Renamed(f, rs[0])
    ensures |rs| > 1 ==> Surviving(f, rs[..2], Every) == Renamed(Renamed(f, rs[0]), rs[1])
  {
    hide Renamed;
    if |rs| > 0 {
      assert rs[..1][..0] == [];
    }
    if |rs| > 1 {
      assert rs[..2][..1] == rs[..1];
    }
  }

  /**
   * A power loss at any moment of a promotion, before the directory is
   * synchronised, and whichever of the renames made so far it undoes: a start
   * loads what it loaded before, or the staged configuration.
   */
  lemma PowerLossLoadsOldOrNew(f: Files, p: Promotion, k: Codec, n: nat, keep: nat -> bool)
    requires n <= |Renames(f, p, k)|
    ensures var g := Surviving(f, Renames(f, p, k)[..n], keep);
            Startup(g, k) == Startup(f, k) || (n > 0 && Startup(g, k) == k.decode(f.staged.value).config)
    ensures n > 0 ==> f.staged.Some? && k.decode(f.staged.value).Good?
  {
    var rs := Renames(f, p, k)[..n];
    if n == 2 {
      assert rs[..1][..0] == [];
      assert Surviving(f, rs[..1], keep) == if keep(0) then Renamed(f, rs[0]) else f;
      assert Surviving(f, rs, keep) == if keep(1) then Renamed(Surviving(f, rs[..1], keep), rs[1])
                                       else Surviving(f, rs[..1], keep);
    } else if n == 1 {
      assert rs[..0] == [];
    }
  }

  /** The files as the program changes them; `points` records every state they were in. */
  class ConfigDirectory {
    var active: Option<seq<Byte>>
    var backup: Option<seq<Byte>>
    var staged: Option<seq<Byte>>
    ghost var points: seq<Files>

    ghost function Now(): Files
      reads this
    {
      Files(active, backup, staged)
    }

    constructor (f: Files)
      ensures Now() == f && points == [f]
    {
      active, backup, staged, points := f.active, f.backup, f.staged, [f];
    }

    /** The record starts anew. */
    ghost method Forget()
      modifies this`points
      ensures points == [Now()]
    {
      points := [Now()];
    }

    method Rest()
      modifies this`points
      ensures points == old(points) + [Now()]
    {
      points := points + [Now()];
    }

    /** `gateway_config_stage`: truncate, write, flush, synchronise, close. */
    method Stage(c: Saved, w: Writing, k: Codec) returns (r: Result)
      modifies this`staged, this`points
      ensures points == old(points) + StagePoints(old(Now()), c, w, k)
      ensures Now() == Last(old(Now()), StagePoints(old(Now()), c, w, k)) && r == StageResult(c, w, k)
    {
      var text := k.encode(c);
      if text.None? {
        return Invalid;
      }
      if !w.opens {
        return IoError;
      }
      ghost var f := Now();
      ghost var parts := seq(|w.partial|, i requires 0 <= i < |w.partial| => f.(staged := Some(w.partial[i])));
      staged := Some([]);
      Rest();
      var i := 0;
      while i < |w.partial|
        invariant 0 <= i <= |w.partial|
        invariant points == old(points) + [f.(staged := Some([]))] + parts[..i]
        invariant Now() == if i == 0 then f.(staged := Some([])) else parts[i - 1]
      {
        staged := Some(w.partial[i]);
        Rest();
        assert parts[..i] + [parts[i]] == parts[..i + 1];
        i := i + 1;
      }
      assert parts[..i] == parts;
      if w.complete {
        staged := text;
        Rest();
      }
      assert points == old(points) + StagePoints(f, c, w, k);
      r := if w.complete then Ok else IoError;
    }

    /** `gateway_config_promote`: rename active to backup, staged to active, synchronise the directory. */
    method PromoteStaged(p: Promotion, k: Codec) returns (r: Result)
      modifies this
      ensures points == old(points) + Promote(old(Now()), p, k).0
      ensures Now() == Last(old(Now()), Promote(old(Now()), p, k).0) && r == Promote(old(Now()), p, k).1
    {
      var s := Load(staged, p.readStaged, k);
      if s.1.None? {
        return Invalid;
      }
      var a := Load(active, p.readActive, k);
      if a.1.Some? && a.1 == s.1 {
        if p.unlink {
          staged := None;
          Rest();
        }
        return Unchanged;
      }
      if a.1.Some? {
        if !p.backUp {
          return IoError;
        }
        active, backup := None, active;
        Rest();
      }
      if !p.promote {
        return IoError;
      }
      active, staged := staged, None;
      Rest();
      r := if p.sync then Ok else DurabilityUncertain;
    }

    /** `gateway_config_discard_staged`. */
    method DiscardStaged(unlink: bool)
      modifies this`staged, this`points
      ensures Now() == Discard(old(Now()), unlink)
      ensures points == old(points) + if unlink then [Now()] else []
    {
      if unlink {
        staged := None;
        Rest();
      }
    }
  }
}
