/**
 * The installer's journal: a plan of file members with before and after images,
 * its binary form sealed by a digest, and the decoder that accepts exactly the
 * byte strings the encoder produces for admissible plans.
 */
module InstallJournal {
  import opened Base

  const FILE_LIMIT: nat := 8 * 1024 * 1024
  const PATH_LIMIT: nat := 240
  const MEMBERS: nat := 32
  const REGULAR: Word := 1
  const MODE_0600: Word := 384

  /** kind: 0 absent, 1 regular, 2 symbolic link. */
  datatype File = File(kind: Word, mode: Word, data: seq<Byte>)

  const ABSENT := File(0, 0, [])

  type Path = seq<Byte>

  datatype Member = Member(path: Path, flags: Word, before: File, after: File) {
    predicate Gate() { flags / 2 % 2 == 1 }
    predicate OnCf() { flags % 2 == 1 }
  }

  datatype Plan = Plan(wasRunning: Word, members: seq<Member>)

  type Hash = seq<Byte> -> seq<Byte>

  /** The digest printed as 64 characters: any function with results of that length. */
  function Digest(h: Hash, s: seq<Byte>): (d: seq<Byte>)
    ensures |d| == 64
    ensures |h(s)| == 64 ==> d == h(s)
  {
    if |h(s)| == 64 then h(s) else seq(64, _ => 0)
  }

  type AllowPath = (Path, Word) -> bool

  predicate ValidFile(f: File) {
    && f.kind <= 2
    && |f.data| <= FILE_LIMIT
    && f.mode < 512
    && (f.kind == 0 ==> f.data == [] && f.mode == 0)
    && (f.kind == 1 ==> f.mode / 2 % 2 == 0 && f.mode / 16 % 2 == 0)
    && (f.kind == 2 ==> 1 <= |f.data| <= PATH_LIMIT && 0 !in f.data)
  }

  // ---------------------------------------------------------------- plans

  predicate Distinct(ms: seq<Member>) {
    forall i, j | 0 <= i < j < |ms| :: ms[i].path != ms[j].path
  }

  /** What `install_plan_add` keeps of every plan it builds. */
  predicate Built(p: Plan) {
    && |p.members| <= MEMBERS
    && Distinct(p.members)
    && forall m | m in p.members ::
         |m.path| <= PATH_LIMIT && 0 !in m.path && m.flags <= 3 && ValidFile(m.after)
  }

  /**
   * `install_plan_add`: `before` is the image read from disk, None when the
   * read failed.
   */
  method PlanAdd(p: Plan, path: Path, flags: Word, after: File, before: Option<File>) returns (r: Option<Plan>)
    requires Built(p) && 0 !in path
    ensures r.Some? <==> ValidFile(after) && |path| <= PATH_LIMIT && |p.members| < MEMBERS && flags <= 3
                         && before.Some? && forall m | m in p.members :: m.path != path
    ensures r.Some? ==> Built(r.value)
                        && r.value == p.(members := p.members + [Member(path, flags, before.value, after)])
  {
    if !ValidFile(after) || |path| > PATH_LIMIT || |p.members| >= MEMBERS || flags > 3 {
      return None;
    }
    for i := 0 to |p.members|
      invariant forall k | 0 <= k < i :: p.members[k].path != path
    {
      if p.members[i].path == path {
        return None;
      }
    }
    if before.None? {
      return None;
    }
    r := Some(p.(members := p.members + [Member(path, flags, before.value, after)]));
  }

  // ------------------------------------------------------------- encoding

  /** The eight characters "4VIJ0001". */
  const MAGIC: seq<Byte> := [52, 86, 73, 74, 48, 48, 48, 49]

  function FileBytes(f: File): (s: seq<Byte>)
    ensures |s| == 12 + |f.data|
  {
    Put32(f.kind) + Put32(f.mode) + Put32(|f.data|) + f.data
  }

  function MemberSize(m: Member): nat {
    8 + |m.path| + 24 + |m.before.data| + |m.after.data|
  }

  function MemberHead(m: Member): (s: seq<Byte>)
    ensures |s| == 8 + |m.path|
  {
    Put32(|m.path|) + Put32(m.flags) + m.path
  }

  function MemberBytes(m: Member): (s: seq<Byte>)
    ensures |s| == MemberSize(m)
  {
    MemberHead(m) + FileBytes(m.before) + FileBytes(m.after)
  }

  function MembersBytes(ms: seq<Member>): (s: seq<Byte>)
    ensures |s| == MembersSize(ms)
  {
    if ms == [] then [] else MemberBytes(ms[0]) + MembersBytes(ms[1..])
  }

  function MembersSize(ms: seq<Member>): nat {
    if ms == [] then 0 else MemberSize(ms[0]) + MembersSize(ms[1..])
  }

  function Header(p: Plan): (s: seq<Byte>)
    ensures |s| == 16
  {
    MAGIC + Put32(|p.members|) + Put32(p.wasRunning)
  }

  function Body(p: Plan): (s: seq<Byte>)
    ensures |s| == 16 + MembersSize(p.members)
  {
    Header(p) + MembersBytes(p.members)
  }

  predicate Storable(m: Member) {
    1 <= |m.path| <= PATH_LIMIT && ValidFile(m.before) && ValidFile(m.after)
  }

  /** The plans `encode` accepts. */
  predicate Encodable(p: Plan) {
    && 1 <= |p.members| <= MEMBERS
    && p.wasRunning <= 3
    && (forall i | 0 <= i < |p.members| :: Storable(p.members[i]))
    && 16 + MembersSize(p.members) <= FILE_LIMIT - 64
  }

  function Journal(h: Hash, p: Plan): seq<Byte> {
    Body(p) + Digest(h, Body(p))
  }

  function JournalFile(h: Hash, p: Plan): File {
    File(REGULAR, MODE_0600, Journal(h, p))
  }

  lemma MembersBytesAppend(ms: seq<Member>, m: Member)
    ensures MembersBytes(ms + [m]) == MembersBytes(ms) + MemberBytes(m)
  {
    hide MemberBytes, Put32, Header;
    if ms == [] {
      assert (ms + [m])[1..] == [];
    } else {
      MembersBytesAppend(ms[1..], m);
      assert (ms + [m])[1..] == ms[1..] + [m];
      assert (ms + [m])[0] == ms[0];
    }
  }

  lemma MembersBytesTake(ms: seq<Member>, i: nat)
    requires i < |ms|
    ensures MembersBytes(ms[..i + 1]) == MembersBytes(ms[..i]) + MemberBytes(ms[i])
  {
    assert ms[..i + 1] == ms[..i] + [ms[i]];
    MembersBytesAppend(ms[..i], ms[i]);
  }

  /** The running totals of the size pass. */
  lemma SizeTake(ms: seq<Member>, i: nat)
    requires i < |ms|
    ensures MembersSize(ms[..i + 1]) == MembersSize(ms[..i]) + MemberSize(ms[i])
  {
    if i == 0 {
      assert ms[..1][1..] == [];
    } else {
      assert ms[..i + 1][1..] == ms[1..][..i];
      assert ms[..i][1..] == ms[1..][..i - 1];
      SizeTake(ms[1..], i - 1);
    }
  }

  lemma SizeGrows(ms: seq<Member>, i: nat)
    requires i <= |ms|
    ensures MembersSize(ms[..i]) <= MembersSize(ms)
    decreases |ms| - i
  {
    if i < |ms| {
      SizeTake(ms, i);
      SizeGrows(ms, i + 1);
    } else {
      assert ms[..i] == ms;
    }
  }

  lemma FillStep(p: Plan, i: nat, prefix: seq<Byte>)
    requires i < |p.members|
    requires prefix == Header(p) + MembersBytes(p.members[..i])
    ensures prefix + MemberBytes(p.members[i]) == Header(p) + MembersBytes(p.members[..i + 1])
    ensures |prefix| + |MemberBytes(p.members[i])| <= |Body(p)|
  {
    hide MemberBytes, Put32, Header;
    MembersBytesTake(p.members, i);
    SizeGrows(p.members, i + 1);
  }

  /** memcpy into the calloc'ed buffer. */
  method Store(a: array<Byte>, at: nat, s: seq<Byte>)
    requires at + |s| <= a.Length
    modifies a
    ensures a[..at + |s|] == old(a[..at]) + s
  {
    for k := 0 to |s|
      invariant a[..at] == old(a[..at])
      invariant forall j | 0 <= j < k :: a[at + j] == s[j]
    {
      a[at + k] := s[k];
    }
  }

  method StoreFile(a: array<Byte>, at: nat, f: File) returns (end: nat)
    requires at + 12 + |f.data| <= a.Length
    modifies a
    ensures end == at + |FileBytes(f)| && a[..end] == old(a[..at]) + FileBytes(f)
  {
    Store(a, at, Put32(f.kind));
    Store(a, at + 4, Put32(f.mode));
    Store(a, at + 8, Put32(|f.data|));
    Store(a, at + 12, f.data);
    end := at + 12 + |f.data|;
    assert a[..end] == old(a[..at]) + (Put32(f.kind) + Put32(f.mode) + Put32(|f.data|) + f.data);
  }

  method StoreHead(a: array<Byte>, at: nat, m: Member) returns (end: nat)
    requires at + 8 + |m.path| <= a.Length
    modifies a
    ensures end == at + |MemberHead(m)| && a[..end] == old(a[..at]) + MemberHead(m)
  {
    Store(a, at, Put32(|m.path|));
    Store(a, at + 4, Put32(m.flags));
    Store(a, at + 8, m.path);
    end := at + 8 + |m.path|;
    assert a[..end] == old(a[..at]) + (Put32(|m.path|) + Put32(m.flags) + m.path);
  }

  method StoreMember(a: array<Byte>, at: nat, m: Member) returns (end: nat)
    requires at + MemberSize(m) <= a.Length
    modifies a
    ensures end == at + |MemberBytes(m)| && a[..end] == old(a[..at]) + MemberBytes(m)
  {
    end := StoreHead(a, at, m);
    end := StoreFile(a, end, m.before);
    end := StoreFile(a, end, m.after);
    assert a[..end] == old(a[..at]) + (MemberHead(m) + FileBytes(m.before) + FileBytes(m.after));
  }

  /** The size pass of `encode`; None when a member is refused or the journal would be too long. */
  method Measure(p: Plan) returns (r: Option<nat>)
    ensures r.Some? <==> Encodable(p)
    ensures r.Some? ==> r.value == 16 + MembersSize(p.members)
  {
    if p.members == [] || |p.members| > MEMBERS || p.wasRunning > 3 {
      return None;
    }
    var n := 16;
    for i := 0 to |p.members|
      invariant forall k | 0 <= k < i :: Storable(p.members[k])
      invariant n == 16 + MembersSize(p.members[..i]) <= FILE_LIMIT - 64
    {
      var m := p.members[i];
      if !Storable(m) {
        return None;
      }
      SizeTake(p.members, i);
      n := n + MemberSize(m);
      if n > FILE_LIMIT - 64 {
        SizeGrows(p.members, i + 1);
        return None;
      }
    }
    assert p.members[..|p.members|] == p.members;
    r := Some(n);
  }

  method StoreHeader(a: array<Byte>, p: Plan)
    requires 16 <= a.Length
    modifies a
    ensures a[..16] == Header(p)
  {
    Store(a, 0, MAGIC);
    Store(a, 8, Put32(|p.members|));
    Store(a, 12, Put32(p.wasRunning));
  }

  method FillMembers(p: Plan, a: array<Byte>) returns (at: nat)
    requires 16 + MembersSize(p.members) <= a.Length
    requires a[..16] == Header(p)
    modifies a
    ensures at == |Body(p)| && a[..at] == Body(p)
  {
    hide MemberBytes, Put32, Header;
    at := 16;
    assert p.members[..0] == [];
    for i := 0 to |p.members|
      invariant at <= a.Length
      invariant a[..at] == Header(p) + MembersBytes(p.members[..i])
    {
      FillStep(p, i, a[..at]);
      at := StoreMember(a, at, p.members[i]);
    }
    assert p.members[..|p.members|] == p.members;
  }

  /** The fill pass: header, members in order, digest. */
  method Fill(h: Hash, p: Plan, a: array<Byte>, n: nat)
    requires n == 16 + MembersSize(p.members) && a.Length == n + 64
    modifies a
    ensures a[..] == Journal(h, p)
  {
    hide Header, MembersBytes, MembersSize, Digest;
    StoreHeader(a, p);
    var at := FillMembers(p, a);
    Store(a, at, Digest(h, a[..at]));
    assert a[..] == a[..at + 64];
  }

  method Encode(h: Hash, p: Plan) returns (r: Option<File>)
    ensures r == if Encodable(p) then Some(JournalFile(h, p)) else None
  {
    var n := Measure(p);
    if n.None? {
      return None;
    }
    var a := new Byte[n.value + 64];
    Fill(h, p, a, n.value);
    r := Some(File(REGULAR, MODE_0600, a[..]));
  }

  // ------------------------------------------------------------- decoding

  datatype Parsed<+T> = Fail | Got(value: T, used: nat)

  function ParseFile(s: seq<Byte>): (r: Parsed<File>)
    ensures r.Got? ==> r.used <= |s|
  {
    if |s| < 12 then Fail else
    var size := Get32(s[8..]);
    if size > |s| - 12 || size > FILE_LIMIT then Fail else
    var f := File(Get32(s), Get32(s[4..]), s[12..12 + size]);
    if ValidFile(f) then Got(f, 12 + size) else Fail
  }

  function ParseHead(s: seq<Byte>): (r: Parsed<(Path, Word)>)
    ensures r.Got? ==> r.used <= |s|
  {
    if |s| < 8 then Fail else
    var z, flags := Get32(s), Get32(s[4..]);
    if z == 0 || z > PATH_LIMIT || z > |s| - 8 || flags > 3 || 0 in s[8..8 + z] then Fail
    else Got((s[8..8 + z], flags), 8 + z)
  }

  function ParseMember(allow: AllowPath, seen: seq<Member>, s: seq<Byte>): (r: Parsed<Member>)
    ensures r.Got? ==> 0 < r.used <= |s|
  {
    var head := ParseHead(s);
    if head.Fail? then Fail else
    var (path, flags) := head.value;
    if !allow(path, flags) || (exists m | m in seen :: m.path == path) then Fail else
    var before := ParseFile(s[head.used..]);
    if before.Fail? then Fail else
    var at := head.used + before.used;
    var after := ParseFile(s[at..]);
    if after.Fail? then Fail else
    Got(Member(path, flags, before.value, after.value), at + after.used)
  }

  /** `seen` then `left` further members, which must use up all of `s`. */
  function ParseMembers(allow: AllowPath, seen: seq<Member>, left: nat, s: seq<Byte>): Option<seq<Member>>
    decreases left
  {
    if left == 0 then (if s == [] then Some(seen) else None) else
    var m := ParseMember(allow, seen, s);
    if m.Fail? then None else ParseMembers(allow, seen + [m.value], left - 1, s[m.used..])
  }

  /** The journal frame: a regular file of legal size, the magic, and a digest of all that precedes it. */
  predicate Sealed(h: Hash, f: File)
    ensures Sealed(h, f) ==> 80 <= |f.data|
  {
    && f.kind == REGULAR && 80 <= |f.data| <= FILE_LIMIT
    && f.data[..8] == MAGIC
    && Digest(h, f.data[..|f.data| - 64]) == f.data[|f.data| - 64..]
  }

  function Decode(h: Hash, allow: AllowPath, f: File): Option<Plan> {
    if !Sealed(h, f) then None else
    var end := |f.data| - 64;
    var count, running := Get32(f.data[8..]), Get32(f.data[12..]);
    if count == 0 || count > MEMBERS || running > 3 then None else
    var ms := ParseMembers(allow, [], count, f.data[16..end]);
    if ms.None? then None else Some(Plan(running, ms.value))
  }

  method ReadFile(data: seq<Byte>, at: nat, end: nat) returns (r: Parsed<File>)
    requires at <= end <= |data|
    ensures r == ParseFile(data[at..end])
  {
    if end - at < 12 {
      return Fail;
    }
    ghost var s := data[at..end];
    var kind, mode, size := Get32(data[at..at + 4]), Get32(data[at + 4..at + 8]), Get32(data[at + 8..at + 12]);
    assert kind == Get32(s) && mode == Get32(s[4..]) && size == Get32(s[8..]);
    if size > end - at - 12 || size > FILE_LIMIT {
      return Fail;
    }
    var f := File(kind, mode, data[at + 12..at + 12 + size]);
    SliceOfSlice(data, at, end, 12, 12 + size);
    r := if ValidFile(f) then Got(f, 12 + size) else Fail;
  }

  method ReadHead(data: seq<Byte>, at: nat, end: nat) returns (r: Parsed<(Path, Word)>)
    requires at <= end <= |data|
    ensures r == ParseHead(data[at..end])
  {
    if end - at < 8 {
      return Fail;
    }
    ghost var s := data[at..end];
    var z, flags := Get32(data[at..at + 4]), Get32(data[at + 4..at + 8]);
    assert z == Get32(s) && flags == Get32(s[4..]);
    if z == 0 || z > PATH_LIMIT || z > end - at - 8 || flags > 3 {
      return Fail;
    }
    var path := data[at + 8..at + 8 + z];
    SliceOfSlice(data, at, end, 8, 8 + z);
    r := if 0 in path then Fail else Got((path, flags), 8 + z);
  }

  method ReadMember(allow: AllowPath, seen: seq<Member>, data: seq<Byte>, start: nat, end: nat)
    returns (r: Parsed<Member>)
    requires start <= end <= |data|
    ensures r == ParseMember(allow, seen, data[start..end])
  {
    hide ParseHead, ParseFile;
    ghost var s := data[start..end];
    var head := ReadHead(data, start, end);
    if head.Fail? {
      return Fail;
    }
    var (path, flags) := head.value;
    var taken := IsTaken(seen, path);
    if !allow(path, flags) || taken {
      return Fail;
    }
    var at := start + head.used;
    assert s[head.used..] == data[at..end];
    var before := ReadFile(data, at, end);
    if before.Fail? {
      return Fail;
    }
    at := at + before.used;
    assert s[head.used + before.used..] == data[at..end];
    var after := ReadFile(data, at, end);
    if after.Fail? {
      return Fail;
    }
    r := Got(Member(path, flags, before.value, after.value), at + after.used - start);
  }

  method IsTaken(seen: seq<Member>, path: Path) returns (b: bool)
    ensures b <==> exists m | m in seen :: m.path == path
  {
    for j := 0 to |seen|
      invariant forall k | 0 <= k < j :: seen[k].path != path
    {
      if path == seen[j].path {
        return true;
      }
    }
    b := false;
  }

  method ReadMembers(allow: AllowPath, count: nat, data: seq<Byte>, end: nat) returns (r: Option<seq<Member>>)
    requires 16 <= end <= |data|
    ensures r == ParseMembers(allow, [], count, data[16..end])
  {
    hide ParseMember;
    var at := 16;
    var ms := [];
    for i := 0 to count
      invariant 16 <= at <= end
      invariant ParseMembers(allow, ms, count - i, data[at..end]) == ParseMembers(allow, [], count, data[16..end])
    {
      var m := ReadMember(allow, ms, data, at, end);
      if m.Fail? {
        return None;
      }
      assert data[at..end][m.used..] == data[at + m.used..end];
      ms := ms + [m.value];
      at := at + m.used;
    }
    r := if at == end then Some(ms) else None;
  }

  /** `decode`: every index stays below the journal's end whatever the bytes are. */
  method DecodeJournal(h: Hash, allow: AllowPath, f: File) returns (r: Option<Plan>)
    ensures r == Decode(h, allow, f)
  {
    hide ParseMembers, Get32, Sealed, Digest;
    if !Sealed(h, f) {
      return None;
    }
    var end := |f.data| - 64;
    var count, running := Get32(f.data[8..]), Get32(f.data[12..]);
    if count == 0 || count > MEMBERS || running > 3 {
      return None;
    }
    var ms := ReadMembers(allow, count, f.data, end);
    r := if ms.None? then None else Some(Plan(running, ms.value));
  }

  // ------------------------------------------------- the codec is a bijection

  /** What `decode` demands beyond what `encode` demands. */
  predicate Admissible(allow: AllowPath, p: Plan) {
    && Distinct(p.members)
    && forall i | 0 <= i < |p.members| ::
         0 !in p.members[i].path && p.members[i].flags <= 3 && allow(p.members[i].path, p.members[i].flags)
  }

  lemma ParseFileOfBytes(f: File, t: seq<Byte>)
    ensures ValidFile(f) ==> ParseFile(FileBytes(f) + t) == Got(f, |FileBytes(f)|)
  {
    if ValidFile(f) {
      var s := FileBytes(f) + t;
      GetPut(f.kind, s[4..]);
      GetPut(f.mode, s[8..]);
      GetPut(|f.data|, s[12..]);
      assert s == Put32(f.kind) + s[4..];
      assert s[4..] == Put32(f.mode) + s[8..];
      assert s[8..] == Put32(|f.data|) + s[12..];
      assert s[12..12 + |f.data|] == f.data;
    }
  }

  lemma ParseFileSound(s: seq<Byte>)
    requires ParseFile(s).Got?
    ensures ValidFile(ParseFile(s).value) && s[..ParseFile(s).used] == FileBytes(ParseFile(s).value)
  {
    var r := ParseFile(s);
    PutGet(s);
    PutGet(s[4..]);
    PutGet(s[8..]);
    assert s[..r.used] == s[..4] + s[4..][..4] + s[8..][..4] + s[12..r.used];
  }

  lemma ParseHeadOfBytes(m: Member, t: seq<Byte>)
    requires 1 <= |m.path| <= PATH_LIMIT
    ensures ParseHead(MemberHead(m) + t)
         == if 0 in m.path || m.flags > 3 then Fail else Got((m.path, m.flags), |MemberHead(m)|)
  {
    var s := MemberHead(m) + t;
    GetPut(|m.path|, s[4..]);
    GetPut(m.flags, s[8..]);
    assert s == Put32(|m.path|) + s[4..];
    assert s[4..] == Put32(m.flags) + s[8..];
    assert s[8..8 + |m.path|] == m.path;
  }

  lemma ParseHeadSound(s: seq<Byte>, m: Member)
    requires ParseHead(s).Got? && ParseHead(s).value == (m.path, m.flags)
    ensures s[..ParseHead(s).used] == MemberHead(m)
    ensures 1 <= |m.path| <= PATH_LIMIT && 0 !in m.path && m.flags <= 3
  {
    PutGet(s);
    PutGet(s[4..]);
    assert s[..ParseHead(s).used] == s[..4] + s[4..][..4] + m.path;
  }

  predicate NewMember(allow: AllowPath, seen: seq<Member>, m: Member) {
    && 0 !in m.path && m.flags <= 3 && allow(m.path, m.flags)
    && forall x | x in seen :: x.path != m.path
  }

  lemma ParseMemberOfBytes(allow: AllowPath, seen: seq<Member>, m: Member, t: seq<Byte>)
    requires Storable(m)
    ensures ParseMember(allow, seen, MemberBytes(m) + t)
         == if NewMember(allow, seen, m) then Got(m, MemberSize(m)) else Fail
  {
    hide Put32, Get32, ParseFile, ParseHead, FileBytes, MemberHead, ValidFile;
    var s := MemberBytes(m) + t;
    var rest := FileBytes(m.before) + (FileBytes(m.after) + t);
    assert s == MemberHead(m) + rest;
    ParseHeadOfBytes(m, rest);
    var n := |MemberHead(m)|;
    assert s[n..] == rest;
    ParseFileOfBytes(m.before, FileBytes(m.after) + t);
    assert s[n + |FileBytes(m.before)|..] == FileBytes(m.after) + t;
    ParseFileOfBytes(m.after, t);
  }

  lemma ParseMemberSound(allow: AllowPath, seen: seq<Member>, s: seq<Byte>)
    requires ParseMember(allow, seen, s).Got?
    ensures var r := ParseMember(allow, seen, s);
            && Storable(r.value) && NewMember(allow, seen, r.value)
            && s == MemberBytes(r.value) + s[r.used..]
  {
    hide Put32, Get32, ParseFile, ParseHead, FileBytes, MemberHead, ValidFile;
    var r := ParseMember(allow, seen, s);
    var head := ParseHead(s);
    ParseHeadSound(s, r.value);
    var s1 := s[head.used..];
    ParseFileSound(s1);
    var n := head.used + ParseFile(s1).used;
    ParseFileSound(s[n..]);
    TakeOfDrop(s, head.used, ParseFile(s1).used);
    TakeOfDrop(s, n, r.used - n);
    assert s == s[..head.used] + s[head.used..n] + s[n..r.used] + s[r.used..];
  }

  lemma {:induction false} ParseMembersOfBytes(allow: AllowPath, seen: seq<Member>, ms: seq<Member>)
    requires forall i | 0 <= i < |ms| :: Storable(ms[i])
    requires Admissible(allow, Plan(0, seen))
    ensures ParseMembers(allow, seen, |ms|, MembersBytes(ms))
         == if Admissible(allow, Plan(0, seen + ms)) then Some(seen + ms) else None
    decreases |ms|
  {
    hide ParseMember, MemberBytes, Storable;
    if ms == [] {
      assert seen + ms == seen;
    } else {
      var m, t := ms[0], MembersBytes(ms[1..]);
      ParseMemberOfBytes(allow, seen, m, t);
      assert (MemberBytes(m) + t)[MemberSize(m)..] == t;
      assert seen + ms == (seen + [m]) + ms[1..];
      AdmissibleSnoc(allow, seen, m);
      if NewMember(allow, seen, m) {
        ParseMembersOfBytes(allow, seen + [m], ms[1..]);
      } else if Admissible(allow, Plan(0, seen + ms)) {
        AdmissiblePrefix(allow, seen + [m], ms[1..]);
      }
    }
  }

  lemma AdmissibleSnoc(allow: AllowPath, seen: seq<Member>, m: Member)
    requires Admissible(allow, Plan(0, seen))
    ensures Admissible(allow, Plan(0, seen + [m])) <==> NewMember(allow, seen, m)
  {
    var ms := seen + [m];
    assert ms[|seen|] == m;
    if Admissible(allow, Plan(0, ms)) {
      forall x | x in seen ensures x.path != m.path {
        var i :| 0 <= i < |seen| && seen[i] == x;
        assert ms[i].path != ms[|seen|].path;
      }
    }
  }

  lemma AdmissiblePrefix(allow: AllowPath, seen: seq<Member>, ms: seq<Member>)
    requires Admissible(allow, Plan(0, seen + ms))
    ensures Admissible(allow, Plan(0, seen))
  {
    var all := seen + ms;
    assert forall i | 0 <= i < |seen| :: all[i] == seen[i];
  }

  lemma {:induction false} ParseMembersSound(allow: AllowPath, seen: seq<Member>, left: nat, s: seq<Byte>)
    requires ParseMembers(allow, seen, left, s).Some?
    requires Admissible(allow, Plan(0, seen))
    requires forall i | 0 <= i < |seen| :: Storable(seen[i])
    ensures var all := ParseMembers(allow, seen, left, s).value;
            && |all| == |seen| + left
            && all[..|seen|] == seen
            && Admissible(allow, Plan(0, all))
            && (forall i | 0 <= i < |all| :: Storable(all[i]))
            && s == MembersBytes(all[|seen|..])
    decreases left
  {
    hide ParseMember, MemberBytes, Storable;
    if left > 0 {
      var m := ParseMember(allow, seen, s);
      ParseMemberSound(allow, seen, s);
      AdmissibleSnoc(allow, seen, m.value);
      var seen' := seen + [m.value];
      ParseMembersSound(allow, seen', left - 1, s[m.used..]);
      var all := ParseMembers(allow, seen, left, s).value;
      assert all[..|seen|] == all[..|seen'|][..|seen|];
      assert all[|seen|..][0] == all[..|seen'|][|seen|] == m.value;
      assert all[|seen|..][1..] == all[|seen'|..];
    }
  }

  /** decode(encode(p)) == p exactly for the plans whose members decode admits. */
  lemma DecodeEncode(h: Hash, allow: AllowPath, p: Plan)
    requires Encodable(p)
    ensures Decode(h, allow, JournalFile(h, p)) == if Admissible(allow, p) then Some(p) else None
  {
    hide ParseMembers, MembersBytes, Put32, Get32, Digest;
    var d := Journal(h, p);
    var end := |d| - 64;
    var tail := d[16..];
    assert d[..end] == Body(p) && d[end..] == Digest(h, Body(p));
    assert d[..8] == MAGIC;
    assert d[8..] == Put32(|p.members|) + d[12..];
    assert d[12..] == Put32(p.wasRunning) + d[16..];
    GetPut(|p.members|, d[12..]);
    GetPut(p.wasRunning, d[16..]);
    assert d[16..end] == MembersBytes(p.members);
    assert |d| >= 80;
    ParseMembersOfBytes(allow, [], p.members);
    assert [] + p.members == p.members;
  }

  /** Every byte string decode accepts is the encoding of the plan it yields. */
  lemma EncodeDecode(h: Hash, allow: AllowPath, f: File)
    requires Decode(h, allow, f).Some?
    ensures var p := Decode(h, allow, f).value;
            Encodable(p) && Admissible(allow, p) && f.kind == REGULAR && f.data == Journal(h, p)
  {
    hide ParseMembers, MembersBytes, Put32, Get32, Digest;
    var p := Decode(h, allow, f).value;
    var d, end := f.data, |f.data| - 64;
    var count := Get32(d[8..]);
    ParseMembersSound(allow, [], count, d[16..end]);
    assert p.members[0..] == p.members;
    PutGet(d[8..]);
    PutGet(d[12..]);
    assert d[..end] == d[..8] + d[8..][..4] + d[12..][..4] + d[16..end];
    assert d == d[..end] + d[end..];
  }
}
