/**
 * The packets the DHCP client sends: 300 bytes of a BOOTP request with the options
 * of its state, and what a reader gets from them (table 5 of RFC 2131).
 */
module DhcpMessage {
  import opened Base
  import opened Deadline
  import opened DhcpOptions
  import opened DhcpClient

  const MESSAGE_SIZE := 300

  function Zeros(n: nat): (s: seq<Byte>)
    ensures |s| == n && forall i | 0 <= i < n :: s[i] == 0
  {
    seq(n, i => 0)
  }

  /** Seconds since the exchange began, as far as two bytes go. */
  function Seconds(d: Client, now: Tick): (n: nat)
    ensures n <= 65535
  {
    var s := Elapsed(d.started, now) / 1000;
    if s > 65535 then 65535 else s
  }

  /** The fixed part: a request over Ethernet, the exchange, the address if it is in use, and the hardware address. */
  function Header(d: Client, now: Tick): (s: seq<Byte>)
    ensures |s| == 240
  {
    [1, 1, 6, 0] + Put32(d.xid) + [Seconds(d, now) / 256, Seconds(d, now) % 256]
    + (if d.valid then [0, 0] + Put32(d.lease.address) else [128, 0, 0, 0, 0, 0])
    + Zeros(12) + d.mac + Zeros(202) + Put32(COOKIE)
  }

  /** The options, in order: type, client, address and server where the state asks for them, and what is wanted. */
  function Asked(d: Client): (ts: seq<Tlv>)
    ensures Sendable(ts)
  {
    [Tlv(53, [d.sendType]), Tlv(61, [1] + d.mac)]
    + (if d.sendType >= 3 && !d.valid then [Tlv(50, Put32(d.lease.address))] else [])
    + (if d.sendType == 4 || (d.sendType == 3 && d.state == Requesting) then [Tlv(54, Put32(d.server))] else [])
    + [Tlv(55, [1, 3, 6, 51, 58, 59])]
  }

  function Message(d: Client, now: Tick): (s: seq<Byte>)
  {
    var s := Header(d, now) + Emit(Asked(d)) + [255];
    s + if |s| < MESSAGE_SIZE then Zeros(MESSAGE_SIZE - |s|) else []
  }

  lemma EmitFirst(a: seq<Tlv>)
    requires Sendable(a) && a != []
    ensures Emit(a) == [a[0].code, |a[0].value|] + a[0].value + Emit(a[1..])
  {
  }

  lemma {:induction false} EmitAppend(a: seq<Tlv>, b: seq<Tlv>)
    requires Sendable(a) && Sendable(b)
    ensures Sendable(a + b) && Emit(a + b) == Emit(a) + Emit(b)
    decreases |a|
  {
    if a == [] {
      assert a + b == b;
    } else {
      EmitAppend(a[1..], b);
      assert (a + b)[1..] == a[1..] + b && (a + b)[0] == a[0];
      EmitFirst(a);
      EmitFirst(a + b);
      hide Emit;
    }
  }

  lemma EmitOne(t: Tlv)
    requires Sendable([t])
    ensures Emit([t]) == [t.code, |t.value|] + t.value
  {
    assert [t][1..] == [];
  }

  // ------------------------------------------------------------------- in place

  /** The first 300 bytes are `s` and zeros behind it. */
  ghost predicate Begun(p: array<Byte>, s: seq<Byte>, rest: seq<Byte>)
    reads p
  {
    |s| <= MESSAGE_SIZE && p[..] == s + Zeros(MESSAGE_SIZE - |s|) + rest
  }

  /** `memset`. */
  method Clear(p: array<Byte>)
    requires p.Length >= MESSAGE_SIZE
    modifies p
    ensures Begun(p, [], old(p[MESSAGE_SIZE..]))
  {
    for i := 0 to MESSAGE_SIZE
      invariant forall k | 0 <= k < i :: p[k] == 0
      invariant forall k | MESSAGE_SIZE <= k < p.Length :: p[k] == old(p[k])
    {
      p[i] := 0;
    }
    assert p[..] == p[..MESSAGE_SIZE] + p[MESSAGE_SIZE..];
    assert p[..MESSAGE_SIZE] == Zeros(MESSAGE_SIZE);
    assert p[MESSAGE_SIZE..] == old(p[MESSAGE_SIZE..]);
    assert [] + Zeros(MESSAGE_SIZE) == Zeros(MESSAGE_SIZE);
  }

  /** Bytes are put behind those there are. */
  method Put(p: array<Byte>, n: nat, v: seq<Byte>, ghost s: seq<Byte>, ghost rest: seq<Byte>) returns (m: nat)
    requires Begun(p, s, rest) && n == |s| && n + |v| <= MESSAGE_SIZE
    modifies p
    ensures Begun(p, s + v, rest) && m == |s + v|
  {
    ghost var was := p[..];
    for i := 0 to |v|
      invariant p.Length == |was|
      invariant forall k | 0 <= k < i :: p[n + k] == v[k]
      invariant forall k | 0 <= k < p.Length && !(n <= k < n + i) :: p[k] == was[k]
    {
      p[n + i] := v[i];
    }
    m := n + |v|;
    assert p[..] == (s + v) + Zeros(MESSAGE_SIZE - m) + rest;
  }

  /** Bytes that stay zero. */
  method Skip(p: array<Byte>, n: nat, z: nat, ghost s: seq<Byte>, ghost rest: seq<Byte>) returns (m: nat)
    requires Begun(p, s, rest) && n == |s| && n + z <= MESSAGE_SIZE
    ensures Begun(p, s + Zeros(z), rest) && m == |s + Zeros(z)|
  {
    m := n + z;
    assert s + Zeros(MESSAGE_SIZE - n) + rest == (s + Zeros(z)) + Zeros(MESSAGE_SIZE - m) + rest;
  }

  method PutHeader(d: Client, p: array<Byte>, now: Tick, ghost rest: seq<Byte>) returns (n: nat)
    requires Begun(p, [], rest)
    modifies p
    ensures Begun(p, Header(d, now), rest) && n == 240
  {
    hide Begun, Put32, Zeros, Seconds;
    ghost var s: seq<Byte> := [];
    var a := [1, 1, 6, 0] + Put32(d.xid);
    n := Put(p, 0, a, s, rest);
    var b := [Seconds(d, now) / 256, Seconds(d, now) % 256];
    n := Put(p, n, b, [] + a, rest);
    var c := if d.valid then [0, 0] + Put32(d.lease.address) else [128, 0, 0, 0, 0, 0];
    n := Put(p, n, c, [] + a + b, rest);
    n := Skip(p, n, 12, [] + a + b + c, rest);
    n := Put(p, n, d.mac, [] + a + b + c + Zeros(12), rest);
    n := Skip(p, n, 202, [] + a + b + c + Zeros(12) + d.mac, rest);
    n := Put(p, n, Put32(COOKIE), [] + a + b + c + Zeros(12) + d.mac + Zeros(202), rest);
    assert [] + a + b + c + Zeros(12) + d.mac + Zeros(202) + Put32(COOKIE) == Header(d, now);
  }

  method PutOption(p: array<Byte>, n: nat, t: Tlv, ghost s: seq<Byte>, ghost ts: seq<Tlv>, ghost rest: seq<Byte>)
    returns (m: nat)
    requires Sendable(ts) && Sendable([t]) && Begun(p, s + Emit(ts), rest) && n == |s + Emit(ts)|
    requires n + 2 + |t.value| <= MESSAGE_SIZE
    modifies p
    ensures Sendable(ts + [t]) && Begun(p, s + Emit(ts + [t]), rest) && m == |s + Emit(ts + [t])| == n + 2 + |t.value|
  {
    hide Begun, Emit;
    EmitAppend(ts, [t]);
    EmitOne(t);
    m := Put(p, n, [t.code, |t.value|] + t.value, s + Emit(ts), rest);
    assert s + Emit(ts) + ([t.code, |t.value|] + t.value) == s + Emit(ts + [t]);
  }

  /** The bytes of `gateway_dhcp_packet`. */
  method Fill(d: Client, p: array<Byte>, now: Tick) returns (n: nat)
    requires p.Length >= MESSAGE_SIZE
    modifies p
    ensures n == |Message(d, now)| == MESSAGE_SIZE
    ensures p[..] == Message(d, now) + old(p[MESSAGE_SIZE..])
  {
    hide Begun, Emit, Put32, Header;
    ghost var rest := p[MESSAGE_SIZE..];
    Clear(p);
    n := PutHeader(d, p, now, rest);
    ghost var h := Header(d, now);
    ghost var ts: seq<Tlv> := [];
    assert h + Emit(ts) == h by { EmitNothing(); }
    n := PutOption(p, n, Tlv(53, [d.sendType]), h, ts, rest);
    ts := ts + [Tlv(53, [d.sendType])];
    n := PutOption(p, n, Tlv(61, [1] + d.mac), h, ts, rest);
    ts := ts + [Tlv(61, [1] + d.mac)];
    if d.sendType == 3 || d.sendType == 4 {
      if !d.valid {
        n := PutOption(p, n, Tlv(50, Put32(d.lease.address)), h, ts, rest);
        ts := ts + [Tlv(50, Put32(d.lease.address))];
      }
      if d.state == Requesting || d.sendType == 4 {
        n := PutOption(p, n, Tlv(54, Put32(d.server)), h, ts, rest);
        ts := ts + [Tlv(54, Put32(d.server))];
      }
    }
    n := PutOption(p, n, Tlv(55, [1, 3, 6, 51, 58, 59]), h, ts, rest);
    ts := ts + [Tlv(55, [1, 3, 6, 51, 58, 59])];
    assert ts == Asked(d);
    n := Put(p, n, [255], h + Emit(ts), rest);
    Complete(d, p, now, n, rest);
    n := MESSAGE_SIZE;
  }

  lemma EmitNothing()
    ensures Emit([]) == []
  {
  }

  lemma Complete(d: Client, p: array<Byte>, now: Tick, n: nat, rest: seq<Byte>)
    requires Begun(p, Header(d, now) + Emit(Asked(d)) + [255], rest)
    requires n == |Header(d, now) + Emit(Asked(d)) + [255]|
    ensures p[..] == Message(d, now) + rest && |Message(d, now)| == MESSAGE_SIZE && n <= MESSAGE_SIZE
  {
    hide Header, Emit, Asked, Zeros;
    var s := Header(d, now) + Emit(Asked(d)) + [255];
    if n == MESSAGE_SIZE {
      assert s + Zeros(0) == s;
    }
  }

  // ------------------------------------------------------------ what is read of it

  /**
   * A reader of the packet gets the exchange, the hardware address and the address
   * in use, and from its options the type and, with a DECLINE or the first REQUEST,
   * the server: what the client looks for in an answer.
   */
  lemma MessageIsRead(d: Client, now: Tick)
    requires d.sendType != 0
    ensures var s := Message(d, now);
            var named := d.sendType == 4 || (d.sendType == 3 && d.state == Requesting);
      && |s| >= 241 && s[0] == 1 && Get32(s[4..]) == d.xid && s[28..34] == d.mac && Get32(s[236..]) == COOKIE
      && Get32(s[12..]) == (if d.valid then d.lease.address else 0) && (s[10] == 128 <==> !d.valid)
      && Scan(s[240..], NO_OPTIONS)
         == Some(NO_OPTIONS.(kind := Some(d.sendType), server := if named then Some(d.server) else None))
  {
    HeaderIsRead(d, now);
    OptionsAreRead(d);
    hide Header, Emit, Asked, Scan, Put32, Get32;
    var s := Message(d, now);
    var pad := s[|Header(d, now) + Emit(Asked(d)) + [255]|..];
    ScanOfEmitted(Asked(d), NO_OPTIONS, pad);
    assert s == Header(d, now) + (Emit(Asked(d)) + [255] + pad);
    assert s[240..] == Emit(Asked(d)) + [255] + pad;
    PrefixReads(Header(d, now), s[240..], s, 4);
    PrefixReads(Header(d, now), s[240..], s, 12);
    PrefixReads(Header(d, now), s[240..], s, 236);
    assert s[28..34] == Header(d, now)[28..34];
  }

  lemma PrefixReads(h: seq<Byte>, t: seq<Byte>, s: seq<Byte>, i: nat)
    requires s == h + t && i + 4 <= |h|
    ensures Get32(s[i..]) == Get32(h[i..])
  {
    assert forall k | 0 <= k < 4 :: s[i..][k] == h[i..][k];
  }

  lemma {:induction false} GatherAppend(a: seq<Tlv>, b: seq<Tlv>, o: Options)
    ensures Gather(a + b, o) == if Gather(a, o).None? then None else Gather(b, Gather(a, o).value)
    decreases |a|
  {
    hide Take;
    if a == [] {
      assert a + b == b;
    } else {
      assert (a + b)[1..] == a[1..] + b;
      if Take(o, a[0].code, a[0].value).Some? {
        GatherAppend(a[1..], b, Take(o, a[0].code, a[0].value).value);
      }
    }
  }

  lemma GatherOne(t: Tlv, o: Options)
    ensures Gather([t], o) == Take(o, t.code, t.value)
  {
    hide Take;
    assert [t][1..] == [];
  }

  lemma OptionsAreRead(d: Client)
    ensures var named := d.sendType == 4 || (d.sendType == 3 && d.state == Requesting);
            Gather(Asked(d), NO_OPTIONS)
            == Some(NO_OPTIONS.(kind := Some(d.sendType), server := if named then Some(d.server) else None))
  {
    hide Gather, Put32, Get32;
    var a, b := Tlv(53, [d.sendType]), Tlv(61, [1] + d.mac);
    var c := if d.sendType >= 3 && !d.valid then [Tlv(50, Put32(d.lease.address))] else [];
    var e := if d.sendType == 4 || (d.sendType == 3 && d.state == Requesting) then [Tlv(54, Put32(d.server))] else [];
    var f := Tlv(55, [1, 3, 6, 51, 58, 59]);
    var o := NO_OPTIONS.(kind := Some(d.sendType));
    GatherAppend([a, b] + c + e, [f], NO_OPTIONS);
    GatherAppend([a, b] + c, e, NO_OPTIONS);
    GatherAppend([a, b], c, NO_OPTIONS);
    GatherAppend([a], [b], NO_OPTIONS);
    assert [a] + [b] == [a, b];
    GatherOne(a, NO_OPTIONS);
    GatherOne(b, o);
    GatherOne(Tlv(50, Put32(d.lease.address)), o);
    GatherOne(Tlv(54, Put32(d.server)), o);
    GatherOne(f, o);
    GatherOne(f, o.(server := Some(d.server)));
    GatherNone(o);
    GetPut(d.server, []);
    assert Put32(d.server) + [] == Put32(d.server);
  }

  lemma GatherNone(o: Options)
    ensures Gather([], o) == Some(o)
  {
  }

  /** Four bytes in the middle. */
  lemma WordAt(s: seq<Byte>, a: seq<Byte>, v: Word, t: seq<Byte>)
    requires s == a + Put32(v) + t
    ensures Get32(s[|a|..]) == v
  {
    GetPut(v, t);
    assert s[|a|..] == Put32(v) + t;
  }

  /** The header as what is put in front of, at and behind the words that are read. */
  lemma HeaderShape(d: Client, now: Tick)
    ensures var s := Header(d, now);
            var a: seq<Byte> := [1, 1, 6, 0];
            var b: seq<Byte> := [Seconds(d, now) / 256, Seconds(d, now) % 256, if d.valid then 0 else 128, 0];
            var tail := Zeros(12) + d.mac + Zeros(202) + Put32(COOKIE);
            s == a + Put32(d.xid) + b + Put32(if d.valid then d.lease.address else 0) + tail
  {
    hide Put32, Zeros, Seconds;
    ZeroWord();
  }

  lemma HeaderIsRead(d: Client, now: Tick)
    ensures var s := Header(d, now);
      && s[0] == 1 && Get32(s[4..]) == d.xid && s[28..34] == d.mac && Get32(s[236..]) == COOKIE
      && Get32(s[12..]) == (if d.valid then d.lease.address else 0) && (s[10] == 128 <==> !d.valid)
  {
    hide Put32, Get32, Zeros, Seconds, Header;
    HeaderShape(d, now);
    var s := Header(d, now);
    var a: seq<Byte> := [1, 1, 6, 0];
    var b: seq<Byte> := [Seconds(d, now) / 256, Seconds(d, now) % 256, if d.valid then 0 else 128, 0];
    var address := if d.valid then d.lease.address else 0;
    var tail := Zeros(12) + d.mac + Zeros(202) + Put32(COOKIE);
    WordFirst(s, a, d.xid, b, address, tail);
    TailIsRead(s, a + Put32(d.xid) + b + Put32(address), d.mac);
  }

  lemma WordFirst(s: seq<Byte>, a: seq<Byte>, v: Word, b: seq<Byte>, w: Word, t: seq<Byte>)
    requires |a| == 4 && |b| == 4 && s == a + Put32(v) + b + Put32(w) + t
    ensures Get32(s[4..]) == v && Get32(s[12..]) == w && s[0] == a[0] && s[10] == b[2]
  {
    hide Put32, Get32;
    assert s == a + Put32(v) + (b + Put32(w) + t);
    WordAt(s, a, v, b + Put32(w) + t);
    WordAt(s, a + Put32(v) + b, w, t);
  }

  lemma TailIsRead(s: seq<Byte>, a: seq<Byte>, mac: Mac)
    requires |a| == 16 && s == a + (Zeros(12) + mac + Zeros(202) + Put32(COOKIE))
    ensures s[28..34] == mac && Get32(s[236..]) == COOKIE
  {
    hide Put32, Get32, Zeros;
    assert s == (a + Zeros(12) + mac + Zeros(202)) + Put32(COOKIE) + [];
    WordAt(s, a + Zeros(12) + mac + Zeros(202), COOKIE, []);
    assert s == (a + Zeros(12)) + mac + (Zeros(202) + Put32(COOKIE));
  }

  lemma ZeroWord()
    ensures Put32(0) == [0, 0, 0, 0]
  {
  }
}
