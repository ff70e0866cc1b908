/**
 * The options of a DHCP reply: the bounded scan of the client, and its meaning
 * on any list of tag-length-value options a server may send.
 */
module DhcpOptions {
  import opened Base

  /** What the client reads: 53, 54, 1, 3, 6, 51, 58 and 59. */
  datatype Options = Options(kind: Option<Byte>, server: Option<Word>, netmask: Option<Word>, router: Option<Word>,
                             dns: Option<seq<Word>>, lifetime: Option<Word>, t1: Option<Word>, t2: Option<Word>)

  const NO_OPTIONS := Options(None, None, None, None, None, None, None, None)

  /** One option is taken in: a known one once and with its length, a route option never, others always. */
  function Take(o: Options, code: Byte, v: seq<Byte>): Option<Options> {
    match code
    case 53 => if |v| != 1 || o.kind.Some? then None else Some(o.(kind := Some(v[0])))
    case 54 => if |v| != 4 || o.server.Some? then None else Some(o.(server := Some(Get32(v))))
    case 1 => if |v| != 4 || o.netmask.Some? then None else Some(o.(netmask := Some(Get32(v))))
    case 3 => if v == [] || |v| % 4 != 0 || o.router.Some? then None else Some(o.(router := Some(Get32(v))))
    case 6 =>
      if v == [] || |v| % 4 != 0 || o.dns.Some? then None
      else Some(o.(dns := Some([Get32(v)] + if |v| >= 8 then [Get32(v[4..])] else [])))
    case 51 => if |v| != 4 || o.lifetime.Some? then None else Some(o.(lifetime := Some(Get32(v))))
    case 58 => if |v| != 4 || o.t1.Some? then None else Some(o.(t1 := Some(Get32(v))))
    case 59 => if |v| != 4 || o.t2.Some? then None else Some(o.(t2 := Some(Get32(v))))
    case _ => if code in [33, 121, 249, 52] then None else Some(o)
  }

  /** The option area up to its end mark; None when it is malformed or has no end. */
  function Scan(s: seq<Byte>, o: Options): Option<Options>
    decreases |s|
  {
    if s == [] then None
    else if s[0] == 0 then Scan(s[1..], o)
    else if s[0] == 255 then Some(o)
    else if |s| < 2 || s[1] as int > |s| - 2 then None
    else match Take(o, s[0], s[2..2 + s[1] as int])
      case None => None
      case Some(o') => Scan(s[2 + s[1] as int..], o')
  }

  /** The loop of the client over a packet of `|p|` bytes, starting at offset 240. */
  method ScanPacket(p: seq<Byte>) returns (r: Option<Options>)
    requires |p| >= 241
    ensures r == Scan(p[240..], NO_OPTIONS)
  {
    hide Take;
    var off, o := 240, NO_OPTIONS;
    while off < |p|
      invariant 240 <= off <= |p|
      invariant Scan(p[off..], o) == Scan(p[240..], NO_OPTIONS)
    {
      ghost var s := p[off..];
      var option := p[off];
      if option == 0 {
        assert s[1..] == p[off + 1..];
        off := off + 1;
        continue;
      }
      if option == 255 {
        return Some(o);
      }
      if off + 1 == |p| {
        return None;
      }
      var len := p[off + 1] as int;
      if len > |p| - off - 2 {
        return None;
      }
      var value := p[off + 2..off + 2 + len];
      assert s[2..2 + len] == value && s[2 + len..] == p[off + 2 + len..];
      var taken := Take(o, option, value);
      if taken.None? {
        return None;
      }
      o := taken.value;
      off := off + 2 + len;
    }
    r := None;
  }

  // -------------------------------------------------------- as a server sends it

  datatype Tlv = Tlv(code: Byte, value: seq<Byte>)

  predicate Sendable(ts: seq<Tlv>) {
    forall i | 0 <= i < |ts| :: ts[i].code != 0 && ts[i].code != 255 && |ts[i].value| <= 255
  }

  function Emit(ts: seq<Tlv>): seq<Byte>
    requires Sendable(ts)
  {
    if ts == [] then [] else [ts[0].code, |ts[0].value|] + ts[0].value + Emit(ts[1..])
  }

  function Gather(ts: seq<Tlv>, o: Options): Option<Options> {
    if ts == [] then Some(o) else
    match Take(o, ts[0].code, ts[0].value)
    case None => None
    case Some(o') => Gather(ts[1..], o')
  }

  /** Whatever options a server sends before its end mark, the scan takes them in one by one, in order. */
  lemma {:induction false} ScanOfEmitted(ts: seq<Tlv>, o: Options, rest: seq<Byte>)
    requires Sendable(ts)
    ensures Scan(Emit(ts) + [255] + rest, o) == Gather(ts, o)
    decreases |ts|
  {
    hide Take;
    var s := Emit(ts) + [255] + rest;
    if ts != [] {
      var t, n := ts[0], |ts[0].value|;
      var tail := Emit(ts[1..]) + [255] + rest;
      assert s == [t.code, n] + t.value + tail;
      assert s[2..2 + n] == t.value;
      assert s[2 + n..] == tail;
      if Take(o, t.code, t.value).Some? {
        ScanOfEmitted(ts[1..], Take(o, t.code, t.value).value, rest);
      }
    }
  }

  /** Hence a known option that is sent twice refuses the reply. */
  lemma RepeatedIsRefused(o: Options, code: Byte, v: seq<Byte>, w: seq<Byte>)
    requires code in [53, 54, 1, 3, 6, 51, 58, 59] && Take(o, code, v).Some?
    ensures Take(Take(o, code, v).value, code, w) == None
  {
  }
}
