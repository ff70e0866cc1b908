/**
 * What the DHCP client takes from a reply: whose replies it heeds, what the
 * option codes of RFC 2132 mean to it, and the terms and the broadcast address it
 * works out for itself.
 */
module DhcpReplies {
  import opened Base
  import opened Deadline
  import opened DhcpOptions
  import opened DhcpClient
  import opened DhcpLease

  /** A reply over Ethernet that carries the exchange and the hardware address of the client, and the magic cookie. */
  predicate ForClient(d: Client, p: seq<Byte>) {
    && 241 <= |p| <= 1500 && p[..3] == [2, 1, 6] && p[28..34] == d.mac
    && p[4..8] == Put32(d.xid) && p[236..240] == [99, 130, 83, 99]
  }

  /** What the reply may be, and whose: an offer, or an answer of the server chosen (of any in REBINDING). */
  predicate Fitting(d: Client, o: Options) {
    && o.server.Some? && o.kind.Some?
    && match d.state
       case Selecting => o.kind.value == 2
       case Requesting => o.kind.value in [5, 6] && o.server.value == d.server
       case Renewing => o.kind.value in [5, 6] && o.server.value == d.server
       case Rebinding => o.kind.value in [5, 6]
       case _ => false
  }

  lemma WordAt(p: seq<Byte>, i: nat, w: Word)
    requires i + 4 <= |p|
    ensures Get32(p[i..]) == w <==> p[i..i + 4] == Put32(w)
  {
    hide Put32, Get32;
    PutGet(p[i..]);
    assert p[i..][..4] == p[i..i + 4];
    GetPut(w, p[i + 4..]);
    if p[i..i + 4] == Put32(w) {
      assert p[i..] == Put32(w) + p[i + 4..];
    }
  }

  lemma HeaderMeans(d: Client, p: seq<Byte>)
    ensures HeaderOk(d, p) <==> ForClient(d, p)
  {
    hide Put32, Get32;
    CookieBytes();
    if 241 <= |p| {
      WordAt(p, 4, d.xid);
      WordAt(p, 236, COOKIE);
      FirstThree(p);
    }
  }

  lemma CookieBytes()
    ensures Put32(COOKIE) == [99, 130, 83, 99]
  {
  }

  lemma FirstThree(p: seq<Byte>)
    requires |p| >= 3
    ensures p[..3] == [2, 1, 6] <==> p[0] == 2 && p[1] == 1 && p[2] == 6
  {
    assert p[..3] == [p[0], p[1], p[2]];
  }

  /**
   * A reply that is not for this exchange, of a kind that was not asked for, or
   * of a server that was not chosen, changes nothing while the lease has not expired.
   */
  lemma OnlyMineCounts(d: Client, p: seq<Byte>, now: Tick, ok: bool)
    requires !(d.valid && Due(now, d.expiresAt)) && Receive(d, p, now, ok).0 != d
    ensures ForClient(d, p)
    ensures Scan(p[240..], NO_OPTIONS).Some? && Fitting(d, Scan(p[240..], NO_OPTIONS).value)
  {
    HeaderMeans(d, p);
    hide HeaderOk, Scan, Due, Elapsed, TermsOf, Granted, Offered, LeaseOf, Later, Get32, Put32, Step;
  }

  /** A server's address: not none, not loopback, neither multicast nor reserved. */
  predicate Unicast(server: Word) {
    0 < server < 224 * 0x100_0000 && !(127 * 0x100_0000 <= server < 128 * 0x100_0000)
  }

  lemma ServerMeans(server: Word)
    ensures Unicast(server) <==> server != 0 && server / 0x100_0000 < 224 && server / 0x100_0000 != 127
  {
  }

  /** The options are those of a reply of the kind, of an acceptable server, that offers or grants a lease. */
  predicate Offers(d: Client, p: seq<Byte>, o: Options, kind: Byte) {
    && ForClient(d, p) && Scan(p[240..], NO_OPTIONS) == Some(o)
    && o.kind == Some(kind) && o.server.Some? && Unicast(o.server.value)
    && o.netmask.Some? && TermsOf(o).Some? && Get32(p[16..]) != 0
  }

  /** The address, the options, and the lifetime. */
  predicate Carried(l: Lease, p: seq<Byte>, o: Options)
    requires |p| >= 241
  {
    && l.address == Get32(p[16..]) && Some(l.netmask) == o.netmask && l.router == o.router
    && l.dns == (if o.dns.Some? then o.dns.value else [])
    && TermsOf(o).Some? && l.lifetime == TermsOf(o).value.lifetime
  }

  /** An offer that passes the settings check is asked for at the server that made it. */
  lemma OfferIsRequested(d: Client, c: Clock, p: seq<Byte>, o: Options, now: nat)
    requires Inv(d, c) && Timely(c, Reply(p, true), now) && d.state == Selecting && Offers(d, p, o, 2)
    ensures var d' := Receive(d, p, Tick32(now), true).0;
      && d'.state == Requesting && Carried(d'.lease, p, o) && Some(d'.server) == o.server && d'.xid == d.xid
      && d'.sendType == 3 && !d'.haveRequest && !d'.valid && d'.started == d.started
  {
    HeaderMeans(d, p);
    ServerMeans(o.server.value);
    ElapsedIs(now, now);
    assert !d.valid && !d.haveRequest by { hide Sending, Origin; }
    hide HeaderOk, ForClient, Inv, Scan, TermsOf, Get32, Later, Elapsed, Due, BroadcastOf;
    TermsAreAcceptable(o);
  }

  /**
   * An acknowledgement by the right server that passes the settings check and
   * comes before the lease would be over grants it: its times count from the first
   * REQUEST of the exchange, and a new address is probed before it is used.
   */
  lemma AckIsTaken(d: Client, c: Clock, p: seq<Byte>, o: Options, now: nat)
    requires Inv(d, c) && Timely(c, Reply(p, true), now) && InExchange(d.state) && Offers(d, p, o, 5)
    requires d.valid ==> now < c.Expiry()
    requires d.state != Rebinding ==> o.server.value == d.server
    requires d.state == Requesting ==> Get32(p[16..]) == d.lease.address
    requires now < (if c.request.Some? then c.request.value else now) + 1000 * TermsOf(o).value.lifetime
    ensures var (d', r) := Receive(d, p, Tick32(now), true); var c' := Advance(c, d, Reply(p, true), now);
      && r == 1 && Carried(d'.lease, p, o) && Some(d'.server) == o.server && d'.sendType == 0 && d'.error == 0
      && d'.state == (if d.valid && d.lease.address == Get32(p[16..]) && Some(d.lease.netmask) == o.netmask
                      then Bound else Probing)
      && d'.valid == (d'.state == Bound)
      && c'.base == (if c.request.Some? then c.request.value else now) && Some(c'.terms) == TermsOf(o)
  {
    HeaderMeans(d, p);
    ServerMeans(o.server.value);
    if d.valid {
      LeaseTimesRead(d, c, now);
    }
    BaseRead(d, c, now);
    AckGrants(d, p, o, Tick32(now));
    ClockOfGrant(d, c, now, Reply(p, true));
    hide HeaderOk, ForClient, Inv, Scan, TermsOf, Get32, Later, Elapsed, Due, BroadcastOf, Receive, Advance, LeaseBase,
         LeaseOk;
  }

  lemma AckGrants(d: Client, p: seq<Byte>, o: Options, t: Tick)
    requires HeaderOk(d, p) && InExchange(d.state) && !(d.valid && Due(t, d.expiresAt))
    requires Scan(p[240..], NO_OPTIONS) == Some(o) && o.kind == Some(5) && ServerOk(d, o)
    requires o.netmask.Some? && TermsOf(o).Some? && Get32(p[16..]) != 0
    requires d.state == Requesting ==> Get32(p[16..]) == d.lease.address
    requires Elapsed(LeaseBase(d, t), t) < 1000 * TermsOf(o).value.lifetime
    ensures var (d', r) := Receive(d, p, t, true);
      && r == 1 && Carried(d'.lease, p, o) && Some(d'.server) == o.server && d'.sendType == 0 && d'.error == 0
      && d'.state == (if d.valid && d.lease.address == Get32(p[16..]) && Some(d.lease.netmask) == o.netmask
                      then Bound else Probing)
      && (d'.state == Bound ==> d'.valid == d.valid) && (d'.state == Probing ==> !d'.valid)
  {
    hide HeaderOk, Scan, TermsOf, Get32, Later, Elapsed, Due, BroadcastOf, LeaseBase;
  }

  /** A refusal by the right server ends the lease; the client starts over a second later. */
  lemma NakEnds(d: Client, c: Clock, p: seq<Byte>, o: Options, now: nat, ok: bool)
    requires Inv(d, c) && Timely(c, Reply(p, ok), now) && InExchange(d.state)
    requires d.valid ==> now < c.Expiry()
    requires ForClient(d, p) && Scan(p[240..], NO_OPTIONS) == Some(o)
    requires o.kind == Some(6) && o.server.Some? && Unicast(o.server.value)
    requires d.state != Rebinding ==> o.server.value == d.server
    ensures var d' := Receive(d, p, Tick32(now), ok).0; var c' := Advance(c, d, Reply(p, ok), now);
            d'.state == Backoff && !d'.valid && d'.lease == NO_LEASE && d'.error == 4 && NextSend(d', c') == now + 1000
  {
    hide HeaderOk, ForClient, Inv, Scan, Get32, Later, Due, Unwrap, Advance, Receive, Tick32;
    HeaderMeans(d, p);
    ServerMeans(o.server.value);
    Unexpired(d, c, now);
    NakRefuses(d, p, o, Tick32(now), ok);
    LaterIs(now, 1000);
    UnwrapIs(now, now + 1000);
    LastIsNow(d, c, Reply(p, ok), now);
  }

  lemma Unexpired(d: Client, c: Clock, now: nat)
    requires Inv(d, c) && c.last <= now < c.checked + TWO31 && (d.valid ==> now < c.Expiry())
    ensures !(d.valid && Due(Tick32(now), d.expiresAt))
  {
    if d.valid {
      LeaseTimesRead(d, c, now);
    }
    hide Due, Sending, Origin;
  }

  lemma NakRefuses(d: Client, p: seq<Byte>, o: Options, t: Tick, ok: bool)
    requires HeaderOk(d, p) && InExchange(d.state) && !(d.valid && Due(t, d.expiresAt))
    requires Scan(p[240..], NO_OPTIONS) == Some(o) && o.kind == Some(6) && ServerOk(d, o)
    ensures var d' := Receive(d, p, t, ok).0;
      && d'.state == Backoff && !d'.valid && d'.lease == NO_LEASE && d'.error == 4 && d'.nextSend == Later(t, 1000)
  {
    hide HeaderOk, Scan, TermsOf, Get32, Later, Elapsed, Due;
  }

  lemma LastIsNow(d: Client, c: Clock, e: Event, now: nat)
    ensures Advance(c, d, e, now).last == now
  {
    hide React, Grants, Probed;
  }

  // ------------------------------------------------------------- the lease terms

  /**
   * The lease is taken for what was granted, at most twenty days. T1 and T2 are
   * those of the reply if they lie within it, else a half and seven eighths of it,
   * in whole seconds.
   */
  lemma TermsMean(o: Options)
    requires TermsOf(o).Some?
    ensures var t := TermsOf(o).value;
      && o.lifetime.Some? && 4 <= o.lifetime.value
      && t.lifetime <= o.lifetime.value && t.lifetime <= 20 * 24 * 3600
      && (t.lifetime == o.lifetime.value || t.lifetime == 20 * 24 * 3600)
      && (if o.t1.Some? && 0 < o.t1.value < t.lifetime then t.t1 == o.t1.value
          else 2 * t.t1 <= t.lifetime < 2 * t.t1 + 2)
      && (if o.t2.Some? && 0 < o.t2.value < t.lifetime then t.t2 == o.t2.value
          else 8 * t.t2 <= 7 * t.lifetime < 8 * t.t2 + 8)
  {
  }

  /** It is refused exactly if it is too short, or T1 does not come before T2. */
  lemma TermsRefused(o: Options, lifetime: nat, t1: nat, t2: nat)
    requires o.lifetime.Some? && lifetime == (if o.lifetime.value <= 1728000 then o.lifetime.value else 1728000)
    requires t1 == if o.t1.Some? && 0 < o.t1.value < lifetime then o.t1.value else lifetime / 2
    requires t2 == if o.t2.Some? && 0 < o.t2.value < lifetime then o.t2.value else lifetime * 7 / 8
    ensures TermsOf(o) == if lifetime >= 4 && t1 < t2 then Some(Terms(lifetime, t1, t2)) else None
  {
  }

  /** The broadcast address is in the network of the address, with all host bits set. */
  lemma BroadcastMeans(ip: Word, mask: Word, host: nat)
    requires host > 0 && mask == TWO32 - host && TWO32 % host == 0
    ensures BroadcastOf(ip, mask) / host == ip / host && BroadcastOf(ip, mask) % host == host - 1
  {
    var q := ip / host;
    Fits(ip, TWO32, host);
    DivMod(q, host, host - 1);
  }

  /** The last address of a network is below the end of them all. */
  lemma Fits(ip: nat, top: nat, host: nat)
    requires host > 0 && top % host == 0 && ip < top
    ensures ip / host * host + host - 1 < top
  {
    var q, n := ip / host, top / host;
    assert top == n * host && ip >= q * host;
    assert q >= n ==> q * host >= n * host;
    assert q < n ==> (q + 1) * host <= n * host;
  }

  lemma DivMod(q: nat, host: nat, r: nat)
    requires r < host
    ensures (q * host + r) / host == q && (q * host + r) % host == r
  {
    var b := q * host + r;
    var x := b / host;
    assert b == x * host + b % host;
    assert x < q ==> (x + 1) * host <= q * host;
    assert x > q ==> (q + 1) * host <= x * host;
  }

  // -------------------------------------------------------------- option codes

  /** A reply's options, each with the code that RFC 2132 gives it. */
  function Sent(kind: Byte, server: Word, mask: Word, router: Word, dns: seq<Word>, lifetime: Word, t1: Word, t2: Word)
    : seq<Tlv>
    requires |dns| == 2
  {
    [Tlv(53, [kind]), Tlv(54, Put32(server)), Tlv(1, Put32(mask)), Tlv(3, Put32(router)),
     Tlv(6, Put32(dns[0]) + Put32(dns[1])), Tlv(51, Put32(lifetime)), Tlv(58, Put32(t1)), Tlv(59, Put32(t2))]
  }

  lemma WordRead(v: Word)
    ensures |Put32(v)| == 4 && Get32(Put32(v)) == v
  {
    GetPut(v, []);
    assert Put32(v) + [] == Put32(v);
  }

  lemma PairRead(v: Word, w: Word)
    ensures var s := Put32(v) + Put32(w); |s| == 8 && Get32(s) == v && Get32(s[4..]) == w
  {
    GetPut(v, Put32(w));
    WordRead(w);
    assert (Put32(v) + Put32(w))[4..] == Put32(w);
  }

  /** The client reads each of them as what was meant. */
  lemma CodesMean(kind: Byte, server: Word, mask: Word, router: Word, dns: seq<Word>, lifetime: Word, t1: Word,
                  t2: Word, rest: seq<Byte>)
    requires |dns| == 2
    ensures var ts := Sent(kind, server, mask, router, dns, lifetime, t1, t2);
      && Sendable(ts)
      && Scan(Emit(ts) + [255] + rest, NO_OPTIONS)
         == Some(Options(Some(kind), Some(server), Some(mask), Some(router), Some(dns), Some(lifetime), Some(t1),
                         Some(t2)))
  {
    hide Scan, Emit, Get32, Put32;
    var ts := Sent(kind, server, mask, router, dns, lifetime, t1, t2);
    forall w: Word ensures |Put32(w)| == 4 && Get32(Put32(w)) == w {
      WordRead(w);
    }
    PairRead(dns[0], dns[1]);
    ScanOfEmitted(ts, NO_OPTIONS, rest);
    GatherEight(ts, NO_OPTIONS);
    assert [dns[0]] + [dns[1]] == dns;
  }

  /** Eight options taken in, one after the other. */
  function TakeOn(o: Option<Options>, t: Tlv): Option<Options> {
    if o.None? then None else Take(o.value, t.code, t.value)
  }

  lemma GatherEight(ts: seq<Tlv>, o: Options)
    requires |ts| == 8
    ensures Gather(ts, o) == TakeOn(TakeOn(TakeOn(TakeOn(TakeOn(TakeOn(TakeOn(TakeOn(Some(o), ts[0]), ts[1]), ts[2]),
                                                                       ts[3]), ts[4]), ts[5]), ts[6]), ts[7])
  {
    hide Take;
    GatherFour(ts, o);
    var h := TakeOn(TakeOn(TakeOn(TakeOn(Some(o), ts[0]), ts[1]), ts[2]), ts[3]);
    if h.Some? {
      GatherFour(ts[4..], h.value);
      assert |ts[4..][4..]| == 0;
    }
  }

  lemma GatherFour(ts: seq<Tlv>, o: Options)
    requires |ts| >= 4
    ensures var h := TakeOn(TakeOn(TakeOn(TakeOn(Some(o), ts[0]), ts[1]), ts[2]), ts[3]);
            Gather(ts, o) == if h.None? then None else Gather(ts[4..], h.value)
  {
    hide Take, Gather;
    var a, b, c := ts[1..], ts[2..], ts[3..];
    assert a[1..] == b && b[1..] == c && c[1..] == ts[4..];
    assert a[0] == ts[1] && b[0] == ts[2] && c[0] == ts[3];
    var g := TakeOn(Some(o), ts[0]);
    GatherOne(ts, o);
    if g.Some? {
      GatherOne(a, g.value);
      var h := TakeOn(g, ts[1]);
      if h.Some? {
        GatherOne(b, h.value);
        var k := TakeOn(h, ts[2]);
        if k.Some? {
          GatherOne(c, k.value);
        }
      }
    }
  }

  lemma GatherOne(ts: seq<Tlv>, o: Options)
    requires ts != []
    ensures var h := TakeOn(Some(o), ts[0]); Gather(ts, o) == if h.None? then None else Gather(ts[1..], h.value)
  {
  }
}
