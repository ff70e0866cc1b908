/**
 * What the network owner wants, said without the way it is computed: every field
 * of the wanted network comes from the policy, from a lease in use or from the
 * network seen; and no address is written that is neither the policy's nor that
 * of a lease granted, probed and unexpired.
 */
module OwnerTargets {
  import opened Base
  import opened Deadline
  import opened DhcpClient
  import opened DhcpLease
  import opened NetworkOwner
  import opened LanProperties
  import opened Claims = OwnerProperties

  // ------------------------------------------------------------- dotted decimal

  /** The number a string of digits stands for. */
  function Value(s: string): nat
    requires forall i | 0 <= i < |s| :: '0' <= s[i] <= '9'
  {
    if s == [] then 0 else 10 * Value(s[..|s| - 1]) + (s[|s| - 1] as int - '0' as int)
  }

  /** A decimal of the number, as people write it. */
  ghost predicate Writes(s: string, n: nat) {
    && s != [] && (forall i | 0 <= i < |s| :: '0' <= s[i] <= '9') && Value(s) == n
    && (s[0] == '0' ==> |s| == 1)
  }

  lemma NoLeadingZero(t: string, m: nat)
    requires Writes(t, m) && m >= 1
    ensures t[0] != '0'
  {
    if |t| == 1 {
      OneDigit(t);
    }
  }

  lemma OneDigit(s: string)
    requires |s| == 1 && '0' <= s[0] <= '9'
    ensures Value(s) == s[0] as int - '0' as int
  {
    assert s[..0] == [];
  }

  lemma DigitIs(k: nat)
    requires k < 10
    ensures '0' <= DIGITS[k] <= '9' && DIGITS[k] as int - '0' as int == k
  {
  }

  lemma OneMoreDigit(t: string, m: nat, k: nat)
    requires Writes(t, m) && m >= 1 && k < 10
    ensures Writes(t + [DIGITS[k]], 10 * m + k)
  {
    NoLeadingZero(t, m);
    DigitIs(k);
    var s := t + [DIGITS[k]];
    assert s[..|s| - 1] == t;
  }

  lemma {:induction false} DecimalWrites(n: nat)
    ensures Writes(Decimal(n), n)
  {
    if n < 10 {
      DigitIs(n);
      OneDigit(Decimal(n));
    } else {
      DecimalWrites(n / 10);
      OneMoreDigit(Decimal(n / 10), n / 10, n % 10);
      hide Writes;
    }
  }

  /** An address as text: the four octets in decimal, most significant first, with dots between. */
  ghost predicate Reads(s: string, w: Word) {
    exists a: string, b: string, c: string, d: string ::
      && s == a + "." + b + "." + c + "." + d
      && Writes(a, Put32(w)[0]) && Writes(b, Put32(w)[1]) && Writes(c, Put32(w)[2]) && Writes(d, Put32(w)[3])
  }

  lemma DottedReads(w: Word)
    ensures Reads(Dotted(w), w)
  {
    hide Decimal, Put32, Writes;
    Octets(w);
    var a, b, c, d := Put32(w)[0], Put32(w)[1], Put32(w)[2], Put32(w)[3];
    DecimalWrites(a);
    DecimalWrites(b);
    DecimalWrites(c);
    DecimalWrites(d);
    assert Dotted(w) == Decimal(a) + "." + Decimal(b) + "." + Decimal(c) + "." + Decimal(d);
  }

  lemma Octets(w: Word)
    ensures Put32(w) == [w / 0x100_0000, w / 0x1_0000 % 256, w / 256 % 256, w % 256]
  {
  }

  // ---------------------------------------------------------- what is wanted

  /** What is wanted of a LAN that is seen as `seen`. */
  ghost predicate WantedLan(v: LanView, seen: LanView, p: LanPolicy, d: Client) {
    && v == seen.(up := true, address := v.address, netmask := v.netmask, broadcast := v.broadcast)
    && (!p.dhcp ==>
          p.broadcast == Some(v.broadcast) && v.address == p.address && v.netmask == p.netmask)
    && (p.dhcp && d.valid ==>
          v.address == Dotted(d.lease.address) && v.netmask == Dotted(d.lease.netmask)
          && v.broadcast == Dotted(d.lease.broadcast))
    && (p.dhcp && !d.valid ==> v.address == v.netmask == v.broadcast == "")
  }

  /** The client of a LAN. */
  function ClientOf(lan: nat, d1: Client, d2: Client): Client { if lan == 1 then d1 else d2 }

  /** The one route: by the LAN of the policy, if that has a gateway. */
  ghost predicate WantedRoute(v: View, p: Policy, d1: Client, d2: Client) {
    var lan := p.defaultLan;
    var d := ClientOf(lan, d1, d2);
    && (v.gateway == "" ==> v.defaultLan == v.defaultRoutes == 0)
    && (v.gateway != "" ==> v.defaultLan == lan && lan != 0 && v.defaultRoutes == 1)
    && (lan != 0 && !p.At(lan).dhcp ==> v.gateway == p.At(lan).gateway)
    && (lan != 0 && p.At(lan).dhcp && d.valid && d.lease.router.Some? ==> v.gateway == Dotted(d.lease.router.value))
    && (lan != 0 && p.At(lan).dhcp && !(d.valid && d.lease.router.Some?) ==> v.gateway == "")
  }

  /** The LAN whose lease gives the name servers: that of the policy, else the default LAN. */
  function DnsLan(p: Policy): nat { if p.dnsLan != 0 then p.dnsLan else p.defaultLan }

  /** The name servers, in order, and the resolver file. */
  ghost predicate WantedNames(v: View, text: string, p: Policy, d1: Client, d2: Client, k: Checks) {
    var d := ClientOf(DnsLan(p), d1, d2);
    var leased := DnsLan(p) != 0 && d.valid;
    && (!p.automaticDns ==> v.dns == p.dns && text == p.resolver)
    && (p.automaticDns ==>
          && k.resolver(p.resolver, v.dns) == Some(text)
          && v.dns.0 == (if leased && |d.lease.dns| >= 1 then Dotted(d.lease.dns[0]) else "")
          && v.dns.1 == (if leased && |d.lease.dns| >= 2 then Dotted(d.lease.dns[1]) else ""))
  }

  ghost predicate Wanted(v: View, text: string, p: Policy, seen: View, d1: Client, d2: Client, k: Checks) {
    && WantedLan(v.first, seen.first, p.first, d1) && WantedLan(v.second, seen.second, p.second, d2)
    && WantedRoute(v, p, d1, d2) && WantedNames(v, text, p, d1, d2, k)
    && !v.unsupported && k.settings(v)
  }

  /**
   * The owner has a target exactly when both LANs are present and there is a
   * network wanted that passes the settings check, and then that is its target.
   */
  lemma TargetMeans(p: Policy, seen: View, d1: Client, d2: Client, k: Checks)
    ensures Target(p, seen, d1, d2, k).Some? ==>
              var (v, text) := Target(p, seen, d1, d2, k).value; Wanted(v, text, p, seen, d1, d2, k)
    ensures forall v, text :: Wanted(v, text, p, seen, d1, d2, k) && seen.first.present && seen.second.present ==>
              Target(p, seen, d1, d2, k) == Some((v, text))
    ensures Target(p, seen, d1, d2, k).Some? ==> seen.first.present && seen.second.present
  {
    hide Dotted;
    if Target(p, seen, d1, d2, k).Some? {
      TargetIsWanted(p, seen, d1, d2, k);
    }
    forall v, text | Wanted(v, text, p, seen, d1, d2, k) && seen.first.present && seen.second.present
      ensures Target(p, seen, d1, d2, k) == Some((v, text))
    {
      WantedIsTarget(v, text, p, seen, d1, d2, k);
    }
    hide Wanted;
  }

  lemma DottedIsText(w: Word)
    ensures Dotted(w) != ""
  {
    hide Decimal;
    assert |Dotted(w)| >= 3;
  }

  lemma TargetIsWanted(p: Policy, seen: View, d1: Client, d2: Client, k: Checks)
    requires Target(p, seen, d1, d2, k).Some?
    ensures var (v, text) := Target(p, seen, d1, d2, k).value; Wanted(v, text, p, seen, d1, d2, k)
  {
    hide Dotted;
    forall w ensures Dotted(w) != "" {
      DottedIsText(w);
    }
  }

  lemma WantedIsTarget(v: View, text: string, p: Policy, seen: View, d1: Client, d2: Client, k: Checks)
    requires Wanted(v, text, p, seen, d1, d2, k) && seen.first.present && seen.second.present
    ensures Target(p, seen, d1, d2, k) == Some((v, text))
  {
    hide Dotted;
    assert LanTarget(seen.first, p.first, d1) == Some(v.first);
    assert LanTarget(seen.second, p.second, d2) == Some(v.second);
    assert Names(p, d1, d2, k) == Some((v.dns, text)) by { hide LanTarget; }
    hide LanTarget, Names, LeasedDns;
  }

  /** What a write can change, and what is only seen, make up the whole view. */
  lemma SameIsAll(a: View, b: View)
    requires Same(a, b) && a.unsupported == b.unsupported && a.defaultRoutes == b.defaultRoutes
    requires a.first.present == b.first.present && a.first.link == b.first.link && a.first.mac == b.first.mac
    requires a.second.present == b.second.present && a.second.link == b.second.link && a.second.mac == b.second.mac
    ensures a == b
  {
  }

  // ------------------------------------------------------------ over histories

  /** A lease granted and unexpired, its address probed three times before it was used. */
  ghost predicate Proven(c: Clock, now: nat) {
    && now < c.Expiry()
    && c.probed.Some? && c.probed.value.address == c.granted.address && c.probed.value.netmask == c.granted.netmask
    && Enough(c.probed.value)
  }

  /** The address is the policy's, that of a lease granted, probed and unexpired, or none. */
  ghost predicate Rightful(v: LanView, p: LanPolicy, l: LanState, now: nat) {
    if !p.dhcp then v.address == p.address && v.netmask == p.netmask && p.broadcast == Some(v.broadcast)
    else v.address == "" || (Proven(l.clock, now) && v.address == Dotted(l.clock.granted.address)
                             && v.netmask == Dotted(l.clock.granted.netmask))
  }

  ghost predicate AllRightful(v: View, o: Owner, now: nat) {
    Rightful(v.first, o.policy.first, o.first, now) && Rightful(v.second, o.policy.second, o.second, now)
  }

  /** The step asked its provider for a write, and the provider began it. */
  predicate BeginsWrite(o: Owner, q: Owner) {
    |q.log| > |o.log| && q.log[|q.log| - 1].Began?
  }

  lemma LeaseIsProven(l: LanState, now: nat)
    requires Good(l, now) && l.client.valid
    ensures Proven(l.clock, now) && l.client.lease == l.clock.granted
  {
    hide Core, Sending, Enough, Pacing, Rested;
  }

  /** Where both clients are in order, whatever is wanted is rightful. */
  lemma TargetIsRightful(o: Owner, k: Checks)
    requires BothGood(o) && TargetNow(o, k).Some?
    ensures AllRightful(TargetNow(o, k).value.0, o, o.last)
  {
    TargetMeans(o.policy, o.observed, o.first.client, o.second.client, k);
    assert Good(o.At(1), o.last) && Good(o.At(2), o.last);
    if o.first.client.valid {
      LeaseIsProven(o.first, o.last);
    }
    if o.second.client.valid {
      LeaseIsProven(o.second, o.last);
    }
    hide Good, Target, Dotted, Proven, WantedRoute, WantedNames, Claims.Rightful;
  }

  /** Nothing but the writer and what is said of it differs, and no write was begun. */
  ghost predicate NoWrite(o: Owner, q: Owner) {
    && q.first == o.first && q.second == o.second && q.policy == o.policy && q.observed == o.observed
    && q.target == o.target && q.last == o.last && q.settled == o.settled
    && |q.log| >= |o.log| && (q.log == o.log || !q.log[|q.log| - 1].Began?)
  }

  lemma CancelBegins(o: Owner, ok: bool)
    ensures NoWrite(o, Cancel(o, ok))
  {
  }

  lemma AwaitBegins(o: Owner, a: Answers, now: nat)
    ensures NoWrite(o, Await(o, a, now))
  {
    CancelBegins(o, a.cancel);
    ReapBegins(if Outdated(o, now) then Cancel(o, a.cancel) else o, a.poll, now);
    hide Outdated, Cancel, Reap;
  }

  lemma ReapBegins(o: Owner, poll: int, now: nat)
    ensures NoWrite(o, Reap(o, poll, now)) && |Reap(o, poll, now).log| == |o.log| + 1
    ensures var q := Reap(o, poll, now); !q.log[|q.log| - 1].Began?
  {
    hide Same, Later;
  }

  lemma WriteBegins(o: Owner, a: Answers, now: nat)
    ensures var q := Write(o, a, now);
      && NoWrite(o.(log := q.log), q)
      && |q.log| > |o.log| && (q.log[|q.log| - 1].Began? ==> q.writing == q.target)
  {
    hide Later;
  }

  /** The end of a step: what it begins to write, or finds settled, is the target of that moment. */
  ghost predicate OnTarget(ph: Phase, q: Owner) {
    && q.first == ph.o.first && q.second == ph.o.second && q.policy == ph.o.policy && q.observed == ph.o.observed
    && q.target == ph.o.target && q.last == ph.o.last && |q.log| >= |ph.o.log|
    && (q.log != ph.o.log && q.log != [] && q.log[|q.log| - 1].Began? ==> ph.go && q.writing == q.target)
    && (q.settled && !ph.o.settled ==> ph.go && Same(q.observed, q.target))
  }

  lemma ConcludesOnTarget(ph: Phase, a: Answers, now: nat)
    ensures OnTarget(ph, Conclude(ph, a, now))
  {
    hide Await, Write, NeedsWrite, Same, Eligible;
    AwaitBegins(ph.o, a, now);
    WriteBegins(ph.o, a, now);
  }

  /** Looking begins no write. */
  lemma LookBegins(o: Owner, a: Answers, now: nat)
    ensures var q := Look(o, a, now).o; |q.log| >= |o.log| && (q.log == o.log || !q.log[|q.log| - 1].Began?)
  {
    CancelBegins(Unsighted(o, a.view, now), a.cancel);
    hide Cancel, Due, Later;
  }

  lemma StepIsRightful(o: Owner, a: Answers, k: Checks, now: nat)
    requires OwnerInv(o, k) && Claims.Timely(o, now)
    ensures var q := OwnerStep(o, a, k, now);
      && (BeginsWrite(o, q) ==> AllRightful(q.writing, q, now))
      && (o.active && q.settled ==> AllRightful(q.observed, q, now))
  {
    hide Refreshed, Look, ServeLan, Rebuild, Conclude, WriterOk, LookOk, LanOk, LanGood, Watched, Target,
         SettledMeans, ReadyMeans, Same, AllRightful;
    if o.active {
      var r := Refreshed(o, now);
      RefreshedIsGood(o, now);
      LookLeavesLans(r, a, now);
      LookBegins(r, a, now);
      var l := Look(r, a, now);
      ServedIsGood(l, a, now);
      var s := Served(o, a, now);
      RebuildIsGood(s, k, now);
      var t := Rebuild(s, k, now);
      ConcludesOnTarget(t, a, now);
      if t.go {
        TargetIsRightful(t.o, k);
        OnlyTheWriter(t.o, Conclude(t, a, now), now);
      }
    }
  }

  /** Who is rightful depends on the policy and the clients only, and on the fields a write can change. */
  lemma OnlyTheWriter(o: Owner, q: Owner, now: nat)
    requires q.first == o.first && q.second == o.second && q.policy == o.policy
    ensures forall v :: AllRightful(v, o, now) <==> AllRightful(v, q, now)
    ensures forall v, w :: Same(v, w) && AllRightful(w, q, now) ==> AllRightful(v, q, now)
  {
    hide Proven, Dotted;
  }

  /**
   * Over every timely history: whenever a step begins a write, and whenever it
   * settles, each address written, or seen, is the one the policy gives the LAN,
   * or none, or that of a lease that was granted, has not expired, and whose
   * address was probed three times before it was taken into use.
   */
  lemma WritesAreRightful(seed: Word, es: seq<(nat, OwnerEvent)>, e: OwnerEvent, now: nat, k: Checks)
    requires var o := OwnerRun(InitOwner(seed), es, k);
             Claims.AllTimely(InitOwner(seed), es, k) && Claims.Timely(o, now)
    ensures var o := OwnerRun(InitOwner(seed), es, k);
            var q := OwnerReact(o, e, k, now);
      && (BeginsWrite(o, q) ==> AllRightful(q.writing, q, now))
      && (e.StepOnce? && o.active && q.settled ==> AllRightful(q.observed, q, now))
  {
    hide OwnerInv, OwnerStep, AllRightful, OwnerRun, InitOwner, Claims.Timely, Claims.AllTimely, TakePolicy, StopOwner;
    InitIsGood(seed, k);
    OwnerHistoryKeeps(InitOwner(seed), es, k);
    var o := OwnerRun(InitOwner(seed), es, k);
    match e {
      case StepOnce(a) => StepIsRightful(o, a, k, now);
      case PolicySet(p, cancel) => PolicyBegins(o, p, cancel, k, now);
      case Stopped(cancel) => StopBegins(o, cancel, now);
    }
  }

  lemma PolicyBegins(o: Owner, p: Policy, cancel: bool, k: Checks, now: nat)
    ensures !BeginsWrite(o, TakePolicy(o, p, cancel, k, now).0)
  {
    var c := if o.job then Cancel(o, cancel) else o;
    CancelBegins(o, cancel);
    SwitchLog(c, p, 1, now);
    SwitchLog(SwitchLan(c, p, 1, now), p, 2, now);
    hide Cancel, SwitchLan;
  }

  lemma SwitchLog(o: Owner, p: Policy, lan: nat, now: nat)
    ensures SwitchLan(o, p, lan, now).log == o.log
  {
    hide CloseLan;
    CloseLog(o, lan, now);
  }

  lemma CloseLog(o: Owner, lan: nat, now: nat)
    ensures CloseLan(o, lan, now).log == o.log
  {
    hide Do, Owner.At;
    PutLog(o, lan, Do(o.At(lan), Halt, now).(open := false));
    hide Owner.Put;
  }

  lemma PutLog(o: Owner, lan: nat, l: LanState)
    ensures o.Put(lan, l).log == o.log
  {
  }

  lemma StopBegins(o: Owner, cancel: bool, now: nat)
    ensures !BeginsWrite(o, StopOwner(o, cancel, now))
  {
    hide Cancel, CloseLan;
    var c := CloseLan(CloseLan(o, 1, now), 2, now);
    CloseLog(o, 1, now);
    CloseLog(CloseLan(o, 1, now), 2, now);
    CancelBegins(c, cancel);
  }
}
