/** The DHCP client as the program keeps it: one record, updated in place by every call. */
module DhcpRuntime {
  import opened Base
  import opened Deadline
  import opened DhcpOptions
  import opened DhcpClient
  import opened DhcpMessage

  class ClientRecord {
    var state: ClientState
    var lease: Lease
    var mac: Mac
    var xid: Word
    var server: Word
    var requestedAt: Tick
    var haveRequest: bool
    var started: Tick
    var renewAt: Tick
    var rebindAt: Tick
    var expiresAt: Tick
    var nextSend: Tick
    var retries: nat
    var sendType: SendType
    var valid: bool
    var changed: bool
    var probes: nat
    var error: nat

    ghost function Abs(): Client
      reads this
    {
      Client(state, lease, mac, xid, server, requestedAt, haveRequest, started, renewAt, rebindAt, expiresAt, nextSend,
             retries, sendType, valid, changed, probes, error)
    }

    /** The record as a value. */
    function Value(): (d: Client)
      reads this
      ensures d == Abs()
    {
      Client(state, lease, mac, xid, server, requestedAt, haveRequest, started, renewAt, rebindAt, expiresAt, nextSend,
             retries, sendType, valid, changed, probes, error)
    }

    /** A record that holds nothing. */
    constructor ()
      ensures Abs() == NO_CLIENT
    {
      state, lease, mac, xid := Off, NO_LEASE, [0, 0, 0, 0, 0, 0], 0;
      server, requestedAt, haveRequest, started := 0, 0, false, 0;
      renewAt, rebindAt, expiresAt, nextSend := 0, 0, 0, 0;
      retries, sendType, valid, changed, probes, error := 0, 0, false, false, 0, 0;
    }

    /** `gateway_dhcp_start`: the record is cleared and selecting begins. */
    method StartRecord(mac: Mac, xid: Word, now: Tick)
      modifies this
      ensures Abs() == StartClient(mac, xid, now)
    {
      StartSelecting(mac, xid, now);
      ClearExchange();
      ClearTimers();
      ClearFlags();
      lease, retries := NO_LEASE, 0;
    }

    method StartSelecting(mac: Mac, xid: Word, now: Tick)
      modifies this`state, this`mac, this`xid, this`started, this`nextSend
      ensures Abs() == old(Abs()).(state := Selecting, mac := mac, xid := if xid == 0 then 1 else xid, started := now,
                                   nextSend := now)
    {
      state, this.mac, this.xid := Selecting, mac, if xid == 0 then 1 else xid;
      started, nextSend := now, now;
    }

    method ClearExchange()
      modifies this`server, this`requestedAt, this`haveRequest, this`sendType
      ensures Abs() == old(Abs()).(server := 0, requestedAt := 0, haveRequest := false, sendType := 0)
    {
      server, requestedAt, haveRequest, sendType := 0, 0, false, 0;
    }

    method ClearTimers()
      modifies this`renewAt, this`rebindAt, this`expiresAt
      ensures Abs() == old(Abs()).(renewAt := 0, rebindAt := 0, expiresAt := 0)
    {
      renewAt, rebindAt, expiresAt := 0, 0, 0;
    }

    method ClearFlags()
      modifies this`valid, this`changed, this`probes, this`error
      ensures Abs() == old(Abs()).(valid := false, changed := false, probes := 0, error := 0)
    {
      valid, changed, probes, error := false, false, 0, 0;
    }

    /** `invalidate`. */
    method InvalidateRecord()
      modifies this
      ensures Abs() == Invalidate(old(Abs()))
    {
      if valid {
        changed := true;
      }
      valid, haveRequest, lease := false, false, NO_LEASE;
    }

    /** `gateway_dhcp_stop`. */
    method StopRecord()
      modifies this
      ensures Abs() == StopClient(old(Abs()))
    {
      InvalidateRecord();
      state, sendType, xid := Off, 0, NextWord(xid);
    }

    method BackOff(now: Tick, ms: nat, sendType: SendType)
      modifies this`state, this`nextSend, this`sendType
      ensures Abs() == old(Abs()).(state := Backoff, nextSend := Later(now, ms), sendType := sendType)
    {
      hide Later;
      state, nextSend, this.sendType := Backoff, Later(now, ms), sendType;
    }

    method ReselectRecord(now: Tick)
      modifies this
      ensures Abs() == Reselect(old(Abs()), now)
    {
      hide NextWord;
      InvalidateRecord();
      state, started, retries, xid := Selecting, now, 0, NextWord(xid);
    }

    /** `gateway_dhcp_conflict`. */
    method ConflictRecord(now: Tick)
      modifies this
      ensures Abs() == Conflict(old(Abs()), now)
    {
      hide Later;
      valid, changed, error := false, true, 2;
      BackOff(now, 10000, 4);
    }

    /** `gateway_dhcp_step`. */
    method StepRecord(now: Tick, link: bool)
      modifies this
      ensures Abs() == Step(old(Abs()), now, link)
    {
      hide Renew, Send, Due, Later, Reselect, Invalidate;
      if state == Off {
        return;
      }
      if !link {
        InvalidateRecord();
        BackOff(now, 1000, 0);
        return;
      }
      if (valid || state == Probing) && Due(now, expiresAt) {
        ReselectRecord(now);
        nextSend, error := now, 3;
      }
      if state == Backoff {
        if !Due(now, nextSend) {
          return;
        }
        ReselectRecord(now);
      }
      if state == Probing {
        return;
      }
      RenewRecord(now);
      SendRecord(now);
    }

    method RenewRecord(now: Tick)
      modifies this
      ensures Abs() == Renew(old(Abs()), now)
    {
      hide Due, NextWord;
      if valid && Due(now, rebindAt) && state != Rebinding {
        if state == Bound {
          NewExchange(now);
        }
        state, nextSend, retries := Rebinding, now, 0;
      } else if state == Bound && Due(now, renewAt) {
        NewExchange(now);
        state, nextSend, retries := Renewing, now, 0;
      }
    }

    method NewExchange(now: Tick)
      modifies this`xid, this`started, this`haveRequest
      ensures Abs() == old(Abs()).(xid := NextWord(old(Abs()).xid), started := now, haveRequest := false)
    {
      hide NextWord;
      xid, started, haveRequest := NextWord(xid), now, false;
    }

    method SendRecord(now: Tick)
      modifies this
      ensures Abs() == Send(old(Abs()), now)
    {
      hide Due, Elapsed, Later;
      if state == Bound {
        return;
      }
      if !valid && Elapsed(started, now) >= 30000 {
        BackOff(now, 10000, 0);
        error := 1;
        return;
      }
      if Due(now, nextSend) {
        var delay := if retries < 4 then [1000, 2000, 4000, 8000][retries] else 16000;
        sendType := if state == Selecting then 1 else 3;
        nextSend := Later(now, delay + xid % 256);
        if retries < 4 {
          retries := retries + 1;
        }
      }
    }

    /** `gateway_dhcp_receive`; `ok` is the verdict of the settings check on the lease. */
    method ReceiveRecord(p: seq<Byte>, now: Tick, ok: bool) returns (r: int)
      modifies this
      ensures (Abs(), r) == Receive(old(Abs()), p, now, ok)
    {
      hide Scan, Step, Answer, Due;
      if !(241 <= |p| <= 1500 && p[0] == 2 && p[1] == 1 && p[2] == 6
           && Get32(p[4..]) == xid && p[28..34] == mac && Get32(p[236..]) == COOKIE) {
        return -1;
      }
      if state != Selecting && state != Requesting && state != Renewing && state != Rebinding {
        return -1;
      }
      if valid && Due(now, expiresAt) {
        StepRecord(now, true);
        return -1;
      }
      var scanned := ScanPacket(p);
      if scanned.None? {
        return -1;
      }
      r := AnswerRecord(Get32(p[16..]), scanned.value, now, ok);
    }

    method AnswerRecord(ip: Word, o: Options, now: Tick, ok: bool) returns (r: int)
      modifies this
      ensures (Abs(), r) == Answer(old(Abs()), ip, o, now, ok)
    {
      hide TermsOf, Later, Elapsed, LeaseOf, LeaseBase;
      if !(o.kind.Some? && o.server.Some? && o.server.value != 0
           && o.server.value / 0x100_0000 < 224 && o.server.value / 0x100_0000 != 127) {
        return -1;
      }
      if (state == Requesting || state == Renewing) && o.server.value != server {
        return -1;
      }
      if o.kind.value == 6 && state != Selecting {
        InvalidateRecord();
        BackOff(now, 1000, 0);
        error := 4;
        return 0;
      }
      if (state == Selecting && o.kind.value != 2) || (state != Selecting && o.kind.value != 5) {
        return -1;
      }
      var terms := TermsOf(o);
      if o.netmask.None? || ip == 0 || terms.None? {
        return -1;
      }
      var base := if haveRequest then requestedAt else now;
      assert base == LeaseBase(Abs(), now) by { BaseIs(now); }
      if Elapsed(base, now) >= 1000 * terms.value.lifetime || (state == Requesting && ip != lease.address) || !ok {
        return -1;
      }
      r := TakeLease(LeaseOf(ip, o, terms.value.lifetime), o.server.value, terms.value, now);
    }

    lemma BaseIs(now: Tick)
      ensures (if haveRequest then requestedAt else now) == LeaseBase(Abs(), now)
    {
    }

    /** The tail of `gateway_dhcp_receive`: an offer to request, or a lease granted. */
    method TakeLease(l: Lease, server: Word, t: Terms, now: Tick) returns (r: int)
      modifies this
      ensures old(Abs()).state == Selecting ==> Abs() == Offered(old(Abs()), l, server, now) && r == 0
      ensures old(Abs()).state != Selecting ==> Abs() == Granted(old(Abs()), l, server, t, now) && r == 1
    {
      hide Later, Granted;
      if state == Selecting {
        SetLease(l, server, 3);
        state, haveRequest := Requesting, false;
        nextSend, retries := Later(now, 1000), 0;
        return 0;
      }
      GrantRecord(l, server, t, now);
      r := 1;
    }

    method GrantRecord(l: Lease, server: Word, t: Terms, now: Tick)
      modifies this
      ensures Abs() == Granted(old(Abs()), l, server, t, now)
    {
      hide Later, LeaseBase;
      var base := if haveRequest then requestedAt else now;
      assert base == LeaseBase(Abs(), now) by { BaseIs(now); }
      TakeState(l, now);
      SetLease(l, server, 0);
      SetTimers(base, t);
      changed, error := true, 0;
    }

    /** A lease that only goes on is in use at once, another one is probed first. */
    method TakeState(l: Lease, now: Tick)
      modifies this`state, this`valid, this`probes, this`nextSend
      ensures var d := old(Abs());
              Abs() == if d.valid && d.lease.address == l.address && d.lease.netmask == l.netmask
                       then d.(state := Bound)
                       else d.(state := Probing, valid := false, probes := 0, nextSend := now)
    {
      if valid && lease.address == l.address && lease.netmask == l.netmask {
        state := Bound;
      } else {
        StartProbing(now);
      }
    }

    method StartProbing(now: Tick)
      modifies this`state, this`valid, this`probes, this`nextSend
      ensures Abs() == old(Abs()).(state := Probing, valid := false, probes := 0, nextSend := now)
    {
      state, valid, probes, nextSend := Probing, false, 0, now;
    }

    method SetLease(l: Lease, server: Word, sendType: SendType)
      modifies this`lease, this`server, this`sendType
      ensures Abs() == old(Abs()).(lease := l, server := server, sendType := sendType)
    {
      lease, this.server, this.sendType := l, server, sendType;
    }

    method SetTimers(base: Tick, t: Terms)
      modifies this`renewAt, this`rebindAt, this`expiresAt
      ensures Abs() == old(Abs()).(renewAt := Later(base, 1000 * t.t1), rebindAt := Later(base, 1000 * t.t2),
                                   expiresAt := Later(base, 1000 * t.lifetime))
    {
      hide Later;
      renewAt, rebindAt := Later(base, 1000 * t.t1), Later(base, 1000 * t.t2);
      expiresAt := Later(base, 1000 * t.lifetime);
    }

    /** `gateway_dhcp_probed`. */
    method ProbedRecord(now: Tick) returns (r: int)
      modifies this
      ensures (Abs(), r) == Probed(old(Abs()), now)
    {
      hide Step, Due;
      if state != Probing {
        return -1;
      }
      if Due(now, expiresAt) {
        StepRecord(now, true);
        return -1;
      }
      state, valid, changed := Bound, true, true;
      r := 0;
    }

    /** `gateway_dhcp_packet`: the packet's bytes go into `p`, and the record notes the first REQUEST. */
    method PacketRecord(p: array<Byte>, now: Tick) returns (n: nat)
      modifies this, p
      ensures Abs() == Packet(old(Abs()), p.Length, now)
      ensures n == if old(Abs()).sendType == 0 || p.Length < MESSAGE_SIZE then 0 else MESSAGE_SIZE
      ensures p[..] == (if n == 0 then [] else Message(old(Abs()), now)) + old(p[n..])
    {
      hide Message, Elapsed;
      if sendType == 0 || p.Length < MESSAGE_SIZE {
        return 0;
      }
      n := Fill(Value(), p, now);
      NoteSent(now);
    }

    /** A packet is sent: its time counts if it is the first REQUEST. */
    method NoteSent(now: Tick)
      requires sendType != 0
      modifies this`requestedAt, this`haveRequest, this`sendType
      ensures Abs() == Packet(old(Abs()), MESSAGE_SIZE, now)
    {
      if sendType == 3 && !haveRequest {
        requestedAt, haveRequest := now, true;
      }
      sendType := 0;
    }
  }
}
