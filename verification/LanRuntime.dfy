/** One LAN of the network owner as the program keeps it: its packet socket over a DHCP client. */
module LanRuntime {
  import opened Base
  import opened Deadline
  import opened DhcpClient
  import opened DhcpMessage
  import opened DhcpLease
  import opened NetworkOwner
  import Dhcp = DhcpRuntime

  class LanRecord {
    const client: Dhcp.ClientRecord
    var open: bool
    var probeAt: Tick
    /** Record for the proofs. */
    ghost var clock: Clock
    ghost const Repr: set<object>

    ghost predicate Valid()
      reads Repr
    {
      Repr == {this, client}
    }

    ghost function Abs(): LanState
      requires Valid()
      reads Repr
    {
      LanState(client.Abs(), open, probeAt, clock)
    }

    constructor ()
      ensures Valid() && Abs() == NO_LAN && fresh(Repr)
    {
      var c := new Dhcp.ClientRecord();
      client, open, probeAt, clock := c, false, 0, FirstClock(0);
      Repr := {this, c};
    }

    /** The clock's record of a call that was made of the client. */
    ghost method Recorded(d: Client, e: Event, now: nat)
      requires Valid()
      modifies this`clock
      ensures Valid() && Abs() == old(Abs()).(clock := Advance(old(Abs()).clock, d, e, now))
    {
      clock := Advance(clock, d, e, now);
    }

    /** The packet the client wants to send, built in a buffer of its own; empty if there is none. */
    method SendPacket(capacity: nat, now: nat) returns (packet: seq<Byte>)
      requires Valid()
      modifies client
      ensures Valid() && client.Abs() == DhcpClient.Packet(old(client.Abs()), capacity, Tick32(now))
      ensures packet == if old(client.Abs()).sendType == 0 || capacity < MESSAGE_SIZE then []
                        else Message(old(client.Abs()), Tick32(now))
    {
      hide Message, DhcpClient.Packet;
      var p := new Byte[capacity](i => 0);
      var n := client.PacketRecord(p, Tick32(now));
      packet := p[..n];
    }

    /** A call of the client that answers nothing. */
    method Give(e: Event, now: nat)
      requires Valid() && !e.Reply?
      modifies Repr
      ensures Valid() && Abs() == Do(old(Abs()), e, now)
    {
      hide Advance, StartClient, StopClient, Step, Probed, DhcpClient.Packet, Conflict;
      ghost var d := client.Abs();
      match e {
        case Begin(mac, xid) => client.StartRecord(mac, xid, Tick32(now));
        case Halt => client.StopRecord();
        case Tock(link) => client.StepRecord(Tick32(now), link);
        case ProbeSent =>
          if client.state == Probing {
            client.probes := client.probes + 1;
          }
        case ProbeDone => var _ := client.ProbedRecord(Tick32(now));
        case Transmit(capacity) => var _ := SendPacket(capacity, now);
        case AddressConflict => client.ConflictRecord(Tick32(now));
      }
      assert client.Abs() == React(d, e, Tick32(now));
      hide React;
      Recorded(d, e, now);
    }

    /** A reply for the client; whether it granted a lease. */
    method Deliver(p: seq<Byte>, ok: bool, now: nat) returns (granted: bool)
      requires Valid()
      modifies Repr
      ensures Valid() && Abs() == Do(old(Abs()), Reply(p, ok), now)
      ensures granted <==> Grants(old(Abs()).client, Reply(p, ok), Tick32(now))
    {
      hide Advance, Receive;
      ghost var d := client.Abs();
      var r := client.ReceiveRecord(p, Tick32(now), ok);
      granted := r == 1;
      Recorded(d, Reply(p, ok), now);
    }

    /** One packet from the socket. */
    method TakePacket(i: Incoming, now: nat)
      requires Valid() && (i.Arp? || i.Packet?)
      modifies Repr
      ensures Valid() && Abs() == TakeIn(old(Abs()), i, now)
    {
      hide Do, Grants, Later;
      match i {
        case Arp(a) =>
          if client.lease.address != 0 && a == client.lease.address {
            Give(AddressConflict, now);
          }
        case Packet(p, ok) =>
          var granted := Deliver(p, ok, now);
          if granted && client.state == Probing {
            probeAt := Later(Tick32(now), client.xid % 1000);
          }
      }
    }

    /** The socket is closed and its client stopped. */
    method CloseSocket(now: nat)
      requires Valid()
      modifies Repr
      ensures Valid() && Abs() == Do(old(Abs()), Halt, now).(open := false)
    {
      hide Do;
      Give(Halt, now);
      open := false;
    }

    /** The receive loop: at most four packets, none after a broken socket. */
    method DrainPackets(incoming: seq<Incoming>, now: nat) returns (broken: bool)
      requires Valid()
      modifies Repr
      ensures Valid() && (Abs(), broken) == Drain(old(Abs()), incoming, 4, now)
    {
      hide TakeIn, Do, LanRecord.Valid, LanRecord.Abs;
      broken := false;
      ghost var goal := Drain(Abs(), incoming, 4, now);
      var packet := 0;
      while packet < 4
        invariant 0 <= packet <= 4 && packet <= |incoming| && !broken && Valid()
        invariant Drain(Abs(), incoming[packet..], 4 - packet, now) == goal
      {
        if packet == |incoming| || incoming[packet] == Nothing {
          return;
        }
        if incoming[packet] == Broken {
          CloseSocket(now);
          return true;
        }
        assert incoming[packet..][1..] == incoming[packet + 1..];
        TakePacket(incoming[packet], now);
        packet := packet + 1;
      }
    }

    /** An address probe, if one is due; whether it could not be sent. */
    method SendProbe(ok: bool, now: nat) returns (refused: bool)
      requires Valid()
      modifies Repr
      ensures Valid() && Abs() == Probe(old(Abs()), ok, now) && refused == ProbeRefused(old(Abs()), ok, now)
    {
      hide Do, Due, Later;
      refused := false;
      if client.state != Probing || !Due(Tick32(now), probeAt) {
        return;
      }
      if client.probes >= 3 {
        Give(ProbeDone, now);
      } else if !ok {
        Give(AddressConflict, now);
        refused := true;
      } else {
        CountProbe(now);
      }
    }

    method CountProbe(now: nat)
      requires Valid() && client.state == Probing
      modifies Repr
      ensures Valid()
      ensures var n := Do(old(Abs()), ProbeSent, now);
              Abs() == n.(probeAt := Later(Tick32(now),
                                           if n.client.probes == 3 then 2000 else 1000 + n.client.xid % 1000))
    {
      hide Later, Advance;
      Give(ProbeSent, now);
      probeAt := Later(Tick32(now), if client.probes == 3 then 2000 else 1000 + client.xid % 1000);
    }

    method Send(capacity: nat, now: nat)
      requires Valid()
      modifies Repr
      ensures Valid() && Abs() == Transmitted(old(Abs()), capacity, now)
    {
      hide Do;
      if client.sendType != 0 {
        Give(Transmit(capacity), now);
      }
    }

    /** One turn of a LAN whose socket is open: tick, packets, request, probe. */
    method ServeSocket(link: bool, a: LanAnswers, now: nat, error: nat) returns (valid: bool, failed: nat)
      requires Valid()
      modifies Repr
      ensures Valid() && Abs() == Serve(old(Abs()), link, a, now)
              && failed == ServeError(old(Abs()), link, a, now, error)
      ensures valid == Abs().client.valid
    {
      hide Do, Drain, Probe, ProbeRefused, Transmitted;
      Give(Tock(link), now);
      var broken := DrainPackets(a.incoming, now);
      Send(a.capacity, now);
      var refused := SendProbe(a.probe, now);
      client.changed := false;
      failed := if refused then 4 else if broken then 3 else error;
      valid := client.valid;
    }
  }
}
