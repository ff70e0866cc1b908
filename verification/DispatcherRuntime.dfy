/** The dispatcher as the program keeps it: an array of slots, each with a ring of two requests. */
module DispatcherRuntime {
  import opened Base
  import opened Deadline
  import opened Rings
  import opened MbapStream
  import opened PortModel
  import opened PortRuntime
  import opened ModbusAdapter
  import opened ModbusDispatcher

  datatype Slot = Slot(connected: bool, id: Word, epoch: Word, requests: seq<TcpRequest>, head: nat, count: nat,
                       entered: seq<TcpRequest>, left: seq<TcpRequest>)

  predicate SlotOk(s: Slot) {
    && |s.requests| == CLIENT_QUEUE_MAX && s.head < CLIENT_QUEUE_MAX && s.count <= CLIENT_QUEUE_MAX
    && (!s.connected ==> s.id == 0 && s.epoch == 0 && s.count == 0 && s.entered == [] && s.left == [])
  }

  function ClientOf(s: Slot): (c: Client)
    requires SlotOk(s)
    ensures !s.connected ==> c == FREE
  {
    Client(s.connected, s.id, s.epoch, View(s.requests, s.head, s.count), s.entered, s.left)
  }

  function ClientsOf(ss: seq<Slot>): (cs: seq<Client>)
    requires forall i | 0 <= i < |ss| :: SlotOk(ss[i])
    ensures |cs| == |ss| && forall i | 0 <= i < |ss| :: cs[i] == ClientOf(ss[i])
  {
    seq(|ss|, i requires 0 <= i < |ss| => ClientOf(ss[i]))
  }

  lemma ClientsUpdate(ss: seq<Slot>, i: nat, s: Slot)
    requires i < |ss| && SlotOk(s) && forall k | 0 <= k < |ss| :: SlotOk(ss[k])
    ensures var ss' := ss[i := s]; forall k | 0 <= k < |ss'| :: SlotOk(ss'[k])
    ensures ClientsOf(ss[i := s]) == ClientsOf(ss)[i := ClientOf(s)]
  {
  }

  /** `find_slot` and the search for a free slot name the first slot that fits. */
  lemma {:induction false} FindIsFirst(cs: seq<Client>, id: Word, i: nat)
    requires i < |cs| && cs[i].connected && cs[i].id == id
    requires forall k | 0 <= k < i :: !(cs[k].connected && cs[k].id == id)
    ensures Find(cs, id) == Some(i)
    decreases |cs|
  {
    if i > 0 {
      FindIsFirst(cs[1..], id, i - 1);
    }
  }

  lemma {:induction false} FreeIsFirst(cs: seq<Client>, i: nat)
    requires i < |cs| && !cs[i].connected && forall k | 0 <= k < i :: cs[k].connected
    ensures FirstFree(cs) == Some(i)
    decreases |cs|
  {
    if i > 0 {
      FreeIsFirst(cs[1..], i - 1);
    }
  }

  lemma OfferSkips(d: Dispatch, n: nat)
    requires |d.clients| == CLIENT_MAX && n < CLIENT_MAX
    ensures !Waits(d, (d.next + n) % CLIENT_MAX) ==> Offer(d, n) == Offer(d, n + 1)
    ensures Waits(d, (d.next + n) % CLIENT_MAX) ==> Offer(d, n) == Some((d.next + n) % CLIENT_MAX)
  {
  }

  lemma OfferEnds(d: Dispatch)
    requires |d.clients| == CLIENT_MAX
    ensures Offer(d, CLIENT_MAX) == None
  {
  }

  class Dispatcher {
    const clients: array<Slot>
    const blank: TcpRequest
    var next: nat
    var queueFull: Word
    var drops: Word
    var submitted: Word

    ghost predicate Valid()
      reads this, clients
    {
      clients.Length == CLIENT_MAX && next < CLIENT_MAX && forall i | 0 <= i < CLIENT_MAX :: SlotOk(clients[i])
    }

    ghost function Abs(): (d: Dispatch)
      requires Valid()
      reads this, clients
      ensures Shape(d) && |d.clients| == CLIENT_MAX
    {
      Dispatch(ClientsOf(clients[..]), next, queueFull, drops, submitted)
    }

    /** A slot after memset. */
    function Cleared(): (s: Slot)
      ensures SlotOk(s) && !s.connected
    {
      Slot(false, 0, 0, [blank, blank], 0, 0, [], [])
    }

    constructor (blank: TcpRequest)
      ensures Valid() && Abs() == InitDispatch() && fresh(clients)
    {
      this.blank := blank;
      clients := new Slot[CLIENT_MAX](i => Slot(false, 0, 0, [blank, blank], 0, 0, [], []));
      next, queueFull, drops, submitted := 0, 0, 0, 0;
      new;
      assert Abs().clients == InitDispatch().clients;
    }

    /** Overwriting one slot. */
    method Put(i: nat, s: Slot)
      requires Valid() && i < CLIENT_MAX && SlotOk(s)
      modifies clients
      ensures Valid() && Abs() == old(Abs()).(clients := old(Abs()).clients[i := ClientOf(s)])
    {
      ClientsUpdate(clients[..], i, s);
      clients[i] := s;
      assert clients[..] == old(clients[..])[i := s];
    }

    method FindSlot(id: Word) returns (r: Option<nat>)
      requires Valid()
      ensures r == Find(Abs().clients, id)
    {
      for i := 0 to CLIENT_MAX
        invariant forall k | 0 <= k < i :: !(clients[k].connected && clients[k].id == id)
      {
        if clients[i].connected && clients[i].id == id {
          FindIsFirst(Abs().clients, id, i);
          return Some(i);
        }
      }
      r := None;
    }

    method ConnectClient(id: Word, epoch: Word) returns (ok: bool)
      requires Valid()
      modifies clients
      ensures Valid() && ok == Connected(old(Abs()), id, epoch).Some?
      ensures Abs() == if ok then Connected(old(Abs()), id, epoch).value else old(Abs())
    {
      hide Find, FirstFree;
      var present := FindSlot(id);
      if epoch == 0 || present.Some? {
        return false;
      }
      for i := 0 to CLIENT_MAX
        invariant Valid() && Abs() == old(Abs())
        invariant forall k | 0 <= k < i :: clients[k].connected
      {
        if !clients[i].connected {
          FreeIsFirst(Abs().clients, i);
          Put(i, Cleared().(connected := true, id := id, epoch := epoch));
          return true;
        }
      }
      ok := false;
    }

    method DisconnectClient(id: Word, epoch: Word)
      requires Valid()
      modifies this, clients
      ensures Valid() && Abs() == Disconnected(old(Abs()), id, epoch)
    {
      hide Find, Counter;
      var i := FindSlot(id);
      if i.Some? && clients[i.value].epoch == epoch {
        drops := Counter(drops, clients[i.value].count);
        Put(i.value, Cleared());
      }
    }

    method EnqueueRequest(r: TcpRequest) returns (result: EnqueueResult)
      requires Valid()
      modifies this, clients
      ensures Valid() && result == Enqueuing(old(Abs()), r) && Abs() == Enqueued(old(Abs()), r)
    {
      hide Find, Counter, View;
      var i := FindSlot(r.client);
      if i.None? || clients[i.value].epoch != r.epoch {
        return NoClient;
      }
      var s := clients[i.value];
      if s.count == CLIENT_QUEUE_MAX {
        queueFull := Counter(queueFull, 1);
        return ClientQueueFull;
      }
      var tail := (s.head + s.count) % CLIENT_QUEUE_MAX;
      PushedRing(s, r);
      Put(i.value, s.(requests := s.requests[tail := r], count := s.count + 1, entered := s.entered + [r]));
      result := Taken;
    }

    /** `modbus_dispatcher_step`. */
    method StepDispatcher(port: PortRuntime, now: Tick, queueTimeout: Tick, responseTimeout: Tick)
      returns (result: SubmitResult)
      requires Valid() && port.Valid()
      modifies this, clients, port, port.queue, port.queue.entries
      ensures Valid() && port.Valid()
      ensures Offer(old(Abs()), 0) == None ==>
        result == InvalidRequest && Abs() == old(Abs()) && port.Abs() == old(port.Abs())
      ensures Offer(old(Abs()), 0).Some? ==>
        && Abs() == Stepped(old(Abs()), result)
        && var r := old(Abs()).clients[Offer(old(Abs()), 0).value].pending[0];
           && (Translatable(r.adu) ==>
                 port.Abs() == Submit(old(port.Abs()), PortRequest(r, queueTimeout, responseTimeout), now))
           && (!Translatable(r.adu) ==> port.Abs() == old(port.Abs()) && result == InvalidRequest)
    {
      hide Submit, Admission, Counter, View, PortRequest, Offer, Stepped;
      var index := FindOffer();
      if index.None? {
        return InvalidRequest;
      }
      result := Submission(index.value, port, now, queueTimeout, responseTimeout);
    }

    /** The round-robin search. */
    method FindOffer() returns (r: Option<nat>)
      requires Valid()
      ensures r == Offer(Abs(), 0)
    {
      hide Offer, View;
      for n := 0 to CLIENT_MAX
        invariant Offer(Abs(), 0) == Offer(Abs(), n)
      {
        var index := (next + n) % CLIENT_MAX;
        OfferSkips(Abs(), n);
        var s := clients[index];
        if s.connected && s.count != 0 {
          return Some(index);
        }
      }
      OfferEnds(Abs());
      r := None;
    }

    /** The part of a step that found a waiting client. */
    method Submission(index: nat, port: PortRuntime, now: Tick, queueTimeout: Tick, responseTimeout: Tick)
      returns (result: SubmitResult)
      requires Valid() && port.Valid() && Offer(Abs(), 0) == Some(index)
      modifies this, clients, port, port.queue, port.queue.entries
      ensures Valid() && port.Valid() && Abs() == Stepped(old(Abs()), result)
      ensures var r := old(Abs()).clients[index].pending[0];
              && (Translatable(r.adu) ==>
                    port.Abs() == Submit(old(port.Abs()), PortRequest(r, queueTimeout, responseTimeout), now))
              && (!Translatable(r.adu) ==> port.Abs() == old(port.Abs()) && result == InvalidRequest)
    {
      hide Submit, Admission, Counter, View, PortRequest, Offer, Stepped, RtuFrame, Metadata;
      var s := clients[index];
      PoppedRing(s);
      result := TcpSubmit(port, s.requests[s.head], now, queueTimeout, responseTimeout);
      Advance(index, result);
    }

    method Advance(index: nat, result: SubmitResult)
      requires Valid() && Offer(Abs(), 0) == Some(index)
      modifies this, clients
      ensures Valid() && Abs() == Stepped(old(Abs()), result)
    {
      hide Counter, View, Offer;
      var s := clients[index];
      PoppedRing(s);
      next := (index + 1) % CLIENT_MAX;
      if result == Accepted {
        Put(index, s.(head := (s.head + 1) % CLIENT_QUEUE_MAX, count := s.count - 1,
                      left := s.left + [s.requests[s.head]]));
        submitted := Counter(submitted, 1);
      }
    }
  }

  lemma PushedRing(s: Slot, r: TcpRequest)
    requires SlotOk(s) && s.count < CLIENT_QUEUE_MAX
    ensures var tail := (s.head + s.count) % CLIENT_QUEUE_MAX;
            View(s.requests[tail := r], s.head, s.count + 1) == View(s.requests, s.head, s.count) + [r]
  {
    WrapIsMod(CLIENT_QUEUE_MAX, s.head, s.count);
    ViewWritten(s.requests, s.requests[(s.head + s.count) % CLIENT_QUEUE_MAX := r], s.head, s.count, [r]);
  }

  lemma PoppedRing(s: Slot)
    requires SlotOk(s) && s.count > 0
    ensures View(s.requests, s.head, s.count)[0] == s.requests[s.head]
    ensures View(s.requests, (s.head + 1) % CLIENT_QUEUE_MAX, s.count - 1) == View(s.requests, s.head, s.count)[1..]
  {
    ViewDropped(s.requests, s.head, s.count, 1);
  }
}
