/**
 * The dispatcher that shares one port among eight Modbus/TCP clients: a small
 * queue for each, and a round-robin index over the slots.
 */
module ModbusDispatcher {
  import opened Base
  import opened MbapStream
  import opened PortModel
  import opened ModbusAdapter

  const CLIENT_MAX := 8
  const CLIENT_QUEUE_MAX := 2

  // ------------------------------------------------------------ what it does

  /**
   * A slot; `entered` and `left` record what was queued and what was taken by
   * the port since the client connected.
   */
  datatype Client = Client(connected: bool, id: Word, epoch: Word, pending: seq<TcpRequest>,
                           entered: seq<TcpRequest>, left: seq<TcpRequest>)

  const FREE := Client(false, 0, 0, [], [], [])

  datatype Dispatch = Dispatch(clients: seq<Client>, next: nat, queueFull: Word, drops: Word, submitted: Word)

  ghost predicate Shape(d: Dispatch) { |d.clients| == CLIENT_MAX && d.next < CLIENT_MAX }

  function InitDispatch(): Dispatch { Dispatch(seq(CLIENT_MAX, _ => FREE), 0, 0, 0, 0) }

  /** `find_slot`: the first connected slot with this id. */
  function Find(cs: seq<Client>, id: Word): (r: Option<nat>)
    ensures r.Some? ==> r.value < |cs| && cs[r.value].connected && cs[r.value].id == id
    ensures r.None? ==> forall i | 0 <= i < |cs| :: !(cs[i].connected && cs[i].id == id)
  {
    if cs == [] then None
    else if cs[0].connected && cs[0].id == id then Some(0)
    else match Find(cs[1..], id) case None => None case Some(i) => Some(i + 1)
  }

  function FirstFree(cs: seq<Client>): (r: Option<nat>)
    ensures r.Some? ==> r.value < |cs| && !cs[r.value].connected
    ensures r.None? ==> forall i | 0 <= i < |cs| :: cs[i].connected
  {
    if cs == [] then None
    else if !cs[0].connected then Some(0)
    else match FirstFree(cs[1..]) case None => None case Some(i) => Some(i + 1)
  }

  function Connected(d: Dispatch, id: Word, epoch: Word): Option<Dispatch> {
    if epoch == 0 || Find(d.clients, id).Some? || FirstFree(d.clients).None? then None
    else Some(d.(clients := d.clients[FirstFree(d.clients).value := Client(true, id, epoch, [], [], [])]))
  }

  function Disconnected(d: Dispatch, id: Word, epoch: Word): Dispatch {
    match Find(d.clients, id)
    case None => d
    case Some(i) =>
      if d.clients[i].epoch != epoch then d
      else d.(drops := Counter(d.drops, |d.clients[i].pending|), clients := d.clients[i := FREE])
  }

  datatype EnqueueResult = Taken | NoClient | ClientQueueFull

  function Enqueuing(d: Dispatch, r: TcpRequest): EnqueueResult {
    match Find(d.clients, r.client)
    case None => NoClient
    case Some(i) =>
      if d.clients[i].epoch != r.epoch then NoClient
      else if |d.clients[i].pending| >= CLIENT_QUEUE_MAX then ClientQueueFull else Taken
  }

  function Enqueued(d: Dispatch, r: TcpRequest): Dispatch {
    match Enqueuing(d, r)
    case NoClient => d
    case ClientQueueFull => d.(queueFull := Counter(d.queueFull, 1))
    case Taken =>
      var i := Find(d.clients, r.client).value;
      var c := d.clients[i];
      d.(clients := d.clients[i := c.(pending := c.pending + [r], entered := c.entered + [r])])
  }

  predicate Waits(d: Dispatch, i: nat) {
    i < |d.clients| && d.clients[i].connected && d.clients[i].pending != []
  }

  /** The slot whose head the next step offers: the first one waiting, from `next` around. */
  function Offer(d: Dispatch, n: nat): (r: Option<nat>)
    requires |d.clients| == CLIENT_MAX
    ensures r.Some? ==> Waits(d, r.value)
    decreases CLIENT_MAX - n
  {
    if n >= CLIENT_MAX then None else
    var i := (d.next + n) % CLIENT_MAX;
    if Waits(d, i) then Some(i) else Offer(d, n + 1)
  }

  /** A step in which the port answers `result`. */
  function Stepped(d: Dispatch, result: SubmitResult): Dispatch
    requires |d.clients| == CLIENT_MAX
  {
    match Offer(d, 0)
    case None => d
    case Some(i) =>
      var c := d.clients[i];
      var e := d.(next := (i + 1) % CLIENT_MAX);
      if result == Accepted then
        e.(clients := d.clients[i := c.(pending := c.pending[1..], left := c.left + [c.pending[0]])],
           submitted := Counter(d.submitted, 1))
      else e
  }

  // ------------------------------------------------------- over whole histories

  datatype Event = Connect(id: Word, epoch: Word) | Disconnect(id: Word, epoch: Word) | Enqueue(request: TcpRequest)
                 | StepOnce(result: SubmitResult)

  function Apply(d: Dispatch, e: Event): Dispatch
    requires |d.clients| == CLIENT_MAX
  {
    match e
    case Connect(id, epoch) => (match Connected(d, id, epoch) case None => d case Some(d') => d')
    case Disconnect(id, epoch) => Disconnected(d, id, epoch)
    case Enqueue(r) => Enqueued(d, r)
    case StepOnce(result) => Stepped(d, result)
  }

  function Run(d: Dispatch, es: seq<Event>): (r: Dispatch)
    requires Shape(d)
    ensures Shape(r)
    decreases |es|
  {
    if es == [] then d else
    ApplyShape(d, es[0]);
    Run(Apply(d, es[0]), es[1..])
  }

  lemma ApplyShape(d: Dispatch, e: Event)
    requires Shape(d)
    ensures Shape(Apply(d, e))
  {
  }

  ghost predicate Cuts(d: Dispatch, e: Event, i: nat) {
    && e.Disconnect? && i < |d.clients|
    && d.clients[i].connected && d.clients[i].id == e.id && d.clients[i].epoch == e.epoch
  }

  /** Steps until slot `i` is next at the latest. */
  function Distance(d: Dispatch, i: nat): nat
    requires d.next < CLIENT_MAX && i < CLIENT_MAX
  {
    if i >= d.next then i - d.next else i + CLIENT_MAX - d.next
  }

  lemma OfferIsNearest(d: Dispatch, n: nat, i: nat)
    requires Shape(d) && Waits(d, i) && n <= Distance(d, i)
    ensures Offer(d, n).Some?
    ensures Distance(d, Offer(d, n).value) <= Distance(d, i)
    decreases CLIENT_MAX - n
  {
    var k := (d.next + n) % CLIENT_MAX;
    assert Distance(d, k) == n;
    if !Waits(d, k) {
      OfferIsNearest(d, n + 1, i);
    }
  }

  lemma Approach(next: nat, k: nat, i: nat)
    requires next < CLIENT_MAX && k < CLIENT_MAX && i < CLIENT_MAX && k != i
    requires (if k >= next then k - next else k + CLIENT_MAX - next)
             <= (if i >= next then i - next else i + CLIENT_MAX - next)
    ensures var n := (k + 1) % CLIENT_MAX;
            (if i >= n then i - n else i + CLIENT_MAX - n) < (if i >= next then i - next else i + CLIENT_MAX - next)
  {
  }

  /** One step brings a waiting slot nearer, or offers its head. */
  lemma StepApproaches(d: Dispatch, result: SubmitResult, i: nat)
    requires Shape(d) && Waits(d, i)
    ensures Offer(d, 0) == Some(i)
         || (Waits(Stepped(d, result), i) && Distance(Stepped(d, result), i) < Distance(d, i)
             && Stepped(d, result).clients[i] == d.clients[i])
  {
    hide Offer;
    OfferIsNearest(d, 0, i);
    if Offer(d, 0).value != i {
      Approach(d.next, Offer(d, 0).value, i);
    }
  }

  function Steps(es: seq<Event>): nat {
    if es == [] then 0 else (if es[0].StepOnce? then 1 else 0) + Steps(es[1..])
  }

  ghost predicate StaysConnected(d: Dispatch, es: seq<Event>, i: nat)
    requires Shape(d)
    decreases |es|
  {
    es == [] || (!Cuts(d, es[0], i) && Shape(Apply(d, es[0])) && StaysConnected(Apply(d, es[0]), es[1..], i))
  }

  /** Whether some step of the history offers the head of slot `i` to the port. */
  ghost predicate Served(d: Dispatch, es: seq<Event>, i: nat)
    requires Shape(d)
    decreases |es|
  {
    es != [] &&
    ((es[0].StepOnce? && Offer(d, 0) == Some(i)) || (Shape(Apply(d, es[0])) && Served(Apply(d, es[0]), es[1..], i)))
  }

  /**
   * Fairness: a client that stays connected with a request waiting has its head
   * offered to the port within eight steps, whatever the other clients do.
   */
  lemma ServedWithinEight(d: Dispatch, es: seq<Event>, i: nat)
    requires Shape(d) && Unique(d) && Waits(d, i) && StaysConnected(d, es, i) && Steps(es) >= CLIENT_MAX
    ensures Served(d, es, i)
  {
    ServedInTime(d, es, i);
  }

  lemma {:induction false} ServedInTime(d: Dispatch, es: seq<Event>, i: nat)
    requires Shape(d) && Unique(d) && Waits(d, i) && StaysConnected(d, es, i) && Steps(es) > Distance(d, i)
    ensures Served(d, es, i)
    decreases |es|
  {
    hide Connected, Disconnected, Enqueued, Stepped, Offer;
    var e, d' := es[0], Apply(d, es[0]);
    ApplyUnique(d, e);
    if e.StepOnce? {
      StepApproaches(d, e.result, i);
      if Offer(d, 0) != Some(i) {
        ServedInTime(d', es[1..], i);
      }
    } else {
      OthersKeepWaiting(d, e, i);
      ServedInTime(d', es[1..], i);
    }
  }

  /** No two connected slots share an id. */
  ghost predicate Unique(d: Dispatch) {
    forall i, j | 0 <= i < j < |d.clients| ::
      d.clients[i].connected && d.clients[j].connected ==> d.clients[i].id != d.clients[j].id
  }

  lemma ApplyUnique(d: Dispatch, e: Event)
    requires Shape(d) && Unique(d)
    ensures Unique(Apply(d, e))
  {
    hide Offer;
  }

  lemma OthersKeepWaiting(d: Dispatch, e: Event, i: nat)
    requires Shape(d) && Unique(d) && Waits(d, i) && !Cuts(d, e, i) && !e.StepOnce?
    ensures Waits(Apply(d, e), i) && Apply(d, e).next == d.next
  {
  }

  // ------------------------------------------------------------ the ledger

  ghost predicate Fifo(d: Dispatch) {
    forall i | 0 <= i < |d.clients| ::
      && d.clients[i].entered == d.clients[i].left + d.clients[i].pending
      && |d.clients[i].pending| <= CLIENT_QUEUE_MAX
      && (!d.clients[i].connected ==> d.clients[i].pending == [])
  }

  function Pending(cs: seq<Client>): nat {
    if cs == [] then 0 else |cs[0].pending| + Pending(cs[1..])
  }

  /** What one event adds: requests taken in, handed to the port, dropped with their client. */
  function TakenIn(d: Dispatch, e: Event): nat {
    if e.Enqueue? && Enqueuing(d, e.request) == Taken then 1 else 0
  }

  function HandedOver(d: Dispatch, e: Event): nat
    requires |d.clients| == CLIENT_MAX
  {
    if e.StepOnce? && e.result == Accepted && Offer(d, 0).Some? then 1 else 0
  }

  function Dropped(d: Dispatch, e: Event): nat {
    if e.Disconnect? && Find(d.clients, e.id).Some? && d.clients[Find(d.clients, e.id).value].epoch == e.epoch
    then |d.clients[Find(d.clients, e.id).value].pending| else 0
  }

  lemma {:induction false} PendingUpdate(cs: seq<Client>, i: nat, c: Client)
    requires i < |cs|
    ensures Pending(cs[i := c]) == Pending(cs) - |cs[i].pending| + |c.pending|
    decreases |cs|
  {
    if i == 0 {
      assert cs[0 := c][1..] == cs[1..];
    } else {
      assert cs[i := c][1..] == cs[1..][i - 1 := c];
      PendingUpdate(cs[1..], i - 1, c);
    }
  }

  /** Each event keeps the books: requests leave in the order they came, and none is lost or made up. */
  lemma ApplyKeepsLedger(d: Dispatch, e: Event)
    requires Shape(d) && Fifo(d)
    ensures Fifo(Apply(d, e))
    ensures Pending(d.clients) + TakenIn(d, e) == Pending(Apply(d, e).clients) + HandedOver(d, e) + Dropped(d, e)
    ensures Apply(d, e).submitted == Counter(d.submitted, HandedOver(d, e))
    ensures Apply(d, e).drops == Counter(d.drops, Dropped(d, e))
  {
    hide Counter, Pending;
    CounterStart(d.submitted);
    CounterStart(d.drops);
    match e {
      case Connect(id, epoch) =>
        if Connected(d, id, epoch).Some? {
          PendingUpdate(d.clients, FirstFree(d.clients).value, Client(true, id, epoch, [], [], []));
        }
      case Disconnect(id, epoch) =>
        if Find(d.clients, id).Some? {
          PendingUpdate(d.clients, Find(d.clients, id).value, FREE);
        }
      case Enqueue(r) =>
        if Enqueuing(d, r) == Taken {
          var i := Find(d.clients, r.client).value;
          PendingUpdate(d.clients, i, Apply(d, e).clients[i]);
        }
      case StepOnce(result) =>
        if Offer(d, 0).Some? {
          var i := Offer(d, 0).value;
          PendingUpdate(d.clients, i, Stepped(d, result).clients[i]);
        }
    }
  }

  /** The sum over a history of what each event adds. */
  function TotalTaken(d: Dispatch, es: seq<Event>): nat
    requires Shape(d)
    decreases |es|
  {
    if es == [] then 0 else ApplyShape(d, es[0]); TakenIn(d, es[0]) + TotalTaken(Apply(d, es[0]), es[1..])
  }

  function TotalHanded(d: Dispatch, es: seq<Event>): nat
    requires Shape(d)
    decreases |es|
  {
    if es == [] then 0 else ApplyShape(d, es[0]); HandedOver(d, es[0]) + TotalHanded(Apply(d, es[0]), es[1..])
  }

  function TotalDropped(d: Dispatch, es: seq<Event>): nat
    requires Shape(d)
    decreases |es|
  {
    if es == [] then 0 else ApplyShape(d, es[0]); Dropped(d, es[0]) + TotalDropped(Apply(d, es[0]), es[1..])
  }

  /** Over every history: taken in = handed to the port + dropped on disconnect + still queued. */
  lemma {:induction false} RunLedger(d: Dispatch, es: seq<Event>)
    requires Shape(d) && Fifo(d)
    ensures Fifo(Run(d, es))
    ensures Pending(d.clients) + TotalTaken(d, es)
         == Pending(Run(d, es).clients) + TotalHanded(d, es) + TotalDropped(d, es)
    ensures Run(d, es).submitted == Counter(d.submitted, TotalHanded(d, es))
    ensures Run(d, es).drops == Counter(d.drops, TotalDropped(d, es))
    decreases |es|
  {
    hide Apply, Fifo, Counter, Pending, TakenIn, HandedOver, Dropped;
    if es == [] {
      CounterStart(d.submitted);
      CounterStart(d.drops);
    } else {
      var e, d' := es[0], Apply(d, es[0]);
      ApplyShape(d, e);
      ApplyKeepsLedger(d, e);
      RunLedger(d', es[1..]);
      CounterAdds(d.submitted, HandedOver(d, e), TotalHanded(d', es[1..]));
      CounterAdds(d.drops, Dropped(d, e), TotalDropped(d', es[1..]));
    }
  }

  lemma CounterAdds(w: Word, m: nat, n: nat)
    ensures Counter(Counter(w, m), n) == Counter(w, m + n)
  {
  }

  /** From the empty dispatcher: requests leave per client in the order they came, and the books balance. */
  lemma LedgerFromStart(es: seq<Event>)
    ensures Shape(InitDispatch())
    ensures var r := Run(InitDispatch(), es);
            && TotalTaken(InitDispatch(), es)
               == Pending(r.clients) + TotalHanded(InitDispatch(), es) + TotalDropped(InitDispatch(), es)
            && r.submitted == TotalHanded(InitDispatch(), es) % TWO32
            && r.drops == TotalDropped(InitDispatch(), es) % TWO32
            && (forall i | 0 <= i < |r.clients| :: r.clients[i].entered == r.clients[i].left + r.clients[i].pending)
  {
    hide Apply, Pending;
    var d := InitDispatch();
    EmptyPending(d.clients);
    RunLedger(d, es);
  }

  lemma {:induction false} EmptyPending(cs: seq<Client>)
    requires forall i | 0 <= i < |cs| :: cs[i].pending == []
    ensures Pending(cs) == 0
    decreases |cs|
  {
    if cs != [] {
      EmptyPending(cs[1..]);
    }
  }

  // --------------------------------------------------- each event, slot by slot

  predicate Serving(c: Client, id: Word, epoch: Word) { c.connected && c.id == id && c.epoch == epoch }

  /** All slots but `i` are as they were. */
  ghost predicate OnlySlot(d: Dispatch, d': Dispatch, i: nat) {
    && |d'.clients| == |d.clients| && i < |d.clients|
    && forall k | 0 <= k < |d.clients| && k != i :: d'.clients[k] == d.clients[k]
  }

  /** A client is taken exactly if its epoch is not zero, its id not connected and a slot free: it gets such a slot. */
  lemma ConnectMeans(d: Dispatch, id: Word, epoch: Word)
    requires Shape(d)
    ensures Connected(d, id, epoch).Some? <==>
            && epoch != 0 && (forall i | 0 <= i < 8 :: !(d.clients[i].connected && d.clients[i].id == id))
            && exists i | 0 <= i < 8 :: !d.clients[i].connected
    ensures Connected(d, id, epoch).Some? ==>
              var d' := Connected(d, id, epoch).value;
              && d'.next == d.next && d'.drops == d.drops && d'.submitted == d.submitted && d'.queueFull == d.queueFull
              && exists i | 0 <= i < 8 ::
                   !d.clients[i].connected && OnlySlot(d, d', i) && Serving(d'.clients[i], id, epoch)
                   && d'.clients[i].pending == d'.clients[i].entered == d'.clients[i].left == []
  {
    if Connected(d, id, epoch).Some? {
      var i := FirstFree(d.clients).value;
      assert OnlySlot(d, Connected(d, id, epoch).value, i);
    }
  }

  /** A client is let go exactly by its own id and epoch, and takes what it had waiting with it. */
  lemma DisconnectMeans(d: Dispatch, id: Word, epoch: Word, i: nat)
    requires Shape(d) && Unique(d) && i < 8
    ensures var d' := Disconnected(d, id, epoch);
      && (Serving(d.clients[i], id, epoch) ==>
            !d'.clients[i].connected && d'.clients[i].pending == [] && OnlySlot(d, d', i)
            && d'.drops == Counter(d.drops, |d.clients[i].pending|))
      && (!Serving(d.clients[i], id, epoch) ==> d'.clients[i] == d.clients[i])
      && d'.next == d.next && d'.submitted == d.submitted
  {
    hide Counter;
  }

  /** A request joins the queue of the client it came from, behind what waits there; a stale or foreign one none. */
  lemma EnqueueMeans(d: Dispatch, r: TcpRequest, i: nat)
    requires Shape(d) && Unique(d) && i < 8
    ensures var d' := Enqueued(d, r);
      && (Serving(d.clients[i], r.client, r.epoch) && |d.clients[i].pending| < 2 ==>
            && Enqueuing(d, r) == Taken && OnlySlot(d, d', i)
            && d'.clients[i] == d.clients[i].(pending := d.clients[i].pending + [r],
                                              entered := d.clients[i].entered + [r]))
      && (!Serving(d.clients[i], r.client, r.epoch) ==> d'.clients[i] == d.clients[i])
      && (Serving(d.clients[i], r.client, r.epoch) && |d.clients[i].pending| >= 2 ==>
            d'.clients == d.clients && Enqueuing(d, r) == ClientQueueFull && d'.queueFull == Counter(d.queueFull, 1))
    ensures Enqueuing(d, r) == NoClient <==> forall k | 0 <= k < 8 :: !Serving(d.clients[k], r.client, r.epoch)
  {
    hide Counter;
  }

  /** A step offers the head of one waiting client, and takes it off exactly if it is accepted. */
  lemma StepMeans(d: Dispatch, result: SubmitResult)
    requires Shape(d)
    ensures var d' := Stepped(d, result);
      if forall i: nat | i < 8 :: !Waits(d, i) then d' == d
      else
        && Offer(d, 0).Some? && var i := Offer(d, 0).value;
           && Waits(d, i) && OnlySlot(d, d', i) && d'.next == (if i == 7 then 0 else i + 1)
           && (forall k: nat | k < 8 && Waits(d, k) :: Distance(d, i) <= Distance(d, k))
           && (result == Accepted ==>
                 && d'.clients[i].pending == d.clients[i].pending[1..]
                 && d'.clients[i].left == d.clients[i].left + [d.clients[i].pending[0]]
                 && d'.submitted == Counter(d.submitted, 1))
           && (result != Accepted ==> d'.clients == d.clients && d'.submitted == d.submitted)
  {
    hide Counter, Offer;
    forall i: nat | i < 8 && Waits(d, i) ensures Offer(d, 0).Some? && Distance(d, Offer(d, 0).value) <= Distance(d, i) {
      OfferIsNearest(d, 0, i);
    }
  }

  /** Whatever a slot has queued or handed over came from the client it serves, in the epoch it serves. */
  ghost predicate OwnRequests(d: Dispatch) {
    forall i | 0 <= i < |d.clients| :: Own(d.clients[i])
  }

  ghost predicate Own(c: Client) {
    forall k | 0 <= k < |c.entered| :: c.connected && c.entered[k].client == c.id && c.entered[k].epoch == c.epoch
  }

  lemma ApplyKeepsOwn(d: Dispatch, e: Event)
    requires Shape(d) && OwnRequests(d)
    ensures OwnRequests(Apply(d, e))
  {
    hide Counter, Offer;
    var d' := Apply(d, e);
    forall i | 0 <= i < |d'.clients| ensures Own(d'.clients[i]) {
      assert Own(d.clients[i]);
    }
  }

  /** Over every history no client's requests are mixed up with another's, nor with those of an earlier connection. */
  lemma {:induction false} RunKeepsOwn(d: Dispatch, es: seq<Event>)
    requires Shape(d) && OwnRequests(d)
    ensures OwnRequests(Run(d, es))
    decreases |es|
  {
    hide Apply, OwnRequests;
    if es != [] {
      ApplyShape(d, es[0]);
      ApplyKeepsOwn(d, es[0]);
      RunKeepsOwn(Apply(d, es[0]), es[1..]);
    }
  }
}
