/**
 * Between Modbus/TCP and the serial line: a request ADU becomes an RTU frame in
 * the port's queue, a reply frame becomes a response ADU for the same client.
 */
module ModbusAdapter {
  import opened Base
  import opened Deadline
  import opened ModbusCrc
  import opened MbapStream
  import opened PortModel
  import opened PortRuntime

  const RTU_ADU_MAX := 256
  const OWNER_TCP: Word := 1

  datatype TcpRequest = TcpRequest(client: Word, epoch: Word, adu: Adu)

  function Sealed(s: seq<Byte>): seq<Byte> {
    s + [Low(Crc(INITIAL, s)), High(Crc(INITIAL, s))]
  }

  /** The RTU frame of a request. */
  function RtuFrame(a: Adu): seq<Byte> { Sealed([a.unit] + a.pdu) }

  function Metadata(r: TcpRequest): (m: seq<Word>)
    requires r.adu.pdu != []
    ensures |m| == 4
  {
    [r.adu.transaction, 256 * r.adu.unit + r.adu.pdu[0], r.epoch, 0]
  }

  function PortRequest(r: TcpRequest, queueTimeout: Tick, responseTimeout: Tick): Request
    requires r.adu.pdu != []
  {
    Request(RtuFrame(r.adu), OWNER_TCP, r.client, Metadata(r), Operation(2, 2, 0), queueTimeout, responseTimeout)
  }

  predicate Translatable(a: Adu) { 1 <= |a.pdu| <= PDU_MAX }

  lemma SealedIsOk(s: seq<Byte>)
    ensures FrameOk(Sealed(s))
  {
    var f := Sealed(s);
    assert f[..|f| - 2] == s;
  }

  /** The local buffer of a submission: unit, PDU, CRC low, CRC high. */
  method EncodeRtu(a: Adu) returns (frame: seq<Byte>)
    requires Translatable(a)
    ensures frame == RtuFrame(a)
  {
    hide Crc, Low, High;
    var rtu := new Byte[RTU_ADU_MAX](i => 0);
    rtu[0] := a.unit;
    for i := 0 to |a.pdu|
      invariant rtu[0] == a.unit
      invariant forall k | 0 <= k < i :: rtu[1 + k] == a.pdu[k]
    {
      rtu[1 + i] := a.pdu[i];
    }
    var length := 1 + |a.pdu|;
    assert rtu[..length] == [a.unit] + a.pdu;
    var crc := Crc16(rtu[..length]);
    rtu[length] := Low(crc);
    rtu[length + 1] := High(crc);
    frame := rtu[..length + 2];
    assert frame == ([a.unit] + a.pdu) + [Low(crc), High(crc)];
  }

  lemma AcceptedEntry(p: Port, r: Request, now: Tick)
    ensures Admission(p, r) == Accepted ==>
      exists t :: && Submit(p, r, now).queue == p.queue + [t]
                  && t.payload == r.payload && t.metadata == r.metadata && t.ownerId == r.ownerId
  {
    if Admission(p, r) == Accepted {
      var t := NewTxn(p, r, now);
      assert Submit(p, r, now).queue == p.queue + [t];
    }
  }

  /** `modbus_tcp_submit`. */
  method TcpSubmit(port: PortRuntime, r: TcpRequest, now: Tick, queueTimeout: Tick, responseTimeout: Tick)
    returns (result: SubmitResult)
    requires port.Valid()
    modifies port, port.queue, port.queue.entries
    ensures port.Valid()
    ensures !Translatable(r.adu) ==> result == InvalidRequest && port.Abs() == old(port.Abs())
    ensures Translatable(r.adu) ==>
      && result == Admission(old(port.Abs()), PortRequest(r, queueTimeout, responseTimeout))
      && port.Abs() == Submit(old(port.Abs()), PortRequest(r, queueTimeout, responseTimeout), now)
    ensures result == Accepted ==>
      exists t :: && port.Abs().queue == old(port.Abs()).queue + [t]
                  && t.payload == RtuFrame(r.adu) && t.metadata == Metadata(r) && t.ownerId == r.client
  {
    hide RtuFrame, Metadata, Submit, Admission;
    if r.adu.pdu == [] || |r.adu.pdu| > PDU_MAX {
      return InvalidRequest;
    }
    var rtu := EncodeRtu(r.adu);
    AcceptedEntry(port.Abs(), Request(rtu, OWNER_TCP, r.client, Metadata(r), Operation(2, 2, 0), queueTimeout,
                                      responseTimeout), now);
    var id;
    result, id := port.SubmitOperation(
      Request(rtu, OWNER_TCP, r.client, Metadata(r), Operation(2, 2, 0), queueTimeout, responseTimeout), now);
  }

  // ------------------------------------------------------------------ replies

  datatype FrameResult = FrameIncomplete | FrameComplete | FrameMalformed

  function ErrorBit(function_: Byte): Byte { if function_ < 128 then function_ + 128 else function_ }

  /** The length a reply must have, once enough of it is there to tell. */
  function ExpectedLength(request: seq<Byte>, response: seq<Byte>): Option<nat>
    requires |request| >= 2 && |response| >= 2
  {
    var f := request[1];
    if response[1] == ErrorBit(f) then Some(5)
    else if 1 <= f <= 4 then (if |response| < 3 then None else Some(5 + response[2] as int))
    else Some(8)
  }

  /** `modbus_rtu_frame_probe`. */
  function Probe(request: seq<Byte>, response: seq<Byte>): FrameResult {
    if |request| < 4 || |request| > RTU_ADU_MAX || |response| > RTU_ADU_MAX then FrameMalformed
    else if |response| < 2 then FrameIncomplete
    else if response[0] != request[0] then FrameMalformed
    else if response[1] != ErrorBit(request[1]) &&
            (response[1] != request[1] || request[1] !in [1, 2, 3, 4, 5, 6, 15, 16]) then FrameMalformed
    else match ExpectedLength(request, response)
      case None => FrameIncomplete
      case Some(n) =>
        if n > RTU_ADU_MAX then FrameMalformed
        else if |response| < n then FrameIncomplete
        else if |response| != n then FrameMalformed
        else if FrameOk(response) then FrameComplete else FrameMalformed
  }

  /** The frame length the probe reports, once it is known. */
  function FrameLength(request: seq<Byte>, response: seq<Byte>): Option<nat> {
    if |request| < 4 || |request| > RTU_ADU_MAX || |response| > RTU_ADU_MAX || |response| < 2 then None
    else if response[0] != request[0] then None
    else if response[1] != ErrorBit(request[1]) &&
            (response[1] != request[1] || request[1] !in [1, 2, 3, 4, 5, 6, 15, 16]) then None
    else match ExpectedLength(request, response)
      case None => None
      case Some(n) => if n > RTU_ADU_MAX then None else Some(n)
  }

  datatype BuildResult = Rejected(code: int) | Built(bytes: seq<Byte>)

  function ResponseHead(metadata: seq<Word>, rtu: seq<Byte>): (s: seq<Byte>)
    requires |metadata| == 4 && 4 <= |rtu| <= RTU_ADU_MAX
    ensures |s| == 7
  {
    [metadata[0] / 256 % 256, metadata[0] % 256, 0, 0, (|rtu| - 2) / 256, (|rtu| - 2) % 256, rtu[0]]
  }

  /** Why a reply is refused; 0 if it is not. */
  function Refusal(metadata: seq<Word>, rtu: seq<Byte>, capacity: nat): int
    requires |metadata| == 4
    ensures Refusal(metadata, rtu, capacity) == 0 ==> 4 <= |rtu| <= RTU_ADU_MAX && |rtu| + 4 <= capacity
  {
    if |rtu| < 4 || |rtu| > RTU_ADU_MAX then -1
    else if !FrameOk(rtu) then -2
    else if rtu[0] != metadata[1] / 256 % 256 then -3
    else if rtu[1] != metadata[1] % 256 && rtu[1] != ErrorBit(metadata[1] % 256) then -4
    else if |rtu| + 4 > capacity then -5
    else 0
  }

  /** What `modbus_tcp_build_response` does for a transaction with this metadata. */
  function BuildResponse(metadata: seq<Word>, rtu: seq<Byte>, capacity: nat): BuildResult
    requires |metadata| == 4
  {
    var code := Refusal(metadata, rtu, capacity);
    if code != 0 then Rejected(code) else Built(ResponseHead(metadata, rtu) + rtu[1..|rtu| - 2])
  }

  method Screen(metadata: seq<Word>, rtu: seq<Byte>, capacity: nat) returns (code: int)
    requires |metadata| == 4
    ensures code == Refusal(metadata, rtu, capacity)
  {
    hide Crc, Low, High;
    if |rtu| < 4 || |rtu| > RTU_ADU_MAX {
      return -1;
    }
    var expected := Crc16(rtu[..|rtu| - 2]);
    if rtu[|rtu| - 2] != Low(expected) || rtu[|rtu| - 1] != High(expected) {
      return -2;
    }
    if rtu[0] != metadata[1] / 256 % 256 {
      return -3;
    }
    if rtu[1] != metadata[1] % 256 && rtu[1] != ErrorBit(metadata[1] % 256) {
      return -4;
    }
    code := if 7 + (|rtu| - 3) > capacity then -5 else 0;
  }

  /** The same, into the caller's buffer; `n` is the length on success. */
  method Build(metadata: seq<Word>, rtu: seq<Byte>, output: array<Byte>) returns (code: int, n: nat)
    requires |metadata| == 4
    modifies output
    ensures code == 0 ==> n <= output.Length && BuildResponse(metadata, rtu, output.Length) == Built(output[..n])
    ensures code != 0 ==> BuildResponse(metadata, rtu, output.Length) == Rejected(code) && output[..] == old(output[..])
  {
    hide Refusal;
    n := 0;
    code := Screen(metadata, rtu, output.Length);
    if code != 0 {
      return;
    }
    var pduLength := |rtu| - 3;
    var lengthField := 1 + pduLength;
    output[0] := metadata[0] / 256 % 256;
    output[1] := metadata[0] % 256;
    output[2], output[3] := 0, 0;
    output[4] := lengthField / 256;
    output[5] := lengthField % 256;
    output[6] := rtu[0];
    ghost var head := ResponseHead(metadata, rtu);
    assert output[..7] == head;
    hide ResponseHead;
    for i := 0 to pduLength
      invariant output[..7 + i] == head + rtu[1..1 + i]
    {
      output[7 + i] := rtu[1 + i];
      assert output[..7 + i + 1] == output[..7 + i] + [rtu[1 + i]];
      assert rtu[1..1 + i + 1] == rtu[1..1 + i] + [rtu[1 + i]];
    }
    n := 7 + pduLength;
  }

  // --------------------------------------------------------------- round trips

  /** A built response is one MBAP frame. */
  lemma BuiltIsFrame(r: TcpRequest, rtu: seq<Byte>, capacity: nat)
    requires Translatable(r.adu) && 4 <= |rtu| <= RTU_ADU_MAX && FrameOk(rtu) && |rtu| + 4 <= capacity
    requires rtu[0] == r.adu.unit && (rtu[1] == r.adu.pdu[0] || rtu[1] == ErrorBit(r.adu.pdu[0]))
    ensures var reply := Adu(r.adu.transaction, r.adu.unit, rtu[1..|rtu| - 2]);
            && BuildResponse(Metadata(r), rtu, capacity) == Built(Frame(reply))
            && Parse(Frame(reply)) == Reading([reply], [], false)
  {
    hide FrameOk, Parse;
    var reply := Adu(r.adu.transaction, r.adu.unit, rtu[1..|rtu| - 2]);
    var m := Metadata(r);
    assert m[1] / 256 == r.adu.unit && m[1] % 256 == r.adu.pdu[0];
    assert Frame(reply) == ResponseHead(m, rtu) + rtu[1..|rtu| - 2];
    FramesRoundTrip([reply]);
    OneFrame(reply);
  }

  lemma OneFrame(a: Adu)
    requires Translatable(a)
    ensures Frames([a]) == Frame(a)
  {
    assert [a][1..] == [];
    assert Frame(a) + [] == Frame(a);
  }

  /**
   * The request's own RTU bytes, turned into a response and read back, give the
   * same transaction id, unit and PDU.
   */
  lemma RequestRoundTrip(r: TcpRequest, capacity: nat)
    requires Translatable(r.adu) && 7 + |r.adu.pdu| <= capacity
    ensures BuildResponse(Metadata(r), RtuFrame(r.adu), capacity) == Built(Frame(r.adu))
    ensures Parse(Frame(r.adu)) == Reading([r.adu], [], false)
  {
    hide FrameOk, Parse, Low, High, Crc;
    var rtu := RtuFrame(r.adu);
    SealedIsOk([r.adu.unit] + r.adu.pdu);
    assert rtu[1..|rtu| - 2] == r.adu.pdu;
    BuiltIsFrame(r, rtu, capacity);
  }

  /**
   * Every reply the probe accepts is accepted by the builder and reads back as one
   * ADU of the request's transaction.
   */
  lemma CompleteReplyIsDelivered(r: TcpRequest, response: seq<Byte>, capacity: nat)
    requires Translatable(r.adu) && Probe(RtuFrame(r.adu), response) == FrameComplete && |response| + 4 <= capacity
    ensures var reply := Adu(r.adu.transaction, r.adu.unit, response[1..|response| - 2]);
            && |response| >= 5
            && BuildResponse(Metadata(r), response, capacity) == Built(Frame(reply))
            && Parse(Frame(reply)) == Reading([reply], [], false)
  {
    hide FrameOk, Parse, Low, High, Crc;
    BuiltIsFrame(r, response, capacity);
  }

  /** A reply damaged within two adjacent bytes is neither complete to the probe nor accepted by the builder. */
  lemma DamagedReplyIsRejected(r: TcpRequest, response: seq<Byte>, damaged: seq<Byte>, i: nat, capacity: nat)
    requires Translatable(r.adu) && Probe(RtuFrame(r.adu), response) == FrameComplete
    requires |damaged| == |response| && damaged != response && i + 2 <= |response|
    requires damaged[..i] == response[..i] && damaged[i + 2..] == response[i + 2..]
    ensures Probe(RtuFrame(r.adu), damaged) != FrameComplete
    ensures BuildResponse(Metadata(r), damaged, capacity) == Rejected(-2)
  {
    hide FrameOk, Low, High, Crc;
    AdjacentBytesFailCheck(response, damaged, i);
  }

  /** What the probe asks for: unit and function of the request, the length the function prescribes, a valid CRC. */
  lemma ProbeMeaning(request: seq<Byte>, response: seq<Byte>)
    requires 4 <= |request| <= RTU_ADU_MAX
    ensures Probe(request, response) == FrameComplete <==>
      && 5 <= |response| <= RTU_ADU_MAX && FrameOk(response) && response[0] == request[0]
      && (|| (response[1] == ErrorBit(request[1]) && |response| == 5)
          || (response[1] == request[1] != ErrorBit(request[1]) && 1 <= request[1] <= 4
              && |response| == 5 + response[2] as int)
          || (response[1] == request[1] != ErrorBit(request[1]) && request[1] in [5, 6, 15, 16] && |response| == 8))
  {
    hide FrameOk;
    if 1 <= request[1] <= 4 {
      assert request[1] in [1, 2, 3, 4, 5, 6, 15, 16];
    }
  }

  /**
   * Bytes may come one at a time: a length once reported stays, only a frame of
   * that length is complete, and every proper prefix of a complete frame is
   * incomplete, so no frame ends early or is given up halfway.
   */
  lemma ProbeOfPrefix(request: seq<Byte>, response: seq<Byte>, more: seq<Byte>)
    requires |response + more| <= RTU_ADU_MAX
    ensures var n := FrameLength(request, response);
      && (n.Some? ==> FrameLength(request, response + more) == n)
      && (Probe(request, response) == FrameComplete ==> n == Some(|response|))
      && (n.Some? && Probe(request, response + more) == FrameComplete ==> |response + more| == n.value)
    ensures Probe(request, response + more) == FrameComplete && more != []
            ==> Probe(request, response) == FrameIncomplete
  {
    hide FrameOk;
    var whole := response + more;
    assert forall i | 0 <= i < |response| :: whole[i] == response[i];
  }
}
