/**
 * The Modbus/TCP stream parser: a ring buffer fed in arbitrary pieces, cut into
 * frames by the MBAP header (section 3.1.3 of the MODBUS Messaging on TCP/IP
 * Implementation Guide V1.0b).
 */
module MbapStream {
  import opened Base
  import opened Rings

  const HEADER_SIZE := 7
  const PDU_MAX := 253
  const LENGTH_MIN := 2
  const LENGTH_MAX := 254
  const RX_CAPACITY := 1040

  type Short = w: int | 0 <= w < 0x1_0000

  datatype Adu = Adu(transaction: Short, unit: Byte, pdu: seq<Byte>)

  datatype Result = Ok | Overflow | Malformed | Stopped

  function Join(hi: Byte, lo: Byte): Short { 256 * hi + lo }

  // ------------------------------------------------------- frames as a language

  /** One ADU on the wire. */
  function Frame(a: Adu): seq<Byte>
    requires 1 <= |a.pdu| <= PDU_MAX
  {
    [a.transaction / 256, a.transaction % 256, 0, 0, 0, 1 + |a.pdu|, a.unit] + a.pdu
  }

  predicate Framable(adus: seq<Adu>) {
    forall i | 0 <= i < |adus| :: 1 <= |adus[i].pdu| <= PDU_MAX
  }

  function Frames(adus: seq<Adu>): seq<Byte>
    requires Framable(adus)
  {
    if adus == [] then [] else Frame(adus[0]) + Frames(adus[1..])
  }

  function Length(s: seq<Byte>): Short
    requires |s| >= HEADER_SIZE
  {
    Join(s[4], s[5])
  }

  predicate BadHeader(s: seq<Byte>)
    requires |s| >= HEADER_SIZE
  {
    Join(s[2], s[3]) != 0 || Length(s) < LENGTH_MIN || Length(s) > LENGTH_MAX
  }

  predicate Whole(s: seq<Byte>) {
    |s| >= HEADER_SIZE && !BadHeader(s) && |s| >= 6 + Length(s)
  }

  function First(s: seq<Byte>): (a: Adu)
    requires Whole(s)
    ensures 1 <= |a.pdu| <= PDU_MAX && |a.pdu| == Length(s) - 1
  {
    Adu(Join(s[0], s[1]), s[6], s[7..6 + Length(s)])
  }

  function Tail(s: seq<Byte>): (t: seq<Byte>)
    requires Whole(s)
    ensures |t| == |s| - 6 - Length(s) < |s|
  {
    s[6 + Length(s)..]
  }

  /** What a whole byte stream means: its ADUs, what is left, and whether that starts with a bad header. */
  datatype Reading = Reading(adus: seq<Adu>, rest: seq<Byte>, bad: bool)

  function Parse(s: seq<Byte>): Reading
    decreases |s|
  {
    if Whole(s) then
      var t := Parse(Tail(s));
      t.(adus := [First(s)] + t.adus)
    else Reading([], s, |s| >= HEADER_SIZE && BadHeader(s))
  }

  lemma JoinSplits(hi: Byte, lo: Byte)
    ensures Join(hi, lo) / 256 == hi && Join(hi, lo) % 256 == lo
  {
  }

  lemma FirstFrame(s: seq<Byte>)
    requires Whole(s)
    ensures s == Frame(First(s)) + Tail(s)
  {
    JoinSplits(s[0], s[1]);
    JoinSplits(s[2], s[3]);
    JoinSplits(s[4], s[5]);
    var f, n := Frame(First(s)), 6 + Length(s);
    assert |f| == n;
    assert forall k | 7 <= k < n :: f[k] == s[7..n][k - 7] == s[k];
    assert f[4] == s[4] && f[5] == s[5];
    assert forall k | 0 <= k < 7 :: f[k] == s[k];
    assert f == s[..n];
  }

  lemma FrameFirst(a: Adu, t: seq<Byte>)
    requires 1 <= |a.pdu| <= PDU_MAX
    ensures Whole(Frame(a) + t) && First(Frame(a) + t) == a
    ensures Tail(Frame(a) + t) == t
  {
    var s := Frame(a) + t;
    assert Length(s) == 1 + |a.pdu|;
    assert s[7..7 + |a.pdu|] == a.pdu;
  }

  /** Parsing is the inverse of framing, in front of any further bytes. */
  lemma {:induction false} ParseFrames(adus: seq<Adu>, t: seq<Byte>)
    requires Framable(adus)
    ensures Parse(Frames(adus) + t) == Reading(adus + Parse(t).adus, Parse(t).rest, Parse(t).bad)
    decreases |adus|
  {
    hide Frame, Whole, First, Tail, BadHeader, Length;
    if adus == [] {
      assert Frames(adus) + t == t;
    } else {
      assert Frames(adus) + t == Frame(adus[0]) + (Frames(adus[1..]) + t);
      FrameFirst(adus[0], Frames(adus[1..]) + t);
      ParseFrames(adus[1..], t);
    }
  }

  /** A parsed stream is exactly its frames followed by the rest, and the rest holds no whole frame. */
  lemma {:induction false} ParseSplits(s: seq<Byte>)
    ensures Framable(Parse(s).adus)
    ensures s == Frames(Parse(s).adus) + Parse(s).rest
    ensures !Whole(Parse(s).rest)
    decreases |s|
  {
    hide Frame, Whole, First, Tail, BadHeader, Length;
    if Whole(s) {
      var u := Tail(s);
      FirstFrame(s);
      ParseSplits(u);
      assert Parse(s).adus[1..] == Parse(u).adus;
    }
  }

  /** What stays buffered is less than the longest frame. */
  lemma {:induction false} RestIsShort(s: seq<Byte>)
    ensures !Parse(s).bad ==> |Parse(s).rest| <= 259
    decreases |s|
  {
    if Whole(s) {
      RestIsShort(Tail(s));
    }
  }

  /** Reading in two steps: what was left over and the new bytes. */
  lemma ParseAppend(s: seq<Byte>, t: seq<Byte>)
    ensures Parse(s).bad ==> Parse(s + t).adus == Parse(s).adus && Parse(s + t).bad
    ensures !Parse(s).bad ==>
      Parse(s + t) == Parse(Parse(s).rest + t).(adus := Parse(s).adus + Parse(Parse(s).rest + t).adus)
  {
    hide Frame, Whole, First, Tail, Parse;
    ParseStep(Parse(s).rest);
    ParseStep(Parse(s).rest + t);
    var r := Parse(s);
    ParseSplits(s);
    assert s + t == Frames(r.adus) + (r.rest + t);
    ParseFrames(r.adus, r.rest + t);
    if r.bad {
      BadStays(s);
      BadPrefix(r.rest, t);
      assert r.adus + [] == r.adus;
    }
  }

  lemma BadPrefix(s: seq<Byte>, t: seq<Byte>)
    requires |s| >= HEADER_SIZE && BadHeader(s)
    ensures !Whole(s + t) && Parse(s + t).bad
  {
  }

  lemma {:induction false} BadStays(s: seq<Byte>)
    requires Parse(s).bad
    ensures |Parse(s).rest| >= HEADER_SIZE && BadHeader(Parse(s).rest)
    decreases |s|
  {
    if Whole(s) {
      BadStays(Tail(s));
    }
  }

  // ------------------------------------------------- parsing with a callback

  /** The callback's answers in one call: `yes(k)` is whether it takes the k-th ADU it is offered. */
  type Answers = nat -> bool

  datatype Drained = Drained(adus: seq<Adu>, rest: seq<Byte>, end: Result)

  function Drain(s: seq<Byte>, yes: Answers, k: nat): Drained
    decreases |s|
  {
    if Whole(s) then
      if !yes(k) then Drained([], s, Stopped) else
      var t := Drain(s[6 + Length(s)..], yes, k + 1);
      t.(adus := [First(s)] + t.adus)
    else Drained([], s, if |s| >= HEADER_SIZE && BadHeader(s) then Malformed else Ok)
  }

  lemma DrainStep(s: seq<Byte>, yes: Answers, k: nat)
    ensures Whole(s) && yes(k) ==>
      var t := Drain(Tail(s), yes, k + 1);
      Drain(s, yes, k) == Drained([First(s)] + t.adus, t.rest, t.end)
    ensures Whole(s) && !yes(k) ==> Drain(s, yes, k) == Drained([], s, Stopped)
    ensures !Whole(s) ==> Drain(s, yes, k) == Drained([], s, if Parse(s).bad then Malformed else Ok)
  {
  }

  lemma ParseStep(s: seq<Byte>)
    ensures Whole(s) ==>
      Parse(s) == Reading([First(s)] + Parse(Tail(s)).adus, Parse(Tail(s)).rest, Parse(Tail(s)).bad)
    ensures !Whole(s) ==> Parse(s).adus == [] && Parse(s).rest == s
  {
  }

  lemma FramesCons(a: Adu, more: seq<Adu>)
    requires Framable(more) && 1 <= |a.pdu| <= PDU_MAX
    ensures Framable([a] + more) && Frames([a] + more) == Frame(a) + Frames(more)
  {
    assert ([a] + more)[1..] == more;
  }

  lemma NoFrames()
    ensures Framable([]) && Frames([]) == []
  {
  }

  /** Whatever the callback answers, it took a prefix and the rest is what was not consumed. */
  lemma {:induction false} DrainIsPrefix(s: seq<Byte>, yes: Answers, k: nat)
    ensures var d := Drain(s, yes, k);
            && Framable(d.adus)
            && s == Frames(d.adus) + d.rest
            && Parse(s) == Parse(d.rest).(adus := d.adus + Parse(d.rest).adus)
    decreases |s|
  {
    hide Frame, Frames, Framable, Whole, First, Tail, Drain, Parse;
    DrainStep(s, yes, k);
    ParseStep(s);
    var d := Drain(s, yes, k);
    if Whole(s) && yes(k) {
      var e := Drain(Tail(s), yes, k + 1);
      FirstFrame(s);
      DrainIsPrefix(Tail(s), yes, k + 1);
      FramesCons(First(s), e.adus);
      assert s == (Frame(First(s)) + Frames(e.adus)) + e.rest;
      assert d.adus + Parse(d.rest).adus == [First(s)] + (e.adus + Parse(d.rest).adus);
    } else {
      NoFrames();
      assert d.adus + Parse(s).adus == Parse(s).adus;
    }
  }

  /** Why draining ended. */
  lemma {:induction false} DrainEnds(s: seq<Byte>, yes: Answers, k: nat)
    ensures var d := Drain(s, yes, k);
            && (d.end == Stopped <==> Whole(d.rest))
            && (d.end == Stopped ==> !yes(k + |d.adus|))
            && (d.end != Stopped ==> (d.end == Malformed <==> Parse(d.rest).bad))
            && d.end != Overflow
            && forall i | k <= i < k + |d.adus| :: yes(i)
    decreases |s|
  {
    hide Frame, Whole, First, Tail, Drain, Parse;
    DrainStep(s, yes, k);
    if Whole(s) && yes(k) {
      DrainEnds(Tail(s), yes, k + 1);
    }
  }

  lemma DrainAccepting(s: seq<Byte>, yes: Answers)
    requires forall k :: yes(k)
    ensures Drain(s, yes, 0) == Drained(Parse(s).adus, Parse(s).rest, if Parse(s).bad then Malformed else Ok)
  {
    DrainIsPrefix(s, yes, 0);
    DrainEnds(s, yes, 0);
    var d := Drain(s, yes, 0);
    assert Parse(d.rest).adus == [];
    assert d.adus + [] == d.adus;
  }

  // ------------------------------------------------------------- the ring

  lemma WholeOrBad(s: seq<Byte>)
    ensures |s| < HEADER_SIZE ==> !Whole(s) && !Parse(s).bad
    ensures |s| >= HEADER_SIZE && BadHeader(s) ==> !Whole(s) && Parse(s).bad
    ensures |s| >= HEADER_SIZE && !BadHeader(s) ==>
              (Whole(s) <==> |s| >= 6 + Length(s)) && (!Whole(s) ==> !Parse(s).bad)
  {
  }

  lemma Placed(before: seq<Byte>, after: seq<Byte>, head: nat, count: nat, data: seq<Byte>)
    requires |before| == |after| == RX_CAPACITY && head < RX_CAPACITY && count + |data| <= RX_CAPACITY
    requires var tail := Wrap(RX_CAPACITY, head, count);
             var first := if |data| < RX_CAPACITY - tail then |data| else RX_CAPACITY - tail;
             tail < RX_CAPACITY ==>
             && (forall j | 0 <= j < RX_CAPACITY && !(tail <= j < tail + first)
                 && j >= |data| - first :: after[j] == before[j])
             && (forall j | 0 <= j < first :: after[tail + j] == data[j])
             && (forall j | 0 <= j < |data| - first :: after[j] == data[first + j])
    ensures View(after, head, count + |data|) == View(before, head, count) + data
  {
    WrapIsMod(RX_CAPACITY, head, count);
    var tail := Wrap(RX_CAPACITY, head, count);
    var first := if |data| < RX_CAPACITY - tail then |data| else RX_CAPACITY - tail;
    forall i | 0 <= i < |data| ensures after[Wrap(RX_CAPACITY, head, count + i)] == data[i] {
      if i < first {
        assert Wrap(RX_CAPACITY, head, count + i) == tail + i;
      } else {
        assert Wrap(RX_CAPACITY, head, count + i) == i - first;
      }
    }
    ViewWritten(before, after, head, count, data);
  }

  /** An `unsigned int` counter after `n` increments. */
  function Counter(w: Word, n: nat): Word { (w + n) % TWO32 }

  lemma CounterStart(w: Word)
    ensures Counter(w, 0) == w
  {
  }

  lemma CounterNext(w: Word, n: nat)
    ensures Counter(Counter(w, n), 1) == Counter(w, n + 1)
  {
  }

  class Stream {
    const bytes: array<Byte>
    var head: nat
    var count: nat
    var frames: Word
    var malformed: Word
    var overflows: Word
    var poisoned: bool

    ghost predicate Valid()
      reads this
    {
      bytes.Length == RX_CAPACITY && head < RX_CAPACITY && count <= RX_CAPACITY
    }

    ghost function Contents(): (s: seq<Byte>)
      requires Valid()
      reads this, bytes
      ensures |s| == count
    {
      View(bytes[..], head, count)
    }

    constructor ()
      ensures Valid() && fresh(bytes) && Contents() == [] && !poisoned
      ensures frames == malformed == overflows == 0
    {
      bytes := new Byte[RX_CAPACITY](i => 0);
      head, count := 0, 0;
      frames, malformed, overflows, poisoned := 0, 0, 0, false;
    }

    method Peek(offset: nat) returns (b: Byte)
      requires Valid() && offset < count
      ensures b == Contents()[offset]
    {
      WrapIsMod(RX_CAPACITY, head, offset);
      b := bytes[(head + offset) % RX_CAPACITY];
    }

    method PeekShort(offset: nat) returns (w: Short)
      requires Valid() && offset + 1 < count
      ensures w == Join(Contents()[offset], Contents()[offset + 1])
    {
      var hi := Peek(offset);
      var lo := Peek(offset + 1);
      w := Join(hi, lo);
    }

    /** The two memcpy calls of a feed: up to the end of the array, then from its start. */
    method CopyIn(data: seq<Byte>)
      requires Valid() && |data| <= RX_CAPACITY - count
      modifies this`count, bytes
      ensures Valid() && Contents() == old(Contents()) + data
    {
      var tail := (head + count) % RX_CAPACITY;
      WrapIsMod(RX_CAPACITY, head, count);
      var first := RX_CAPACITY - tail;
      if first > |data| {
        first := |data|;
      }
      ghost var before := bytes[..];
      for k := 0 to first
        invariant count == old(count)
        invariant forall j | 0 <= j < RX_CAPACITY && !(tail <= j < tail + k) :: bytes[j] == before[j]
        invariant forall j | 0 <= j < k :: bytes[tail + j] == data[j]
      {
        bytes[tail + k] := data[k];
      }
      for k := 0 to |data| - first
        invariant count == old(count)
        invariant forall j | 0 <= j < RX_CAPACITY && !(tail <= j < tail + first) && j >= k :: bytes[j] == before[j]
        invariant forall j | 0 <= j < first :: bytes[tail + j] == data[j]
        invariant forall j | 0 <= j < k :: bytes[j] == data[first + j]
      {
        bytes[k] := data[first + k];
      }
      Placed(before, bytes[..], head, count, data);
      count := count + |data|;
    }

    method Consume(n: nat)
      requires Valid() && n <= count
      modifies this`head, this`count
      ensures Valid() && Contents() == old(Contents())[n..]
    {
      WrapIsMod(RX_CAPACITY, head, n);
      ViewDropped(bytes[..], head, count, n);
      head := (head + n) % RX_CAPACITY;
      count := count - n;
    }

    method CopyOut(at: nat, n: nat) returns (s: seq<Byte>)
      requires Valid() && at + n <= count
      ensures s == Contents()[at..at + n]
    {
      s := [];
      for i := 0 to n
        invariant s == Contents()[at..at + i]
      {
        var b := Peek(at + i);
        s := s + [b];
      }
    }

    method ReadHeader() returns (bad: bool, length: nat)
      requires Valid() && count >= HEADER_SIZE
      ensures bad == BadHeader(Contents()) && length == Length(Contents())
    {
      var protocol := PeekShort(2);
      length := PeekShort(4);
      bad := protocol != 0 || length < LENGTH_MIN || length > LENGTH_MAX;
    }

    method ReadAdu(length: nat) returns (a: Adu)
      requires Valid() && Whole(Contents()) && length == Length(Contents())
      ensures a == First(Contents())
    {
      var id := PeekShort(0);
      var unit := Peek(6);
      var pdu := CopyOut(7, length - 1);
      a := Adu(id, unit, pdu);
    }

    method Buffered() returns (s: seq<Byte>)
      requires Valid()
      ensures s == Contents()
    {
      s := CopyOut(0, count);
      assert s == Contents();
    }

    /** `parse_available`: `out` are the ADUs the callback took, in order. */
    method ParseAvailable(yes: Answers) returns (end: Result, out: seq<Adu>)
      requires Valid() && !poisoned
      modifies this`head, this`count, this`frames, this`malformed, this`poisoned
      ensures Valid()
      ensures Drained(out, Contents(), end) == Drain(old(Contents()), yes, 0)
      ensures poisoned == (end == Malformed)
      ensures frames == Counter(old(frames), |out|)
      ensures malformed == Counter(old(malformed), if end == Malformed then 1 else 0)
    {
      hide Drain, First, Length, BadHeader, Parse, Whole, View, Counter;
      out := [];
      CounterStart(frames);
      CounterStart(malformed);
      ghost var all := Drain(Contents(), yes, 0);
      while count >= HEADER_SIZE
        invariant Valid() && !poisoned
        invariant all == Prefixed(out, Drain(Contents(), yes, |out|))
        invariant frames == Counter(old(frames), |out|) && malformed == old(malformed)
        decreases count
      {
        DrainStep(Contents(), yes, |out|);
        WholeOrBad(Contents());
        var bad, length := ReadHeader();
        if bad {
          malformed := Counter(malformed, 1);
          poisoned := true;
          return Malformed, out;
        }
        if count < 6 + length {
          return Ok, out;
        }
        var adu := ReadAdu(length);
        if !yes(|out|) {
          return Stopped, out;
        }
        Consume(6 + length);
        CounterNext(old(frames), |out|);
        frames := Counter(frames, 1);
        out := out + [adu];
      }
      DrainStep(Contents(), yes, |out|);
      WholeOrBad(Contents());
      end := Ok;
    }

    /** The copy loop of a feed whose bytes all fit. */
    method Append(data: seq<Byte>)
      requires Valid() && |data| <= RX_CAPACITY - count
      modifies this`count, bytes
      ensures Valid() && Contents() == old(Contents()) + data
    {
      hide View;
      ghost var was := Contents();
      var left := data;
      while left != []
        invariant Valid() && |left| <= RX_CAPACITY - count
        invariant Contents() + left == was + data
        decreases |left|
      {
        var room := RX_CAPACITY - count;
        var chunk := if |left| < room then |left| else room;
        assert left[..chunk] == left && left[chunk..] == [];
        CopyIn(left[..chunk]);
        left := left[chunk..];
        assert Contents() + left == Contents();
      }
      assert Contents() + left == Contents();
    }

    /** `mbap_stream_feed`. */
    method Feed(data: seq<Byte>, yes: Answers) returns (end: Result, out: seq<Adu>)
      requires Valid()
      modifies this, bytes
      ensures Valid()
      ensures old(poisoned) ==> end == Malformed && out == [] && unchanged(this) && unchanged(bytes)
      ensures !old(poisoned) && |data| > RX_CAPACITY - old(count) ==>
        end == Overflow && out == [] && poisoned && Contents() == old(Contents())
        && overflows == Counter(old(overflows), 1)
      ensures !old(poisoned) && |data| <= RX_CAPACITY - old(count) ==>
        && Drained(out, Contents(), end) == Drain(old(Contents()) + data, yes, 0)
        && poisoned == (end == Malformed)
        && frames == Counter(old(frames), |out|) && overflows == old(overflows)
    {
      hide Drain, View;
      if poisoned {
        return Malformed, [];
      }
      if |data| > RX_CAPACITY - count {
        overflows := Counter(overflows, 1);
        poisoned := true;
        return Overflow, [];
      }
      Append(data);
      end, out := ParseAvailable(yes);
    }
  }

  function Prefixed(out: seq<Adu>, d: Drained): Drained {
    Drained(out + d.adus, d.rest, d.end)
  }

  // ----------------------------------------------------- whole byte streams

  function Flatten(chunks: seq<seq<Byte>>): seq<Byte> {
    if chunks == [] then [] else Flatten(chunks[..|chunks| - 1]) + chunks[|chunks| - 1]
  }

  lemma FlattenTake(chunks: seq<seq<Byte>>, i: nat)
    requires i < |chunks|
    ensures Flatten(chunks[..i + 1]) == Flatten(chunks[..i]) + chunks[i]
  {
    assert chunks[..i + 1][..i] == chunks[..i];
  }

  const FEED_MAX := 781

  /**
   * Fragmentation independence: however a byte stream is cut into feeds of at
   * most 781 bytes, an accepting callback gets the ADUs of the whole stream, the
   * ring never overflows, and the stream is poisoned exactly by a bad header.
   */
  method FeedFragments(chunks: seq<seq<Byte>>, yes: Answers)
    returns (out: seq<Adu>, ends: seq<Result>, poisoned: bool, left: seq<Byte>)
    requires forall k :: yes(k)
    requires forall i | 0 <= i < |chunks| :: |chunks[i]| <= FEED_MAX
    ensures out == Parse(Flatten(chunks)).adus
    ensures poisoned == Parse(Flatten(chunks)).bad
    ensures !poisoned ==> left == Parse(Flatten(chunks)).rest
    ensures Overflow !in ends && |ends| == |chunks| && (Malformed in ends <==> poisoned)
  {
    hide Parse, Drain, View;
    var s := new Stream();
    out, ends, poisoned := [], [], false;
    assert chunks[..0] == [];
    ParseStep([]);
    WholeOrBad([]);
    for i := 0 to |chunks|
      invariant s.Valid() && fresh(s) && fresh(s.bytes) && s.poisoned == poisoned == Parse(Flatten(chunks[..i])).bad
      invariant out == Parse(Flatten(chunks[..i])).adus
      invariant !poisoned ==> s.Contents() == Parse(Flatten(chunks[..i])).rest
      invariant |ends| == i && Overflow !in ends && (Malformed in ends <==> poisoned)
    {
      ghost var total, rest := Flatten(chunks[..i]), s.Contents();
      FlattenTake(chunks, i);
      ParseAppend(total, chunks[i]);
      RestIsShort(total);
      DrainAccepting(rest + chunks[i], yes);
      var end, more := s.Feed(chunks[i], yes);
      out, ends, poisoned := out + more, ends + [end], s.poisoned;
    }
    assert chunks[..|chunks|] == chunks;
    left := s.Buffered();
  }

  /**
   * A callback that may refuse, differently in every feed: what it took is a
   * prefix of the stream's ADUs, and the ring holds exactly the bytes behind it.
   * Feeding stops at the first feed that reports an overflow or a bad header.
   */
  method FeedRefusing(chunks: seq<seq<Byte>>, yes: seq<Answers>)
    returns (out: seq<Adu>, fed: nat, end: Result, left: seq<Byte>)
    requires |yes| == |chunks|
    ensures fed <= |chunks| && (fed < |chunks| ==> end == Overflow || end == Malformed)
    ensures Framable(out) && Flatten(chunks[..fed]) == Frames(out) + left
    ensures out <= Parse(Flatten(chunks[..fed])).adus
    ensures end == Malformed ==> Parse(Flatten(chunks[..fed])).bad
    ensures end == Overflow ==> fed < |chunks| && |left| + |chunks[fed]| > RX_CAPACITY
  {
    hide Drain, View, Frame, Frames, Framable, Flatten, Parse, Whole;
    var s := new Stream();
    out, fed, end := [], 0, Ok;
    NothingYet(chunks);
    while fed < |chunks| && (end == Ok || end == Stopped)
      invariant fed <= |chunks| && s.Valid() && fresh(s) && fresh(s.bytes)
      invariant s.poisoned <==> end == Overflow || end == Malformed
      invariant Framable(out) && Flatten(chunks[..fed]) == Frames(out) + s.Contents()
      invariant end == Malformed ==> Parse(s.Contents()).bad
      invariant end == Overflow ==> fed < |chunks| && s.count + |chunks[fed]| > RX_CAPACITY
      decreases |chunks| - fed, end == Ok || end == Stopped
    {
      ghost var rest := s.Contents();
      FlattenTake(chunks, fed);
      DrainIsPrefix(rest + chunks[fed], yes[fed], 0);
      DrainEnds(rest + chunks[fed], yes[fed], 0);
      var more;
      end, more := s.Feed(chunks[fed], yes[fed]);
      if end != Overflow {
        TookMore(Flatten(chunks[..fed]), out, rest, chunks[fed], more, s.Contents());
        out, fed := out + more, fed + 1;
      }
    }
    left := s.Buffered();
    TookPrefix(out, left);
  }

  lemma NothingYet(chunks: seq<seq<Byte>>)
    ensures Framable([]) && Frames([]) == [] && Flatten(chunks[..0]) == []
  {
  }

  lemma TookMore(total: seq<Byte>, out: seq<Adu>, rest: seq<Byte>, chunk: seq<Byte>, more: seq<Adu>, left: seq<Byte>)
    requires Framable(out) && Framable(more)
    requires total == Frames(out) + rest && rest + chunk == Frames(more) + left
    ensures Framable(out + more) && Frames(out + more) + left == total + chunk
  {
    hide Frame;
    FramesAppend(out, more);
    assert total + chunk == Frames(out) + (rest + chunk);
  }

  lemma TookPrefix(out: seq<Adu>, left: seq<Byte>)
    requires Framable(out)
    ensures out <= Parse(Frames(out) + left).adus
    ensures Parse(left).bad ==> Parse(Frames(out) + left).bad
  {
    ParseFrames(out, left);
  }

  lemma {:induction false} FramesAppend(a: seq<Adu>, b: seq<Adu>)
    requires Framable(a) && Framable(b)
    ensures Framable(a + b) && Frames(a + b) == Frames(a) + Frames(b)
    decreases |a|
  {
    hide Frame;
    if a == [] {
      assert a + b == b;
    } else {
      FramesAppend(a[1..], b);
      assert (a + b)[1..] == a[1..] + b;
    }
  }

  /** What is framed is what is read. */
  lemma FramesRoundTrip(adus: seq<Adu>)
    requires Framable(adus)
    ensures Parse(Frames(adus)) == Reading(adus, [], false)
  {
    ParseFrames(adus, []);
    assert Frames(adus) + [] == Frames(adus);
    assert adus + [] == adus;
  }

  function Copies(a: Adu, k: nat): seq<Adu> {
    if k == 0 then [] else [a] + Copies(a, k - 1)
  }

  lemma {:induction false} CopiesFrame(a: Adu, k: nat)
    requires |a.pdu| == PDU_MAX
    ensures Framable(Copies(a, k)) && |Frames(Copies(a, k))| == 260 * k
    ensures k > 0 ==> Frame(a) <= Frames(Copies(a, k))
  {
    hide Frame;
    NoFrames();
    if k > 0 {
      CopiesFrame(a, k - 1);
      LongestFrame(a);
      FramesCons(a, Copies(a, k - 1));
    }
  }

  lemma LongestFrame(a: Adu)
    requires |a.pdu| == PDU_MAX
    ensures |Frame(a)| == 260 && Frame(a)[2] == Frame(a)[3] == Frame(a)[4] == 0 && Frame(a)[5] == 254
  {
  }

  /**
   * 781 is the most a feed may hold: for every longer one there is a well-formed
   * stream whose second feed has that length and overflows, although the first was
   * taken. The stream is five ADUs of the greatest length.
   */
  method FeedBoundIsTight(n: nat, adu: Adu, yes: Answers)
    returns (a: seq<Byte>, b: seq<Byte>, ends: (Result, Result))
    requires FEED_MAX < n <= RX_CAPACITY && |adu.pdu| == PDU_MAX
    ensures Framable(Copies(adu, 5)) && a + b <= Frames(Copies(adu, 5)) && |b| == n
    ensures ends == (Ok, Overflow)
  {
    hide Drain, View, Frames, Frame, Framable, Copies, BadHeader, Whole, Join, Length;
    CopiesFrame(adu, 5);
    var total := Frames(Copies(adu, 5));
    a, b := total[..259], total[259..259 + n];
    assert a + b == total[..259 + n];
    var s := new Stream();
    var f := Frame(adu);
    LongestFrame(adu);
    assert a[2] == f[2] && a[3] == f[3] && a[4] == f[4] && a[5] == f[5];
    Beginning(a);
    assert [] + a == a;
    Unfinished(a, yes);
    var first, out := s.Feed(a, yes);
    var second;
    second, out := s.Feed(b, yes);
    ends := (first, second);
  }

  lemma Beginning(a: seq<Byte>)
    requires |a| == 259 && a[2] == 0 && a[3] == 0 && a[4] == 0 && a[5] == 254
    ensures !BadHeader(a) && !Whole(a)
  {
    JoinLow(a[2], a[3]);
    JoinLow(a[4], a[5]);
    GoodHeader(a);
    hide Join, Whole, BadHeader, Length;
  }

  lemma GoodHeader(a: seq<Byte>)
    requires HEADER_SIZE <= |a| < 6 + LENGTH_MAX && Join(a[2], a[3]) == 0 && Join(a[4], a[5]) == LENGTH_MAX
    ensures !BadHeader(a) && !Whole(a)
  {
    hide Join;
  }

  lemma JoinLow(hi: Byte, lo: Byte)
    requires hi == 0
    ensures Join(hi, lo) == lo
  {
  }

  /** A header and too few bytes behind it wait for more. */
  lemma Unfinished(a: seq<Byte>, yes: Answers)
    requires |a| >= HEADER_SIZE && !BadHeader(a) && !Whole(a)
    ensures Drain(a, yes, 0) == Drained([], a, Ok)
  {
  }
}
