/**
 * CRC-16 of MODBUS over Serial Line V1.02, section 2.5.1.2: the byte loop, its
 * bit-serial meaning, and the errors it is sure to detect.
 */
module ModbusCrc {
  import opened Base

  // ------------------------------------------- bits, least significant first

  /** The low `n` bits of a number. */
  function Bits(v: nat, n: nat): (e: seq<bool>)
    ensures |e| == n
  {
    if n == 0 then [] else [v % 2 == 1] + Bits(v / 2, n - 1)
  }

  function Number(e: seq<bool>): nat {
    if e == [] then 0 else (if e[0] then 1 else 0) + 2 * Number(e[1..])
  }

  function One(b: bool): bv16 { if b then 1 else 0 }

  function Mix(a: bv16, b: bv16): bv16 { a ^ b }

  function Push(y: bv16, b: bool): bv16 { Mix(Twice(y), One(b)) }

  function Twice(y: bv16): bv16 { y << 1 }

  predicate Odd(c: bv16) { c & 1 == 1 }

  function Half(c: bv16): bv16 { c >> 1 }

  /** The 16-bit word with these bits. */
  function Pack(e: seq<bool>): bv16 {
    if e == [] then 0 else Push(Pack(e[1..]), e[0])
  }

  function Unpack(c: bv16, n: nat): (e: seq<bool>)
    ensures |e| == n
  {
    if n == 0 then [] else [Odd(c)] + Unpack(Half(c), n - 1)
  }

  /** `unsigned char` widened to `unsigned short`, and the two bytes of a word. */
  function Widen(b: Byte): bv16 { Pack(Bits(b, 8)) }

  function Pow2(n: nat): nat { if n == 0 then 1 else 2 * Pow2(n - 1) }

  lemma NumberBits(e: seq<bool>)
    ensures Number(e) < Pow2(|e|) && Bits(Number(e), |e|) == e
  {
    if e != [] {
      NumberBits(e[1..]);
      assert Number(e) / 2 == Number(e[1..]);
    }
  }

  lemma BitsNumber(v: nat, n: nat)
    requires v < Pow2(n)
    ensures Number(Bits(v, n)) == v
  {
    if n > 0 {
      BitsNumber(v / 2, n - 1);
      assert Bits(v, n)[1..] == Bits(v / 2, n - 1);
    }
  }

  function Low(c: bv16): Byte {
    NumberBits(Unpack(c, 8));
    Number(Unpack(c, 8))
  }

  function High(c: bv16): Byte {
    Low(c >> 8)
  }

  /** The least word above every word of k bits. */
  function Limit(k: nat): bv16
    requires k <= 15
  {
    [1, 2, 4, 8, 16, 32, 64, 128, 256, 512, 1024, 2048, 4096, 8192, 16384, 32768][k]
  }

  lemma LimitDoubles(k: nat, y: bv16, b: bool)
    requires k <= 14 && y < Limit(k)
    ensures Push(y, b) < Limit(k + 1)
  {
    if k < 5 { } else if k < 10 { } else { }
  }

  lemma LimitZero()
    ensures Limit(0) > 0
  {
  }

  lemma PackBound(e: seq<bool>)
    requires |e| <= 15
    ensures Pack(e) < Limit(|e|)
  {
    hide Push, Limit;
    assert Limit(0) > 0 by { LimitZero(); }
    if e != [] {
      PackBound(e[1..]);
      LimitDoubles(|e| - 1, Pack(e[1..]), e[0]);
    }
  }

  lemma SmallPack(e: seq<bool>)
    requires |e| <= 15
    ensures Pack(e) < 0x8000
  {
    PackBound(e);
  }

  lemma Halve(y: bv16, b: bool)
    requires y < 0x8000
    ensures Half(Push(y, b)) == y
    ensures Odd(Push(y, b)) <==> b
  {
  }

  lemma {:induction false} UnpackPack(e: seq<bool>)
    requires |e| <= 16
    ensures Unpack(Pack(e), |e|) == e
    decreases |e|
  {
    hide Push, Odd, Half, Mix;
    if e != [] {
      SmallPack(e[1..]);
      Halve(Pack(e[1..]), e[0]);
      UnpackPack(e[1..]);
    }
  }

  // ------------------------------------------------------------ the register

  /** One turn of the inner loop. */
  function Shift(c: bv16): bv16 {
    if Odd(c) then Mix(Half(c), 0xa001) else Half(c)
  }

  function Shifts(c: bv16, n: nat): bv16
    decreases n
  {
    if n == 0 then c else Shifts(Shift(c), n - 1)
  }

  function Octet(c: bv16, b: Byte): bv16 { Shifts(Mix(c, Widen(b)), 8) }

  function Crc(c: bv16, data: seq<Byte>): bv16
    decreases |data|
  {
    if data == [] then c else Crc(Octet(c, data[0]), data[1..])
  }

  const INITIAL: bv16 := 0xffff

  lemma {:induction false} CrcAppend(c: bv16, s: seq<Byte>, t: seq<Byte>)
    ensures Crc(c, s + t) == Crc(Crc(c, s), t)
    decreases |s|
  {
    hide Octet;
    if s == [] {
      assert s + t == t;
    } else {
      CrcAppend(Octet(c, s[0]), s[1..], t);
      assert (s + t)[1..] == s[1..] + t;
    }
  }

  lemma {:induction false} ShiftsSnoc(c: bv16, n: nat)
    ensures Shifts(c, n + 1) == Shift(Shifts(c, n))
    decreases n
  {
    hide Shift;
    if n > 0 {
      ShiftsSnoc(Shift(c), n - 1);
    }
  }

  /** `modbus_crc16`. */
  method Crc16(data: seq<Byte>) returns (crc: bv16)
    ensures crc == Crc(INITIAL, data)
  {
    hide Octet, Shift, Widen;
    crc := INITIAL;
    assert data[..0] == [];
    for i := 0 to |data|
      invariant crc == Crc(INITIAL, data[..i])
    {
      ghost var was := crc;
      crc := Mix(crc, Widen(data[i]));
      ghost var mixed := crc;
      for bit := 0 to 8
        invariant crc == Shifts(mixed, bit)
      {
        ShiftsSnoc(mixed, bit);
        crc := ShiftOnce(crc);
      }
      OctetIs(was, data[i]);
      CrcAppend(INITIAL, data[..i], [data[i]]);
      assert data[..i + 1] == data[..i] + [data[i]];
      assert Crc(was, [data[i]]) == Crc(Octet(was, data[i]), [data[i]][1..]);
    }
    assert data[..|data|] == data;
  }

  method ShiftOnce(crc: bv16) returns (next: bv16)
    ensures next == Shift(crc)
  {
    next := crc >> 1;
    if crc & 1 == 1 {
      next := next ^ 0xa001;
    }
  }

  lemma OctetIs(c: bv16, b: Byte)
    ensures Octet(c, b) == Shifts(Mix(c, Widen(b)), 8)
  {
  }

  // -------------------------------------------------- the bit-serial meaning

  function Feed(c: bv16, b: bool): bv16 { Shift(Mix(c, One(b))) }

  /** The register driven by one bit at a time. */
  function Serial(c: bv16, e: seq<bool>): bv16
    decreases |e|
  {
    if e == [] then c else Serial(Feed(c, e[0]), e[1..])
  }

  lemma MixSwaps(c: bv16, x: bv16, y: bv16)
    ensures Mix(c, Mix(x, y)) == Mix(Mix(c, y), x)
  {
  }

  lemma MixRotates(c: bv16, x: bv16, y: bv16)
    ensures Mix(Mix(c, x), y) == Mix(Mix(c, y), x)
  {
  }

  lemma MixTwice(c: bv16, x: bv16)
    ensures Mix(Mix(c, x), x) == c && Mix(c, x) == Mix(x, c)
  {
  }

  lemma EvenParity(a: bv16, y: bv16)
    ensures Odd(Mix(a, Twice(y))) == Odd(a)
  {
  }

  lemma EvenHalf(a: bv16, y: bv16)
    requires y < 0x8000
    ensures Half(Mix(a, Twice(y))) == Mix(Half(a), y)
  {
  }

  lemma ShiftMixed(c: bv16, y: bv16, b: bool)
    requires y < 0x8000
    ensures Shift(Mix(c, Push(y, b))) == Mix(Feed(c, b), y)
  {
    hide Mix, Twice, Half, Odd, One;
    var a := Mix(c, One(b));
    MixSwaps(c, Twice(y), One(b));
    EvenParity(a, y);
    EvenHalf(a, y);
    MixRotates(Half(a), y, 0xa001);
  }

  lemma ShiftInjective(a: bv16, b: bv16)
    requires Shift(a) == Shift(b)
    ensures a == b
  {
  }

  lemma {:induction false} ShiftsInjective(a: bv16, b: bv16, n: nat)
    requires Shifts(a, n) == Shifts(b, n)
    ensures a == b
    decreases n
  {
    hide Shift;
    if n > 0 {
      ShiftsInjective(Shift(a), Shift(b), n - 1);
      ShiftInjective(a, b);
    }
  }

  /** Feeding up to 16 bits one by one is xoring them in at once and shifting. */
  lemma {:induction false} SerialIsShifts(c: bv16, e: seq<bool>)
    requires |e| <= 16
    ensures Serial(c, e) == Shifts(Mix(c, Pack(e)), |e|)
    decreases |e|
  {
    hide Shift, Feed, Push, Mix;
    if e == [] {
      MixZero(c);
    } else {
      SmallPack(e[1..]);
      ShiftMixed(c, Pack(e[1..]), e[0]);
      SerialIsShifts(Feed(c, e[0]), e[1..]);
    }
  }

  function BitStream(data: seq<Byte>): (e: seq<bool>)
    ensures |e| == 8 * |data|
  {
    if data == [] then [] else Bits(data[0], 8) + BitStream(data[1..])
  }

  lemma {:induction false} SerialAppend(c: bv16, s: seq<bool>, t: seq<bool>)
    ensures Serial(c, s + t) == Serial(Serial(c, s), t)
    decreases |s|
  {
    hide Feed;
    if s == [] {
      assert s + t == t;
    } else {
      SerialAppend(Feed(c, s[0]), s[1..], t);
      assert (s + t)[1..] == s[1..] + t;
    }
  }

  /** The byte-wise register is the bit-serial one. */
  lemma {:induction false} CrcIsSerial(c: bv16, data: seq<Byte>)
    ensures Crc(c, data) == Serial(c, BitStream(data))
    decreases |data|
  {
    hide Feed, Shifts, Pack, Bits, Serial;
    if data == [] {
      SerialEmpty(c);
    } else {
      SerialIsShifts(c, Bits(data[0], 8));
      SerialAppend(c, Bits(data[0], 8), BitStream(data[1..]));
      CrcIsSerial(Octet(c, data[0]), data[1..]);
    }
  }

  lemma SerialEmpty(c: bv16)
    ensures Serial(c, []) == c
  {
  }

  // ------------------------------------------------------- error detection

  lemma MixZero(c: bv16)
    ensures Mix(c, 0) == c
  {
  }

  lemma FeedInjective(c: bv16, d: bv16, b: bool)
    requires Feed(c, b) == Feed(d, b)
    ensures c == d
  {
    hide Shift, Mix, One;
    ShiftInjective(Mix(c, One(b)), Mix(d, One(b)));
    MixCancels(c, d, One(b));
  }

  lemma {:induction false} SerialInjective(c: bv16, d: bv16, e: seq<bool>)
    requires Serial(c, e) == Serial(d, e)
    ensures c == d
    decreases |e|
  {
    hide Shift, Feed;
    if e != [] {
      SerialInjective(Feed(c, e[0]), Feed(d, e[0]), e[1..]);
      FeedInjective(c, d, e[0]);
    }
  }

  lemma MixCancels(c: bv16, d: bv16, x: bv16)
    ensures Mix(c, x) == Mix(d, x) ==> c == d
    ensures Mix(x, c) == Mix(x, d) ==> c == d
  {
    hide Mix;
    MixTwice(c, x);
    MixTwice(d, x);
  }

  lemma WindowInjective(c: bv16, v: seq<bool>, w: seq<bool>)
    requires |v| == |w| <= 16 && Serial(c, v) == Serial(c, w)
    ensures v == w
  {
    hide Shifts, Pack, Unpack, Serial, Mix;
    SerialIsShifts(c, v);
    SerialIsShifts(c, w);
    ShiftsInjective(Mix(c, Pack(v)), Mix(c, Pack(w)), |v|);
    MixCancels(Pack(v), Pack(w), c);
    UnpackPack(v);
    UnpackPack(w);
  }

  /** Two streams that differ, but only within 16 consecutive bits, never share a CRC. */
  lemma BurstDetected(c: bv16, pre: seq<bool>, v: seq<bool>, w: seq<bool>, post: seq<bool>)
    requires |v| == |w| <= 16 && v != w
    ensures Serial(c, pre + v + post) != Serial(c, pre + w + post)
  {
    hide Serial;
    SerialAppend(c, pre + v, post);
    SerialAppend(c, pre + w, post);
    SerialAppend(c, pre, v);
    SerialAppend(c, pre, w);
    if Serial(c, pre + v + post) == Serial(c, pre + w + post) {
      SerialInjective(Serial(c, pre + v), Serial(c, pre + w), post);
      WindowInjective(Serial(c, pre), v, w);
    }
  }

  lemma StreamsDiffer(c: bv16, a: seq<bool>, b: seq<bool>, at: nat, n: nat)
    requires |a| == |b| && a != b && n <= 16 && at + n <= |a|
    requires b[..at] == a[..at] && b[at + n..] == a[at + n..]
    ensures Serial(c, a) != Serial(c, b)
  {
    hide Serial;
    assert a == a[..at] + a[at..at + n] + a[at + n..];
    assert b == a[..at] + b[at..at + n] + a[at + n..];
    BurstDetected(c, a[..at], a[at..at + n], b[at..at + n], a[at + n..]);
  }

  // ------------------------------------------------------ frames on the line

  predicate Fits(c: bv16, n: nat) { n <= 15 ==> c < Limit(n) }

  lemma PackUnpack(c: bv16, n: nat)
    requires 1 <= n <= 16 && Fits(c, n)
    ensures Pack(Unpack(c, n)) == c
    decreases n
  {
    hide Push, Odd, Half, Fits;
    Rejoin(c);
    HalfBound(c, n);
    if n > 1 {
      PackUnpack(Half(c), n - 1);
    } else {
      HalfOfOne(c);
    }
    assert Unpack(c, n)[1..] == Unpack(Half(c), n - 1);
  }

  lemma Rejoin(c: bv16)
    ensures Push(Half(c), Odd(c)) == c
  {
  }

  lemma HalfBound(c: bv16, n: nat)
    requires 1 <= n <= 16 && Fits(c, n)
    ensures n > 1 ==> Fits(Half(c), n - 1)
    ensures n == 1 ==> c < 2
  {
    if n < 5 { } else if n < 10 { } else { }
  }

  lemma HalfOfOne(c: bv16)
    requires c < 2
    ensures Half(c) == 0
  {
  }

  function Halves(c: bv16, n: nat): bv16
    decreases n
  {
    if n == 0 then c else Halves(Half(c), n - 1)
  }

  lemma {:induction false} UnpackSplits(c: bv16, a: nat, b: nat)
    ensures Unpack(c, a + b) == Unpack(c, a) + Unpack(Halves(c, a), b)
    decreases a
  {
    hide Odd, Half;
    if a > 0 {
      UnpackSplits(Half(c), a - 1, b);
    }
  }

  lemma EightHalves(c: bv16)
    ensures Halves(c, 8) == c >> 8
  {
    var c4 := Half(Half(Half(Half(c))));
    assert Halves(c, 8) == Halves(Half(c), 7) == Halves(Half(Half(c)), 6);
    assert Halves(Half(Half(c)), 6) == Halves(Half(Half(Half(c))), 5) == Halves(c4, 4);
    assert Halves(c4, 4) == Halves(Half(c4), 3) == Halves(Half(Half(c4)), 2);
    assert Halves(Half(Half(c4)), 2) == Halves(Half(Half(Half(c4))), 1) == Half(Half(Half(Half(c4))));
  }

  lemma ByteBits(b: Byte)
    ensures Number(Bits(b, 8)) == b
  {
    assert Pow2(8) == 2 * Pow2(7) == 4 * Pow2(6) == 8 * Pow2(5) == 16 * Pow2(4);
    assert Pow2(4) == 2 * Pow2(3) == 4 * Pow2(2) == 16;
    BitsNumber(b, 8);
  }

  lemma LowBits(c: bv16)
    ensures Bits(Low(c), 8) == Unpack(c, 8)
  {
    NumberBits(Unpack(c, 8));
  }

  /** A word is its low byte and its high byte. */
  lemma WordBytes(c: bv16, x: Byte, y: Byte)
    ensures c == Pack(Bits(x, 8) + Bits(y, 8)) <==> x == Low(c) && y == High(c)
  {
    hide Pack, Unpack, Bits, Low, Number, Halves;
    var e := Bits(x, 8) + Bits(y, 8);
    UnpackPack(e);
    assert Fits(c, 16);
    PackUnpack(c, 16);
    UnpackSplits(c, 8, 8);
    EightHalves(c);
    LowBits(c);
    LowBits(c >> 8);
    ByteBits(x);
    ByteBits(y);
    ByteBits(Low(c));
    ByteBits(High(c));
    assert e[..8] == Bits(x, 8) && e[8..] == Bits(y, 8);
    assert Unpack(c, 16)[..8] == Unpack(c, 8) && Unpack(c, 16)[8..] == Unpack(c >> 8, 8);
  }

  lemma {:induction false} BitStreamAppend(s: seq<Byte>, t: seq<Byte>)
    ensures BitStream(s + t) == BitStream(s) + BitStream(t)
    decreases |s|
  {
    hide Bits;
    if s == [] {
      assert s + t == t;
    } else {
      BitStreamAppend(s[1..], t);
      assert (s + t)[1..] == s[1..] + t;
    }
  }

  lemma TwoBytes(x: Byte, y: Byte)
    ensures BitStream([x, y]) == Bits(x, 8) + Bits(y, 8)
  {
    assert [x, y][1..] == [y] && [y][1..] == [];
  }

  lemma ShiftsZero(n: nat)
    ensures Shifts(0, n) == 0
    decreases n
  {
    if n > 0 {
      assert Shift(0) == 0;
      ShiftsZero(n - 1);
    }
  }

  /** Appending the low then the high CRC byte leaves residue zero, and no other two bytes do. */
  lemma Residue(data: seq<Byte>, x: Byte, y: Byte)
    ensures Crc(INITIAL, data + [x, y]) == 0
       <==> x == Low(Crc(INITIAL, data)) && y == High(Crc(INITIAL, data))
  {
    hide Serial, Shifts, Pack, Bits, Mix, Low, High, Octet;
    var c, e := Crc(INITIAL, data), Bits(x, 8) + Bits(y, 8);
    CrcAppend(INITIAL, data, [x, y]);
    CrcIsSerial(c, [x, y]);
    TwoBytes(x, y);
    SerialIsShifts(c, e);
    WordBytes(c, x, y);
    ShiftsZero(16);
    if Shifts(Mix(c, Pack(e)), 16) == 0 {
      ShiftsInjective(Mix(c, Pack(e)), 0, 16);
    }
    MixZeroIff(c, Pack(e));
  }

  lemma MixZeroIff(a: bv16, b: bv16)
    ensures Mix(a, b) == 0 <==> a == b
  {
    hide Mix;
    MixSelf(b);
    MixCancels(a, b, b);
  }

  lemma MixSelf(a: bv16)
    ensures Mix(a, a) == 0
  {
  }

  /** The check every receiver makes: the last two bytes are the CRC of the others, low byte first. */
  predicate FrameOk(f: seq<Byte>)
    ensures FrameOk(f) ==> |f| >= 2
  {
    && |f| >= 2
    && f[|f| - 2] == Low(Crc(INITIAL, f[..|f| - 2]))
    && f[|f| - 1] == High(Crc(INITIAL, f[..|f| - 2]))
  }

  lemma FrameOkIsResidue(f: seq<Byte>)
    requires |f| >= 2
    ensures FrameOk(f) <==> Crc(INITIAL, f) == 0
  {
    hide Low, High, Crc;
    var n := |f| - 2;
    Residue(f[..n], f[n], f[n + 1]);
    assert f == f[..n] + [f[n], f[n + 1]];
  }

  /**
   * Any error burst of at most 16 bits, in the order the bits enter the
   * register, at any position and any frame length, fails the check.
   */
  lemma BurstFailsCheck(f: seq<Byte>, g: seq<Byte>, at: nat, n: nat)
    requires FrameOk(f) && |g| == |f| && g != f
    requires n <= 16 && at + n <= 8 * |f|
    requires BitStream(g)[..at] == BitStream(f)[..at] && BitStream(g)[at + n..] == BitStream(f)[at + n..]
    ensures !FrameOk(g)
  {
    hide FrameOk, Crc, Serial, BitStream;
    FrameOkIsResidue(f);
    FrameOkIsResidue(g);
    CrcIsSerial(INITIAL, f);
    CrcIsSerial(INITIAL, g);
    if BitStream(f) == BitStream(g) {
      BitStreamInjective(f, g);
    }
    StreamsDiffer(INITIAL, BitStream(f), BitStream(g), at, n);
  }

  lemma {:induction false} BitStreamInjective(f: seq<Byte>, g: seq<Byte>)
    requires |f| == |g| && BitStream(f) == BitStream(g)
    ensures f == g
    decreases |f|
  {
    hide Bits, Number;
    if f != [] {
      assert BitStream(f)[..8] == Bits(f[0], 8) && BitStream(f)[8..] == BitStream(f[1..]);
      assert BitStream(g)[..8] == Bits(g[0], 8) && BitStream(g)[8..] == BitStream(g[1..]);
      ByteBits(f[0]);
      ByteBits(g[0]);
      BitStreamInjective(f[1..], g[1..]);
    }
  }

  /** In particular any damage confined to two adjacent bytes is detected. */
  lemma AdjacentBytesFailCheck(f: seq<Byte>, g: seq<Byte>, i: nat)
    requires FrameOk(f) && |g| == |f| && g != f && i + 2 <= |f|
    requires g[..i] == f[..i] && g[i + 2..] == f[i + 2..]
    ensures !FrameOk(g)
  {
    hide FrameOk, BitStream;
    SplitStream(f, i);
    SplitStream(g, i);
    BurstFailsCheck(f, g, 8 * i, 16);
  }

  lemma SplitStream(f: seq<Byte>, i: nat)
    requires i + 2 <= |f|
    ensures BitStream(f)[..8 * i] == BitStream(f[..i])
    ensures BitStream(f)[8 * i + 16..] == BitStream(f[i + 2..])
  {
    hide BitStream;
    BitStreamAppend(f[..i], f[i..]);
    assert f == f[..i] + f[i..];
    BitStreamAppend(f[..i + 2], f[i + 2..]);
    assert f == f[..i + 2] + f[i + 2..];
  }
}
