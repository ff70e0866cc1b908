/** Machine words, byte strings and the option type shared by every module. */
module Base {

  datatype Option<+T> = None | Some(value: T)

  type Byte = b: int | 0 <= b < 256

  /** A hardware address. */
  type Mac = s: seq<Byte> | |s| == 6 witness [0, 0, 0, 0, 0, 0]

  const TWO32: int := 0x1_0000_0000
  const TWO31: int := 0x8000_0000

  /** An `unsigned int` of the target. */
  type Word = w: int | 0 <= w < TWO32

  /** `++*value` on an `unsigned int` that wraps. */
  function NextWord(w: Word): Word { (w + 1) % TWO32 }

  /** `++*value` on an `unsigned int` that stops at its maximum. */
  function Saturate(n: nat): (w: Word)
    ensures w <= n && (n < TWO32 ==> w == n)
  {
    if n < TWO32 then n else TWO32 - 1
  }

  /** Four bytes of an `unsigned int`, most significant first; wider values are truncated. */
  function Put32(v: nat): (s: seq<Byte>)
    ensures |s| == 4
  {
    [v / 0x100_0000 % 256, v / 0x1_0000 % 256, v / 256 % 256, v % 256]
  }

  function Get32(s: seq<Byte>): Word
    requires |s| >= 4
  {
    s[0] as int * 0x100_0000 + s[1] as int * 0x1_0000 + s[2] as int * 256 + s[3] as int
  }

  lemma Digits(v: Word)
    ensures v == v / 0x100_0000 % 256 * 0x100_0000 + v / 0x1_0000 % 256 * 0x1_0000 + v / 256 % 256 * 256 + v % 256
  {
    var a := v / 256;
    var b := a / 256;
    var c := b / 256;
    assert b == v / 0x1_0000;
    assert c == v / 0x100_0000;
    assert v == 256 * a + v % 256 && a == 256 * b + a % 256 && b == 256 * c + b % 256 && c % 256 == c;
  }

  lemma GetPut(v: Word, t: seq<Byte>)
    ensures Get32(Put32(v) + t) == v
  {
    var s := Put32(v) + t;
    assert s[0] == Put32(v)[0] && s[1] == Put32(v)[1] && s[2] == Put32(v)[2] && s[3] == Put32(v)[3];
    Digits(v);
  }

  lemma PutGet(s: seq<Byte>)
    requires |s| >= 4
    ensures Put32(Get32(s)) == s[..4]
  {
    var v := Get32(s);
    assert v / 256 == s[0] as int * 0x1_0000 + s[1] as int * 256 + s[2] as int;
    assert v / 0x1_0000 == s[0] as int * 256 + s[1] as int;
    assert v / 0x100_0000 == s[0];
  }

  lemma SliceOfSlice<T>(s: seq<T>, lo: nat, hi: nat, i: nat, j: nat)
    requires lo <= hi <= |s| && i <= j <= hi - lo
    ensures s[lo..hi][i..j] == s[lo + i..lo + j]
  {
    var a, b := s[lo..hi][i..j], s[lo + i..lo + j];
    assert |a| == |b|;
    assert forall k | 0 <= k < |a| :: a[k] == s[lo + i + k] == b[k];
  }

  lemma TakeOfDrop<T>(s: seq<T>, n: nat, k: nat)
    requires n + k <= |s|
    ensures s[n..][..k] == s[n..n + k]
  {
    var a, b := s[n..][..k], s[n..n + k];
    assert |a| == |b|;
    assert forall i | 0 <= i < |a| :: a[i] == s[n + i] == b[i];
  }
}
