/** Circular buffers: a fixed array, the index of the oldest element and a count. */
module Rings {

  /** The array index of the i-th element behind `head`; the source writes it with `%`. */
  function Wrap(cap: nat, head: nat, i: nat): nat {
    if head + i < cap then head + i else head + i - cap
  }

  lemma WrapIsMod(cap: nat, head: nat, i: nat)
    requires head < cap && i <= cap
    ensures Wrap(cap, head, i) == (head + i) % cap < cap
  {
    if head + i < cap {
    } else {
      assert head + i == cap + (head + i - cap);
    }
  }

  /** The elements in order, oldest first. */
  function View<T>(buf: seq<T>, head: nat, count: nat): (s: seq<T>)
    requires head < |buf| && count <= |buf|
    ensures |s| == count
  {
    seq(count, i requires 0 <= i < count => buf[Wrap(|buf|, head, i)])
  }

  /** Elements written behind the last one are appended, nothing else changes. */
  lemma ViewWritten<T>(buf: seq<T>, buf': seq<T>, head: nat, count: nat, data: seq<T>)
    requires head < |buf| == |buf'| && count + |data| <= |buf|
    requires forall i | 0 <= i < count :: buf'[Wrap(|buf|, head, i)] == buf[Wrap(|buf|, head, i)]
    requires forall i | 0 <= i < |data| :: buf'[Wrap(|buf|, head, count + i)] == data[i]
    ensures View(buf', head, count + |data|) == View(buf, head, count) + data
  {
    var a, b := View(buf', head, count + |data|), View(buf, head, count) + data;
    forall k | 0 <= k < |a| ensures a[k] == b[k] {
      if k >= count {
        assert a[k] == buf'[Wrap(|buf|, head, count + (k - count))];
      }
    }
  }

  /** Dropping the oldest elements only moves `head`. */
  lemma ViewDropped<T>(buf: seq<T>, head: nat, count: nat, n: nat)
    requires head < |buf| && n <= count <= |buf|
    ensures View(buf, (head + n) % |buf|, count - n) == View(buf, head, count)[n..]
  {
    WrapIsMod(|buf|, head, n);
    var a, b := View(buf, (head + n) % |buf|, count - n), View(buf, head, count)[n..];
    forall k | 0 <= k < |a| ensures a[k] == b[k] {
      assert Wrap(|buf|, Wrap(|buf|, head, n), k) == Wrap(|buf|, head, n + k);
    }
  }
}
