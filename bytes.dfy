/** Bytes and byte strings: the memory that the raw sample codecs and the C strings of the library work on.
    A multi-byte integer is a sequence of its bytes, least significant first (little endian) or last (big
    endian); the bytes of a negative number are those of its two's complement, which is what Rust's `>>`
    and `& 0xFF` produce on a signed word. */
module Bytes {

  type Byte = x: int | 0 <= x < 0x100

  /** 2^64: a `usize` on the 64-bit targets this model assumes. */
  const UsizeModulus: int := 0x1_0000_0000_0000_0000

  /** 256^n. */
  function Pow256(n: nat): (r: nat)
    ensures r >= 1
  {
    if n == 0 then 1 else 0x100 * Pow256(n - 1)
  }

  /** The `n` low bytes of `x`, least significant first. */
  function LeBytes(x: int, n: nat): (bs: seq<Byte>)
    ensures |bs| == n
    decreases n
  {
    if n == 0 then [] else [x % 0x100] + LeBytes(x / 0x100, n - 1)
  }

  /** The `n` low bytes of `x`, most significant first. */
  function BeBytes(x: int, n: nat): (bs: seq<Byte>)
    ensures |bs| == n
    decreases n
  {
    if n == 0 then [] else BeBytes(x / 0x100, n - 1) + [x % 0x100]
  }

  /** The unsigned number whose little-endian bytes are `bs`. */
  function LeValue(bs: seq<Byte>): (x: nat)
    ensures x < Pow256(|bs|)
  {
    if |bs| == 0 then 0 else bs[0] + 0x100 * LeValue(bs[1..])
  }

  /** The unsigned number whose big-endian bytes are `bs`. */
  function BeValue(bs: seq<Byte>): (x: nat)
    ensures x < Pow256(|bs|)
  {
    if |bs| == 0 then 0 else BeValue(bs[..|bs| - 1]) * 0x100 + bs[|bs| - 1]
  }

  function Reverse<T>(s: seq<T>): (r: seq<T>)
    ensures |r| == |s| && forall i :: 0 <= i < |s| ==> r[i] == s[|s| - 1 - i]
  {
    if |s| == 0 then [] else Reverse(s[1..]) + [s[0]]
  }

  /** `s` with the bytes at `p .. p + |w|` replaced by `w`: the effect of a store of `w` at offset `p`. */
  function Splice(s: seq<Byte>, p: nat, w: seq<Byte>): (r: seq<Byte>)
    requires p + |w| <= |s|
    ensures |r| == |s|
    ensures r[p..p + |w|] == w
    ensures forall i :: 0 <= i < |s| && !(p <= i < p + |w|) ==> r[i] == s[i]
  {
    s[..p] + w + s[p + |w|..]
  }

  /** Reading back the little-endian bytes of `x` gives `x` modulo 256^n: the bytes keep every bit of the
      low `n` bytes of the two's complement. */
  lemma {:induction false} LeRoundTrip(x: int, n: nat)
    ensures LeValue(LeBytes(x, n)) == x % Pow256(n)
    decreases n
  {
    if n > 0 {
      var bs := LeBytes(x, n);
      assert bs[1..] == LeBytes(x / 0x100, n - 1);
      LeRoundTrip(x / 0x100, n - 1);
      ModOfByteShift(x, Pow256(n - 1));
    }
  }

  /** The residue modulo 256 m is the low byte plus 256 times the residue of the rest modulo m. */
  lemma ModOfByteShift(x: int, m: int)
    requires m > 0
    ensures x % (0x100 * m) == x % 0x100 + 0x100 * ((x / 0x100) % m)
  {
    var q := x / 0x100;
    var k := q / m;
    var low := x % 0x100 + 0x100 * (q % m);
    assert 0 <= low < 0x100 * m by {
      assert q % m <= m - 1;
      assert 0x100 * (q % m) <= 0x100 * m - 0x100;
    }
    assert x == (0x100 * m) * k + low by {
      assert x == 0x100 * q + x % 0x100;
      assert q == m * k + q % m;
      assert 0x100 * q == (0x100 * m) * k + 0x100 * (q % m);
    }
    ModOfSum(k, low, 0x100 * m);
  }

  /** Division of `a * d + b` by `d` when `b` is a remainder. */
  lemma DivOfSum(a: int, b: int, d: int)
    requires d > 0 && 0 <= b < d
    ensures (a * d + b) / d == a
  {
    var q, r := (a * d + b) / d, (a * d + b) % d;
    assert (a - q) * d == r - b;
    if a - q >= 1 {
      assert false;
    } else if a - q <= -1 {
      assert false;
    }
  }

  /** `(k d + b) % d == b` for a remainder `b`. */
  lemma ModOfSum(k: int, b: int, d: int)
    requires d > 0 && 0 <= b < d
    ensures (d * k + b) % d == b
  {
    var q, r := (d * k + b) / d, (d * k + b) % d;
    assert d * (k - q) == r - b;
    if k - q >= 1 {
      assert false;
    } else if k - q <= -1 {
      assert false;
    }
  }

  /** The big-endian bytes are the little-endian bytes in the opposite order. */
  lemma {:induction false} BeIsReversedLe(x: int, n: nat)
    ensures BeBytes(x, n) == Reverse(LeBytes(x, n))
    decreases n
  {
    if n > 0 {
      BeIsReversedLe(x / 0x100, n - 1);
      assert LeBytes(x, n)[1..] == LeBytes(x / 0x100, n - 1);
    }
  }

  /** Reading a byte string in big-endian order is reading its reverse in little-endian order. */
  lemma {:induction false} BeValueOfReverse(bs: seq<Byte>)
    ensures BeValue(Reverse(bs)) == LeValue(bs)
  {
    if |bs| > 0 {
      var r := Reverse(bs);
      assert r[..|r| - 1] == Reverse(bs[1..]);
      BeValueOfReverse(bs[1..]);
    }
  }

  /** The big-endian round trip. */
  lemma BeRoundTrip(x: int, n: nat)
    ensures BeValue(BeBytes(x, n)) == x % Pow256(n)
  {
    BeIsReversedLe(x, n);
    BeValueOfReverse(LeBytes(x, n));
    LeRoundTrip(x, n);
  }

  /** The little-endian value of a concatenation. */
  lemma {:induction false} LeValueOfAppend(a: seq<Byte>, b: seq<Byte>)
    ensures LeValue(a + b) == LeValue(a) + Pow256(|a|) * LeValue(b)
    decreases |a|
  {
    if |a| == 0 {
      assert a + b == b;
    } else {
      var ab := a + b;
      assert ab[0] == a[0] && ab[1..] == a[1..] + b;
      assert LeValue(ab) == a[0] + 0x100 * LeValue(a[1..] + b);
      LeValueOfAppend(a[1..], b);
      Regroup(a[0], LeValue(a[1..]), Pow256(|a| - 1), LeValue(b));
    }
  }

  lemma Regroup(a0: int, x: int, m: int, l: int)
    ensures a0 + 0x100 * (x + m * l) == (a0 + 0x100 * x) + (0x100 * m) * l
  {
  }
}
