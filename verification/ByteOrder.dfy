/** Byte order: how integers lie in the memory of a little-endian host, and what htonl, htons and net_htonll do to them. */
module ByteOrder {
  type Byte = x: nat | x < 256

  /** The little-endian memory of the n low bytes of x. */
  function Bytes(x: nat, n: nat): (r: seq<Byte>)
    ensures |r| == n
  {
    if n == 0 then [] else [x % 256] + Bytes(x / 256, n - 1)
  }

  /** The integer that little-endian memory holds. */
  function Value(s: seq<Byte>): nat {
    if s == [] then 0 else s[0] + 256 * Value(s[1..])
  }

  function Reversed(s: seq<Byte>): (r: seq<Byte>)
    ensures |r| == |s| && forall i :: 0 <= i < |s| ==> r[i] == s[|s| - 1 - i]
  {
    seq(|s|, i requires 0 <= i < |s| => s[|s| - 1 - i])
  }

  function Power(n: nat): (p: nat)
    ensures p > 0
  {
    if n == 0 then 1 else 256 * Power(n - 1)
  }

  // --- bits of an integer

  /** The number with the n-th bit set. */
  function Bit(n: nat): (b: nat)
    ensures b > 0
  {
    if n == 0 then 1 else 2 * Bit(n - 1)
  }

  /** The n-th bit is set. */
  predicate Test(flags: nat, n: nat) { flags / Bit(n) % 2 == 1 }

  lemma Bits()
    ensures Bit(1) == 2 && Bit(2) == 4 && Bit(3) == 8 && Bit(4) == 16 && Bit(5) == 32 && Bit(6) == 64
    ensures Bit(7) == 128 && Bit(8) == 256 && Bit(9) == 512 && Bit(10) == 1024 && Bit(11) == 2048 && Bit(12) == 4096
    ensures Bit(13) == 8192 && Bit(14) == 16384
  {
    assert Bit(0) == 1;
    assert Bit(1) == 2;
    assert Bit(2) == 4;
    assert Bit(3) == 8;
    assert Bit(4) == 16;
    assert Bit(5) == 32;
    assert Bit(6) == 64;
    assert Bit(7) == 128;
    assert Bit(8) == 256;
    assert Bit(9) == 512;
    assert Bit(10) == 1024;
    assert Bit(11) == 2048;
    assert Bit(12) == 4096;
    assert Bit(13) == 8192;
  }

  // --- conversions

  /** htons, htonl and their inverses on a little-endian host: the same bytes in the opposite order. */
  function Swapped(x: nat, n: nat): nat { Value(Reversed(Bytes(x, n))) }

  lemma {:induction false} ValueOfBytes(x: nat, n: nat)
    requires x < Power(n)
    ensures Value(Bytes(x, n)) == x
  {
    if n > 0 { ValueOfBytes(x / 256, n - 1); }
  }

  lemma LowByte(low: nat, p: nat)
    ensures (low + 256 * p) % 256 == low % 256 && (low + 256 * p) / 256 == low / 256 + p
  {
    var q, r := low / 256, low % 256;
    assert low == 256 * q + r;
    assert low + 256 * p == 256 * (q + p) + r;
  }

  lemma ByteBelow(low: Byte, v: nat, p: nat)
    requires v < p
    ensures low + 256 * v < 256 * p && (low as nat) % 256 == low && (low as nat) / 256 == 0
  {}

  lemma {:induction false} BytesOfValue(s: seq<Byte>)
    ensures Value(s) < Power(|s|) && Bytes(Value(s), |s|) == s
    decreases |s|
  {
    if s != [] {
      BytesOfValue(s[1..]);
      var v := Value(s[1..]);
      LowByte(s[0], v);
      ByteBelow(s[0], v, Power(|s| - 1));
      assert Bytes(s[0] + 256 * v, |s|) == [s[0]] + Bytes(v, |s| - 1);
      hide Bytes, Value, Power;
      assert s == [s[0]] + s[1..];
    }
  }

  /** The converted integer lies in memory most significant byte first. */
  lemma NetworkOrder(x: nat, n: nat)
    ensures Swapped(x, n) < Power(n) && Bytes(Swapped(x, n), n) == Reversed(Bytes(x, n))
  {
    BytesOfValue(Reversed(Bytes(x, n)));
  }

  /** Host to network to host is the identity on every integer of the width. */
  lemma SwapTwice(x: nat, n: nat)
    requires x < Power(n)
    ensures Swapped(Swapped(x, n), n) == x
  {
    NetworkOrder(x, n);
    assert Reversed(Reversed(Bytes(x, n))) == Bytes(x, n);
    ValueOfBytes(x, n);
  }

  /** What a reader of the network makes of bytes: the first one is the most significant. */
  function BigEndian(s: seq<Byte>): nat {
    if s == [] then 0 else BigEndian(s[..|s| - 1]) * 256 + s[|s| - 1]
  }

  /** The bytes from `at` up to `end` read as x, most significant byte first. */
  predicate Reads(s: seq<Byte>, at: nat, end: nat, x: nat) {
    at <= end <= |s| && BigEndian(s[at..end]) == x
  }

  predicate ZeroFrom(s: seq<Byte>, at: nat, end: nat) {
    at <= end <= |s| && forall k :: at <= k < end ==> s[k] == 0
  }

  lemma {:induction false} ReversedIsBigEndian(x: nat, n: nat)
    requires x < Power(n)
    ensures BigEndian(Reversed(Bytes(x, n))) == x
  {
    if n > 0 {
      ReversedIsBigEndian(x / 256, n - 1);
      var s := Reversed(Bytes(x, n));
      assert s[..n - 1] == Reversed(Bytes(x / 256, n - 1)) && s[n - 1] == x % 256;
    }
  }

  /** Converting an integer is reading its memory as the network does. */
  lemma SwappedReads(x: nat, n: nat)
    ensures Swapped(x, n) == BigEndian(Bytes(x, n))
  {
    ValueOfReversed(Bytes(x, n));
  }

  lemma {:induction false} ValueOfReversed(s: seq<Byte>)
    ensures Value(Reversed(s)) == BigEndian(s)
    decreases |s|
  {
    if s != [] {
      var rest := s[..|s| - 1];
      ValueOfReversed(rest);
      assert Reversed(s)[1..] == Reversed(rest);
    }
  }

  /** The memory of a converted integer reads as the integer on the network. */
  lemma OnNetwork(x: nat, n: nat)
    requires x < Power(n)
    ensures BigEndian(Bytes(Swapped(x, n), n)) == x
  {
    NetworkOrder(x, n);
    ReversedIsBigEndian(x, n);
  }

  // --- the 64-bit conversion out of two 32-bit ones

  // What is left of x above its n low bytes.
  function Above(x: nat, n: nat): nat { if n == 0 then x else Above(x / 256, n - 1) }

  lemma {:induction false} BytesSplit(x: nat, m: nat, n: nat)
    ensures Bytes(x, m + n) == Bytes(x, m) + Bytes(Above(x, m), n)
    decreases m
  {
    if m > 0 { BytesSplit(x / 256, m - 1, n); }
  }

  lemma ScaledPower(n: nat, high: nat)
    requires n > 0
    ensures Power(n) == 256 * Power(n - 1) && Power(n) * high == 256 * (Power(n - 1) * high)
  {
    var p := Power(n - 1);
    assert Power(n) == 256 * p;
    hide Power;
    assert 256 * p * high == 256 * (p * high);
  }

  lemma FirstByte(x: nat, n: nat)
    requires n > 0
    ensures Bytes(x, n) == [x % 256] + Bytes(x / 256, n - 1) && Above(x, n) == Above(x / 256, n - 1)
  {}

  lemma {:induction false} Halves(low: nat, high: nat, n: nat)
    requires low < Power(n)
    ensures Bytes(low + Power(n) * high, n) == Bytes(low, n) && Above(low + Power(n) * high, n) == high
  {
    if n > 0 {
      ScaledPower(n, high);
      hide Power, Bytes, Above;
      LowByte(low, Power(n - 1) * high);
      FirstByte(low + Power(n) * high, n);
      FirstByte(low, n);
      Halves(low / 256, high, n - 1);
    }
  }

  lemma {:induction false} ValueAppend(a: seq<Byte>, b: seq<Byte>)
    ensures Value(a + b) == Value(a) + Power(|a|) * Value(b)
    decreases |a|
  {
    if a == [] {
      assert a + b == b;
    } else {
      assert (a + b)[1..] == a[1..] + b;
      ValueAppend(a[1..], b);
    }
  }

  /** net_htonll in place: the two 32-bit halves are converted and exchanged. */
  method Htonll(p: array<nat>)
    requires p.Length == 2 && p[0] < Power(4) && p[1] < Power(4)
    modifies p
    ensures p[0] < Power(4) && p[1] < Power(4)
    ensures p[0] + Power(4) * p[1] == Swapped(old(p[0] + Power(4) * p[1]), 8)
  {
    HalvesSwapped(p[0], p[1]);
    NetworkOrder(p[0], 4);
    NetworkOrder(p[1], 4);
    var lo := Swapped(p[1], 4);
    var hi := Swapped(p[0], 4);
    p[0] := lo;
    p[1] := hi;
  }

  /** The macro of the other compiler gives the same: the converted low half above the converted high half. */
  lemma HalvesSwapped(low: nat, high: nat)
    requires low < Power(4) && high < Power(4)
    ensures Swapped(low + Power(4) * high, 8) == Swapped(low, 4) * Power(4) + Swapped(high, 4)
  {
    var x := low + Power(4) * high;
    BytesSplit(x, 4, 4);
    Halves(low, high, 4);
    assert Bytes(x, 4 + 4) == Bytes(low, 4) + Bytes(high, 4);
    hide Power, Bytes, Value;
    assert Reversed(Bytes(low, 4) + Bytes(high, 4)) == Reversed(Bytes(high, 4)) + Reversed(Bytes(low, 4));
    ValueAppend(Reversed(Bytes(high, 4)), Reversed(Bytes(low, 4)));
  }
}
