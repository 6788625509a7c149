/** Fixed-width integers as bytes: a little-endian host's memory, network order, two's complement. */
module Bytes {

  type byte = b: int | 0 <= b < 256

  function Pow(b: nat, e: nat): (p: nat)
    ensures b > 0 ==> p > 0
  {
    if e == 0 then 1 else b * Pow(b, e - 1)
  }

  lemma PowNext(b: nat, e: nat)
    ensures Pow(b, e + 1) == b * Pow(b, e)
  {
  }

  lemma Associate(x: int, y: int, z: int)
    ensures x * (y * z) == x * y * z
  {
  }

  lemma {:induction false} PowAdd(b: nat, m: nat, n: nat)
    ensures Pow(b, m + n) == Pow(b, m) * Pow(b, n)
  {
    if m > 0 {
      PowAdd(b, m - 1, n);
      PowNext(b, m - 1);
      PowNext(b, m - 1 + n);
      hide Pow;
      Associate(b, Pow(b, m - 1), Pow(b, n));
    }
  }

  lemma Widths()
    ensures Pow(256, 1) == 0x100 && Pow(256, 2) == 0x1_0000
    ensures Pow(256, 4) == 0x1_0000_0000 && Pow(256, 8) == 0x1_0000_0000_0000_0000
  {
    PowAdd(256, 2, 2);
    PowAdd(256, 4, 4);
  }

  /** The w low bytes of x as a little-endian host stores them. */
  function Memory(x: nat, w: nat): (m: seq<byte>)
    ensures |m| == w
  {
    if w == 0 then [] else [x % 256] + Memory(x / 256, w - 1)
  }

  /** The unsigned value a little-endian host loads from m. */
  function Load(m: seq<byte>): nat {
    if m == [] then 0 else m[0] + 256 * Load(m[1..])
  }

  function Reverse<T>(s: seq<T>): (r: seq<T>)
    ensures |r| == |s|
    ensures forall k | 0 <= k < |s| :: r[k] == s[|s| - 1 - k]
  {
    if s == [] then [] else Reverse(s[1..]) + [s[0]]
  }

  /** What a byte string means: most significant byte first. */
  function BigValue(s: seq<byte>): nat {
    if s == [] then 0 else BigValue(s[..|s| - 1]) * 256 + s[|s| - 1]
  }

  /** Two's complement: the pattern that stores x in w bytes, and the signed reading of a pattern. */
  function Pattern(x: int, w: nat): nat { x % Pow(256, w) }

  function Signed(u: nat, w: nat): int {
    if 2 * u < Pow(256, w) then u else u - Pow(256, w)
  }

  predicate FitsSigned(x: int, w: nat) {
    -(Pow(256, w) as int) <= 2 * x < Pow(256, w)
  }

  function ByteSwap(x: nat, w: nat): nat { Load(Reverse(Memory(x, w))) }

  function EncodeFixed(x: int, w: nat): (s: seq<byte>)
    ensures |s| == w
  {
    Memory(ByteSwap(Pattern(x, w), w), w)
  }

  lemma {:induction false} LoadMemory(x: nat, w: nat)
    requires x < Pow(256, w)
    ensures Load(Memory(x, w)) == x
  {
    if w > 0 {
      assert x / 256 < Pow(256, w - 1);
      LoadMemory(x / 256, w - 1);
    }
  }

  lemma {:induction false} MemoryLoad(m: seq<byte>)
    ensures Load(m) < Pow(256, |m|) && Memory(Load(m), |m|) == m
  {
    if m != [] {
      MemoryLoad(m[1..]);
      assert Load(m) % 256 == m[0] && Load(m) / 256 == Load(m[1..]);
    }
  }

  lemma {:induction false} ReverseSnoc<T>(s: seq<T>)
    requires s != []
    ensures Reverse(s) == [s[|s| - 1]] + Reverse(s[..|s| - 1])
  {
  }

  lemma {:induction false} LoadReverse(s: seq<byte>)
    ensures Load(Reverse(s)) == BigValue(s)
    decreases |s|
  {
    if s != [] {
      var init := s[..|s| - 1];
      ReverseSnoc(s);
      assert Reverse(s)[1..] == Reverse(init);
      LoadReverse(init);
    }
  }

  lemma {:induction false} BigValueBound(s: seq<byte>)
    ensures BigValue(s) < Pow(256, |s|)
    decreases |s|
  {
    if s != [] { BigValueBound(s[..|s| - 1]); }
  }

  /** The first byte weighs most. */
  lemma {:induction false} BigValueFirst(b: byte, s: seq<byte>)
    ensures BigValue([b] + s) == b * Pow(256, |s|) + BigValue(s)
    decreases |s|
  {
    var all := [b] + s;
    if s == [] {
      assert all[..0] == [];
    } else {
      var init := s[..|s| - 1];
      BigValueFirst(b, init);
      assert all[..|all| - 1] == [b] + init;
      PowNext(256, |init|);
      Associate(b, Pow(256, |init|), 256);
    }
  }

  lemma ReverseTwice<T>(s: seq<T>)
    ensures Reverse(Reverse(s)) == s
  {
  }

  /** Swapping and storing on a little-endian host writes the value most significant byte first. */
  lemma EncodeFixedValue(x: int, w: nat)
    ensures BigValue(EncodeFixed(x, w)) == Pattern(x, w)
  {
    var u := Pattern(x, w);
    var m := Reverse(Memory(u, w));
    MemoryLoad(m);
    LoadReverse(m);
    ReverseTwice(Memory(u, w));
    LoadMemory(u, w);
  }

  /** Reading back what was written gives the value, signed or not, whenever it fits. */
  lemma SignedRoundTrip(x: int, w: nat)
    requires FitsSigned(x, w)
    ensures Signed(BigValue(EncodeFixed(x, w)), w) == x
  {
    EncodeFixedValue(x, w);
    if x < 0 { NegativePattern(x, Pow(256, w)); } else { SmallPattern(x, Pow(256, w)); }
  }

  lemma SmallPattern(x: nat, m: nat)
    requires x < m
    ensures x % m == x
  {
  }

  lemma NegativePattern(x: int, m: nat)
    requires -(m as int) <= x < 0
    ensures x % m == x + m
  {
    var q, r := x / m, x % m;
    assert x == m * q + r && 0 <= r < m;
    assert q >= 0 ==> m * q >= 0;
    assert q <= -2 ==> m * q <= m * -2;
    assert q == -1 && m * q == -(m as int);
  }

  /** Copies the bytes in reverse into the value's memory, as the reader does. */
  method ReadBigEndian(data: seq<byte>, offset: nat, w: nat) returns (value: nat)
    requires offset + w <= |data|
    ensures value == BigValue(data[offset..offset + w])
  {
    var d := new byte[w];
    var i := 0;
    while i < w
      invariant 0 <= i <= w
      invariant forall k | 0 <= k < i :: d[k] == data[offset + w - 1 - k]
    {
      d[i] := data[offset + w - 1 - i];
      i := i + 1;
    }
    var s := data[offset..offset + w];
    assert d[..] == Reverse(s);
    LoadReverse(s);
    value := Load(d[..]);
  }
}
