/** Unsigned 64-bit integers as PostgreSQL NUMERIC messages: base-10000 groups, most significant
    first, trailing zero groups left out, every arithmetic step taken modulo 2^64. */
module Numeric {
  import opened Bytes
  import opened Wrappers

  const WRAP: nat := 0x1_0000_0000_0000_0000
  const BASE: nat := 10000

  type u64 = v: nat | v < 0x1_0000_0000_0000_0000

  /** A result column: the data of a null column is empty. */
  datatype Column = Column(isNull: bool, oid: nat, data: seq<byte>)

  const OID_NUMERIC: nat := 1700

  // ---- Encoding ----

  /** The base-10000 groups of v, most significant first. */
  function Groups(v: nat): seq<nat> {
    if v == 0 then [] else Groups(v / BASE) + [v % BASE]
  }

  function DropZeros(ds: seq<nat>): seq<nat> {
    if |ds| > 1 && ds[|ds| - 1] == 0 then DropZeros(ds[..|ds| - 1]) else ds
  }

  function EncodeDigits(ds: seq<nat>): (s: seq<byte>)
    ensures |s| == 2 * |ds|
  {
    if ds == [] then [] else EncodeDigits(ds[..|ds| - 1]) + EncodeFixed(ds[|ds| - 1], 2)
  }

  function Message(ds: seq<nat>, weight: int): seq<byte> {
    EncodeFixed(|ds|, 2) + EncodeFixed(weight, 2) + EncodeFixed(0, 2) + EncodeFixed(0, 2) + EncodeDigits(ds)
  }

  /** The encoder's output. Zero is the two-byte string its initialiser builds, not an eight-byte header. */
  function Encoded(v: u64): seq<byte> {
    if v == 0 then [8, 0] else Message(DropZeros(Groups(v)), |Groups(v)| - 1)
  }

  method EncodeNumericUint64(value: u64) returns (out: seq<byte>)
    ensures out == Encoded(value)
  {
    if value == 0 {
      return [8, 0];
    }
    var raw: seq<nat> := [];
    var v: nat := value;
    while v > 0
      invariant Groups(value) == Groups(v) + Reverse(raw)
    {
      ReverseSnoc(raw + [v % BASE]);
      assert (raw + [v % BASE])[..|raw|] == raw;
      raw := raw + [v % BASE];
      v := v / BASE;
    }
    raw := Reverse(raw);
    assert raw == Groups(value);
    GroupCount(value);
    var totalGroups := |raw|;
    var weight := totalGroups - 1;
    while |raw| > 1 && raw[|raw| - 1] == 0
      invariant |raw| >= 1 && DropZeros(raw) == DropZeros(Groups(value))
      decreases |raw|
    {
      raw := raw[..|raw| - 1];
    }
    assert raw == DropZeros(Groups(value));
    hide EncodeFixed, EncodeDigits, Groups, DropZeros;
    out := EncodeFixed(|raw|, 2) + EncodeFixed(weight, 2) + EncodeFixed(0, 2) + EncodeFixed(0, 2);
    out := AppendDigits(out, raw);
  }

  method AppendDigits(header: seq<byte>, raw: seq<nat>) returns (out: seq<byte>)
    ensures out == header + EncodeDigits(raw)
  {
    out := header;
    for i := 0 to |raw|
      invariant out == header + EncodeDigits(raw[..i])
    {
      assert raw[..i + 1][..i] == raw[..i];
      out := out + EncodeFixed(raw[i], 2);
    }
    assert raw[..|raw|] == raw;
  }

  // ---- Decoding ----

  /** The value of digits whose first one counts BASE^weight. */
  function SumAt(ds: seq<nat>, weight: nat): nat
    requires |ds| <= weight + 1
  {
    if ds == [] then 0
    else ds[0] * Pow(BASE, weight) + if |ds| == 1 then 0 else SumAt(ds[1..], weight - 1)
  }

  function Digits(data: seq<byte>, n: nat): (ds: seq<nat>)
    requires 8 + 2 * n <= |data|
    ensures |ds| == n
  {
    seq(n, i requires 0 <= i < n => BigValue(data[8 + 2 * i..10 + 2 * i]))
  }

  function DigitCount(data: seq<byte>): int
    requires |data| >= 8
  {
    Signed(BigValue(data[0..2]), 2)
  }

  function Weight(data: seq<byte>): int
    requires |data| >= 8
  {
    Signed(BigValue(data[2..4]), 2)
  }

  function Max(a: int, b: int): int { if a > b then a else b }

  /** What a column read as uint64_t gives: the digits' sum at their weight, modulo 2^64. Groups
      below the units are read as if they were whole. A count from -4 to -1 passes the size test
      and gives zero; below that the size test's unsigned conversion fails. */
  function ReadUint64(col: Column): Option<u64> {
    if col.isNull || col.oid != OID_NUMERIC || |col.data| < 8 || BigValue(col.data[4..6]) != 0 then None
    else
      var n := DigitCount(col.data);
      if n == 0 || -4 <= n < 0 then Some(0)
      else if n < 0 || |col.data| < 8 + 2 * n then None
      else Some(SumAt(Digits(col.data, n), Max(Weight(col.data), n - 1)) % WRAP)
  }

  lemma WrapOnce(x: nat)
    ensures (x + WRAP) % WRAP == x % WRAP
  {
  }

  lemma {:induction false} WrapMany(x: nat, k: nat)
    ensures (x + k * WRAP) % WRAP == x % WRAP
  {
    if k > 0 {
      WrapMany(x, k - 1);
      WrapOnce(x + (k - 1) * WRAP);
    }
  }

  lemma WrapMul(a: nat, d: nat)
    ensures ((a % WRAP) * BASE + d) % WRAP == (a * BASE + d) % WRAP
  {
    var q, r := a / WRAP, a % WRAP;
    assert a == r + q * WRAP;
    assert a * BASE + d == (r * BASE + d) + (BASE * q) * WRAP;
    WrapMany(r * BASE + d, BASE * q);
  }

  lemma {:induction false} SumSnoc(ds: seq<nat>, d: nat, weight: nat)
    requires |ds| == weight + 1
    ensures SumAt(ds + [d], weight + 1) == SumAt(ds, weight) * 10000 + d
  {
    var all := ds + [d];
    if |ds| > 1 {
      assert all[1..] == ds[1..] + [d];
      SumSnoc(ds[1..], d, weight - 1);
      assert ds[0] * (BASE * Pow(BASE, weight)) == ds[0] * Pow(BASE, weight) * BASE;
    } else {
      assert all[1..] == [d];
      assert Pow(BASE, 1) == BASE * Pow(BASE, 0);
    }
  }

  lemma {:induction false} SumShift(ds: seq<nat>, weight: nat)
    requires |ds| <= weight + 1
    ensures SumAt(ds, weight + 1) == SumAt(ds, weight) * 10000
  {
    if |ds| > 0 {
      assert Pow(BASE, weight + 1) == BASE * Pow(BASE, weight);
      assert ds[0] * (BASE * Pow(BASE, weight)) == ds[0] * Pow(BASE, weight) * BASE;
      if |ds| > 1 { SumShift(ds[1..], weight - 1); }
    }
  }

  lemma ScaleStep(ds: seq<nat>, weight: nat)
    requires |ds| <= weight + 1
    ensures ((SumAt(ds, weight) % WRAP) * BASE) % WRAP == SumAt(ds, weight + 1) % WRAP
  {
    SumShift(ds, weight);
    WrapMul(SumAt(ds, weight), 0);
  }

  lemma DigitStep(ds: seq<nat>, digit: nat, weight: nat)
    requires |ds| == weight + 1
    ensures ((SumAt(ds, weight) % WRAP) * BASE + digit) % WRAP == SumAt(ds + [digit], weight + 1) % WRAP
  {
    SumSnoc(ds, digit, weight);
    WrapMul(SumAt(ds, weight), digit);
  }

  lemma SumOne(d: nat)
    ensures SumAt([d], 0) == d
  {
    assert Pow(BASE, 0) == 1;
  }

  /** The Horner loop, each step taken modulo 2^64; a negative count runs no step. */
  method ReadDigits(data: seq<byte>, ndigits: int) returns (result: u64)
    requires ndigits != 0 && (ndigits > 0 ==> 8 + 2 * ndigits <= |data|)
    ensures result == if ndigits < 0 then 0 else SumAt(Digits(data, ndigits), ndigits - 1) % WRAP
  {
    hide SumAt, BigValue;
    result := 0;
    ghost var all := if ndigits > 0 then Digits(data, ndigits) else [];
    var i := 0;
    while i < ndigits
      invariant 0 <= i && (ndigits < 0 ==> i == 0) && (ndigits > 0 ==> i <= ndigits)
      invariant i == 0 ==> result == 0
      invariant 0 < i <= ndigits ==> result == SumAt(all[..i], i - 1) % WRAP
    {
      var digit := ReadBigEndian(data, 8 + i * 2, 2);
      assert all[..i + 1] == all[..i] + [digit];
      if i > 0 {
        DigitStep(all[..i], digit, i - 1);
      } else {
        assert all[..1] == [digit];
        SumOne(digit);
      }
      result := (result * BASE + digit) % WRAP;
      i := i + 1;
    }
    if ndigits > 0 { assert all[..ndigits] == all; }
  }

  /** The length a column is built with is a 32-bit int. */
  const MAX_LENGTH: nat := 0x7fff_ffff

  method AsUint64(col: Column) returns (r: Option<u64>)
    requires |col.data| <= MAX_LENGTH
    ensures r == ReadUint64(col)
  {
    if col.isNull {
      return None;
    }
    if col.oid != OID_NUMERIC || |col.data| < 8 {
      return None;
    }
    var count := ReadBigEndian(col.data, 0, 2);
    var ndigits := Signed(count, 2);
    var power := ReadBigEndian(col.data, 2, 2);
    var weight := Signed(power, 2);
    var sign := ReadBigEndian(col.data, 4, 2);
    if sign != 0 {
      return None;
    }
    if ndigits == 0 {
      return Some(0);
    }
    BigValueBound(col.data[0..2]);
    Widths();
    var needed := 8 + ndigits * 2;
    if |col.data| < (if needed < 0 then WRAP + needed else needed) {
      return None;
    }
    var result := ReadDigits(col.data, ndigits);
    var trailing := weight - (ndigits - 1);
    var t := 0;
    while t < trailing
      invariant 0 <= t && (trailing < 0 ==> t == 0) && (trailing >= 0 ==> t <= trailing)
      invariant ndigits < 0 ==> result == 0
      invariant ndigits > 0 ==> result == SumAt(Digits(col.data, ndigits), ndigits - 1 + t) % WRAP
    {
      if ndigits > 0 {
        ScaleStep(Digits(col.data, ndigits), ndigits - 1 + t);
      }
      result := (result * BASE) % WRAP;
      t := t + 1;
    }
    r := Some(result);
  }

  /** A well-formed message of a whole number reads as exactly that number if and only if it fits in
      64 bits. */
  lemma ReadExactIff(data: seq<byte>)
    requires |data| >= 8 && BigValue(data[4..6]) == 0 && DigitCount(data) > 0
    requires 8 + 2 * DigitCount(data) <= |data| && Weight(data) >= DigitCount(data) - 1
    ensures
      var value := SumAt(Digits(data, DigitCount(data)), Weight(data));
      ReadUint64(Column(false, OID_NUMERIC, data)) == Some(value) <==> value < WRAP
  {
    hide SumAt, BigValue;
    var value := SumAt(Digits(data, DigitCount(data)), Weight(data));
    if value < WRAP { SmallPattern(value, WRAP); }
  }

  /** What a message says, field by field: the count, the weight, a zero sign, a scale that is not
      looked at, and the groups, each of two bytes. */
  lemma WireMeaning(data: seq<byte>, n: nat, w: nat, ds: seq<nat>)
    requires 0 < n < 0x8000 && n - 1 <= w < 0x8000 && |data| >= 8 + 2 * n
    requires BigValue(data[0..2]) == n && BigValue(data[2..4]) == w && BigValue(data[4..6]) == 0
    requires |ds| == n && forall i | 0 <= i < n :: ds[i] == BigValue(data[8 + 2 * i..10 + 2 * i])
    ensures ReadUint64(Column(false, 1700, data)) == Some(SumAt(ds, w) % 0x1_0000_0000_0000_0000)
  {
    hide SumAt, BigValue;
    Widths();
    assert Digits(data, n) == ds;
  }

  /** What is refused, and what reads as zero: a null or another type, a short header, a sign, a count
      above 32767 that is not one of the last four, and too few bytes for the groups. */
  lemma WireRefused(col: Column)
    ensures ReadUint64(col) == None <==>
      || col.isNull || col.oid != 1700 || |col.data| < 8 || BigValue(col.data[4..6]) != 0
      || 0x8000 <= BigValue(col.data[0..2]) < 0xfffc
      || (BigValue(col.data[0..2]) < 0x8000 && |col.data| < 8 + 2 * BigValue(col.data[0..2]))
    ensures
      (&& !col.isNull && col.oid == 1700 && |col.data| >= 8 && BigValue(col.data[4..6]) == 0
       && (BigValue(col.data[0..2]) == 0 || BigValue(col.data[0..2]) >= 0xfffc))
      ==> ReadUint64(col) == Some(0)
  {
    hide SumAt, BigValue;
    Widths();
    if |col.data| >= 8 { BigValueBound(col.data[0..2]); }
  }

  /** A single group counts its power of ten thousand; zero is sent as the bytes 8 and 0. */
  lemma PlaceValue(d: nat, weight: nat)
    ensures SumAt([d], weight) == d * Pow(10000, weight) && Encoded(0) == [8, 0]
  {
  }

  // ---- The pair ----

  lemma {:induction false} GroupsBound(v: nat, k: nat)
    requires v < Pow(BASE, k)
    ensures |Groups(v)| <= k
  {
    if v > 0 { GroupsBound(v / BASE, k - 1); }
  }

  /** A 64-bit value has at most five groups, so the header's 16-bit fields hold its counts. */
  lemma GroupCount(v: u64)
    requires v > 0
    ensures 1 <= |Groups(v)| <= 5
  {
    assert Pow(BASE, 5) == BASE * BASE * BASE * BASE * BASE by {
      assert Pow(BASE, 3) == BASE * (BASE * (BASE * 1));
      PowAdd(BASE, 2, 3);
    }
    GroupsBound(v, 5);
  }

  lemma {:induction false} GroupsSum(v: nat)
    requires v > 0
    ensures SumAt(Groups(v), |Groups(v)| - 1) == v
  {
    var ds := Groups(v / BASE);
    if ds == [] {
      assert Groups(v) == [v];
      SumOne(v);
    } else {
      GroupsSum(v / BASE);
      SumSnoc(ds, v % BASE, |ds| - 1);
    }
  }

  lemma {:induction false} GroupsSmall(v: nat)
    ensures forall d <- Groups(v) :: d < BASE
  {
    if v > 0 { GroupsSmall(v / BASE); }
  }

  lemma {:induction false} SumZero(ds: seq<nat>, weight: nat)
    requires |ds| <= weight
    ensures SumAt(ds + [0], weight) == SumAt(ds, weight)
  {
    var all := ds + [0];
    if |ds| > 0 {
      assert all[1..] == ds[1..] + [0];
      SumZero(ds[1..], weight - 1);
    }
  }

  lemma {:induction false} DropZerosSum(ds: seq<nat>, weight: nat)
    requires |ds| <= weight + 1
    ensures DropZeros(ds) <= ds && (ds != [] ==> DropZeros(ds) != [])
    ensures SumAt(DropZeros(ds), weight) == SumAt(ds, weight)
    decreases |ds|
  {
    if |ds| > 1 && ds[|ds| - 1] == 0 {
      var init := ds[..|ds| - 1];
      assert ds == init + [0];
      SumZero(init, weight);
      DropZerosSum(init, weight);
    }
  }

  lemma {:induction false} EncodeDigitsAt(ds: seq<nat>, i: nat)
    requires i < |ds|
    ensures EncodeDigits(ds)[2 * i..2 * i + 2] == EncodeFixed(ds[i], 2)
    decreases |ds|
  {
    if i < |ds| - 1 {
      EncodeDigitsAt(ds[..|ds| - 1], i);
    }
  }

  lemma {:induction false} MessageFields(ds: seq<nat>, weight: int)
    requires 0 < |ds| < 0x8000 && 0 <= weight < 0x8000 && forall d <- ds :: d < BASE
    ensures
      var m := Message(ds, weight);
      && |m| == 8 + 2 * |ds| && DigitCount(m) == |ds| && Weight(m) == weight
      && BigValue(m[0..2]) == |ds| && BigValue(m[2..4]) == weight && BigValue(m[4..6]) == 0 && BigValue(m[6..8]) == 0
      && Digits(m, |ds|) == ds && forall i | 0 <= i < |ds| :: BigValue(m[8 + 2 * i..10 + 2 * i]) == ds[i]
  {
    hide EncodeFixed, EncodeDigits, BigValue;
    var m := Message(ds, weight);
    Widths();
    assert m[0..2] == EncodeFixed(|ds|, 2) && m[2..4] == EncodeFixed(weight, 2);
    assert m[4..6] == EncodeFixed(0, 2) == m[6..8];
    EncodeFixedValue(|ds|, 2);
    EncodeFixedValue(weight, 2);
    SmallPattern(|ds|, 0x1_0000);
    SmallPattern(weight, 0x1_0000);
    SignedRoundTrip(|ds|, 2);
    SignedRoundTrip(weight, 2);
    EncodeFixedValue(0, 2);
    forall i | 0 <= i < |ds| ensures Digits(m, |ds|)[i] == ds[i] {
      assert ds[i] in ds;
      MessageDigit(ds, weight, i);
    }
  }

  lemma MessageDigit(ds: seq<nat>, weight: int, i: nat)
    requires i < |ds| && ds[i] < BASE
    ensures BigValue(Message(ds, weight)[8 + 2 * i..10 + 2 * i]) == ds[i]
  {
    hide EncodeFixed, EncodeDigits, BigValue;
    Widths();
    EncodeDigitsAt(ds, i);
    assert Message(ds, weight)[8 + 2 * i..10 + 2 * i] == EncodeDigits(ds)[2 * i..2 * i + 2];
    EncodeFixedValue(ds[i], 2);
    SmallPattern(ds[i], Pow(256, 2));
  }

  lemma {:induction false} EncodedFields(v: u64)
    requires v > 0
    ensures
      var ds, weight := DropZeros(Groups(v)), |Groups(v)| - 1;
      && Encoded(v) == Message(ds, weight) && 0 < |ds| <= weight + 1 <= 5
      && SumAt(ds, weight) == v
  {
    hide Groups, DropZeros, SumAt, Message;
    GroupCount(v);
    GroupsSum(v);
    DropZerosSum(Groups(v), |Groups(v)| - 1);
  }

  /** What the encoder makes of a value is read as that value. */
  predicate RoundTrips(v: u64) { ReadUint64(Column(false, 1700, Encoded(v))) == Some(v) }

  /** Decoding an encoded value gives it back exactly when it is not zero. */
  lemma {:induction false} NumericRoundTripIff(v: u64)
    ensures RoundTrips(v) <==> v != 0
  {
    if v != 0 {
      var ds, weight := DropZeros(Groups(v)), |Groups(v)| - 1;
      EncodedFields(v);
      GroupsSmall(v);
      DropZerosSum(Groups(v), weight);
      assert forall d <- ds :: d in Groups(v);
      MessageFields(ds, weight);
      SmallPattern(v, WRAP);
    }
  }

  lemma {:induction false} SumMonotone(ds: seq<nat>, k: nat, weight: nat)
    requires k <= |ds| <= weight + 1
    ensures SumAt(ds[..k], weight) <= SumAt(ds, weight)
  {
    if k > 0 {
      assert ds[..k][1..] == ds[1..][..k - 1];
      if |ds| > 1 { SumMonotone(ds[1..], k - 1, weight - 1); }
    }
  }

  lemma {:induction false} SumLowered(ds: seq<nat>, low: nat, weight: nat)
    requires |ds| <= low + 1 && low <= weight
    ensures SumAt(ds, low) <= SumAt(ds, weight)
    decreases weight
  {
    if low < weight {
      SumShift(ds, weight - 1);
      SumLowered(ds, low, weight - 1);
    }
  }

  /** While an encoded value is decoded nothing wraps: no partial sum of the digit loop and no
      partial product of the scaling loop exceeds the value. */
  lemma {:induction false} NothingWraps(v: u64, k: nat, weight: nat)
    requires v > 0
    requires 0 < k <= |DropZeros(Groups(v))| && k <= weight + 1 <= |Groups(v)|
    ensures SumAt(DropZeros(Groups(v))[..k], weight) <= v
  {
    hide Groups, DropZeros, SumAt, Encoded;
    var ds, top := DropZeros(Groups(v)), |Groups(v)| - 1;
    EncodedFields(v);
    SumLowered(ds[..k], weight, top);
    SumMonotone(ds, k, top);
  }
}
