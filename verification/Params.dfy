/** Query parameters and result columns: how C++ integers and time points are widened, sent in
    binary, and read back from columns of the matching type. */
module Params {
  import opened Bytes
  import opened Numeric
  import opened Wrappers

  datatype CppInt = I8 | I16 | I32 | I64 | U8 | U16 | U32 | U64
  {
    function Size(): nat {
      match this
      case I8 => 1 case U8 => 1 case I16 => 2 case U16 => 2
      case I32 => 4 case U32 => 4 case I64 => 8 case U64 => 8
    }

    predicate IsSigned() { I8? || I16? || I32? || I64? }

    predicate Holds(x: int) {
      if IsSigned() then FitsSigned(x, Size()) else 0 <= x < Pow(256, Size())
    }
  }

  /** The integer and time alternatives of a parameter; the time is nanoseconds since the epoch. */
  datatype Param = Int16(x: int) | Int32(x: int) | Int64(x: int) | Uint64(v: u64) | Timestamp(ns: int)

  /** Unsigned types go to the next wider signed one; only 64-bit unsigned is kept. */
  function NormalizeIntegral(t: CppInt, x: int): Param
    requires t.Holds(x)
  {
    Widths();
    if t.IsSigned() then
      if t.Size() <= 2 then Int16(x) else if t.Size() <= 4 then Int32(x) else Int64(x)
    else
      if t.Size() == 1 then Int16(x)
      else if t.Size() == 2 then Int32(x)
      else if t.Size() == 4 then Int64(x)
      else Uint64(x)
  }

  const PG_EPOCH_US: int := 946684800 * 1000000

  /** Division rounding toward zero, as the host language divides. */
  function Quotient(a: int, b: nat): int
    requires b > 0
  {
    if a < 0 then -(-a / b) else a / b
  }

  function ToBinary(p: Param): seq<byte> {
    match p
    case Int16(x) => EncodeFixed(x, 2)
    case Int32(x) => EncodeFixed(x, 4)
    case Int64(x) => EncodeFixed(x, 8)
    case Uint64(v) => Encoded(v)
    case Timestamp(ns) => EncodeFixed(Quotient(ns, 1000) - PG_EPOCH_US, 8)
  }

  const OID_INT8: nat := 20
  const OID_INT2: nat := 21
  const OID_INT4: nat := 23
  const OID_TIMESTAMP: nat := 1114
  const OID_TIMESTAMPTZ: nat := 1184

  /** The column a parameter comes back in, stored under the type it was sent as. */
  function Stored(p: Param): Column {
    Column(false,
           match p case Int16(_) => OID_INT2 case Int32(_) => OID_INT4 case Int64(_) => OID_INT8
                   case Uint64(_) => OID_NUMERIC case Timestamp(_) => OID_TIMESTAMP,
           ToBinary(p))
  }

  function ReadSigned(data: seq<byte>): int { Signed(BigValue(data), |data|) }

  function AsInt16(col: Column): Option<int> {
    if !col.isNull && col.oid == OID_INT2 && |col.data| == 2 then Some(ReadSigned(col.data)) else None
  }

  function AsInt32(col: Column): Option<int> {
    if col.isNull then None
    else if col.oid == OID_INT4 && |col.data| == 4 then Some(ReadSigned(col.data))
    else if col.oid == OID_INT2 && |col.data| == 2 then Some(ReadSigned(col.data))
    else None
  }

  function AsInt64(col: Column): Option<int> {
    if col.isNull then None
    else if col.oid == OID_INT8 && |col.data| == 8 then Some(ReadSigned(col.data))
    else if col.oid == OID_INT4 && |col.data| == 4 then Some(ReadSigned(col.data))
    else if col.oid == OID_INT2 && |col.data| == 2 then Some(ReadSigned(col.data))
    else None
  }

  /** Unsigned reads cast the wider signed value down, keeping its low bits. */
  function AsUint16(col: Column): Option<int> {
    if !col.isNull && col.oid == OID_INT4 && |col.data| == 4 then Some(Pattern(ReadSigned(col.data), 2)) else None
  }

  function AsUint32(col: Column): Option<int> {
    if !col.isNull && col.oid == OID_INT8 && |col.data| == 8 then Some(Pattern(ReadSigned(col.data), 4)) else None
  }

  function AsTimestamp(col: Column): Option<int> {
    if !col.isNull && (col.oid == OID_TIMESTAMP || col.oid == OID_TIMESTAMPTZ) && |col.data| == 8
    then Some((ReadSigned(col.data) + PG_EPOCH_US) * 1000)
    else None
  }

  /** Reading column col as type t; 8-bit types have no reader. */
  function ReadAs(t: CppInt, col: Column): Option<int> {
    match t
    case I16 => AsInt16(col)
    case I32 => AsInt32(col)
    case I64 => AsInt64(col)
    case U16 => AsUint16(col)
    case U32 => AsUint32(col)
    case U64 => (match ReadUint64(col) case Some(v) => Some(v) case None => None)
    case _ => None
  }

  /** The stored width of a normalised integer; 64-bit unsigned is not stored as a fixed width. */
  function StoredSize(t: CppInt): nat {
    if t.IsSigned() then Max(t.Size(), 2) else 2 * t.Size()
  }

  lemma StoredFits(t: CppInt, x: int)
    requires t.Holds(x) && t != U64
    ensures FitsSigned(x, StoredSize(t))
    ensures ReadSigned(ToBinary(NormalizeIntegral(t, x))) == x
    ensures |ToBinary(NormalizeIntegral(t, x))| == StoredSize(t)
  {
    Widths();
    SignedRoundTrip(x, StoredSize(t));
  }

  /** Every integer type reads back what it sent; 64-bit unsigned does except at zero, and the
      8-bit types have no reader of their own. */
  lemma IntegerRoundTripIff(t: CppInt, x: int)
    requires t.Holds(x)
    ensures ReadAs(t, Stored(NormalizeIntegral(t, x))) == Some(x) <==> t.Size() > 1 && !(t == U64 && x == 0)
  {
    Widths();
    if t == U64 {
      NumericRoundTripIff(x);
    } else {
      StoredFits(t, x);
      if t == U16 { SmallPattern(x, Pow(256, 2)); }
      if t == U32 { SmallPattern(x, Pow(256, 4)); }
    }
  }

  /** A signed read of any stored integer preserves its value when it is wide enough, and refuses otherwise. */
  lemma SignedReadIff(t: CppInt, x: int, wide: CppInt)
    requires t.Holds(x) && t != U64 && wide.IsSigned() && wide != I8
    ensures ReadAs(wide, Stored(NormalizeIntegral(t, x))) == if StoredSize(t) <= wide.Size() then Some(x) else None
  {
    StoredFits(t, x);
  }

  lemma QuotientBounds(a: int)
    ensures var q := Quotient(a, 1000);
            if a < 0 then a <= q * 1000 < a + 1000 else a - 1000 < q * 1000 <= a
    ensures Quotient(a, 1000) * 1000 == a <==> a % 1000 == 0
  {
  }

  lemma MicrosFit(ns: int, us: int)
    requires FitsSigned(ns, 8) && -1 - PG_EPOCH_US - Abs(ns) / 1000 <= us <= 1 + Abs(ns) / 1000
    ensures FitsSigned(us, 8)
  {
    Widths();
  }

  function Abs(x: int): nat { if x < 0 then -x else x }

  lemma WholeMicros(us: int)
    ensures Quotient(us * 1000, 1000) == us
  {
  }

  /** A time point goes over the wire as the microseconds since 2000-01-01 00:00:00 UTC, which is
      946684800 seconds after the host's epoch, and is read as such. */
  lemma TimestampWire(k: int)
    requires FitsSigned(k, 8)
    ensures BigValue(ToBinary(Timestamp((946684800000000 + k) * 1000))) == k % 0x1_0000_0000_0000_0000
    ensures AsTimestamp(Column(false, 1114, EncodeFixed(k, 8))) == Some((946684800000000 + k) * 1000)
    ensures AsTimestamp(Column(false, 1184, EncodeFixed(k, 8))) == Some((946684800000000 + k) * 1000)
  {
    hide EncodeFixed, BigValue, Quotient;
    Widths();
    WholeMicros(946684800000000 + k);
    EncodeFixedValue(k, 8);
    SignedRoundTrip(k, 8);
  }

  /** The integers on the wire: their type numbers, widths and bytes, and who reads them as what. */
  lemma IntegerWire(x: int, w: nat)
    requires w in {2, 4, 8} && FitsSigned(x, w)
    ensures
      var data := EncodeFixed(x, w);
      var col := Column(false, if w == 2 then 21 else if w == 4 then 23 else 20, data);
      && |data| == w && col == Stored(if w == 2 then Int16(x) else if w == 4 then Int32(x) else Int64(x))
      && BigValue(data) == x % (if w == 2 then 0x1_0000 else if w == 4 then 0x1_0000_0000 else 0x1_0000_0000_0000_0000)
      && AsInt16(col) == (if w == 2 then Some(x) else None)
      && AsInt32(col) == (if w <= 4 then Some(x) else None)
      && AsInt64(col) == Some(x)
      && AsUint16(col) == (if w == 4 then Some(x % 0x1_0000) else None)
      && AsUint32(col) == (if w == 8 then Some(x % 0x1_0000_0000) else None)
  {
    hide EncodeFixed, BigValue;
    Widths();
    EncodeFixedValue(x, w);
    SignedRoundTrip(x, w);
  }

  /** The width and type number each C++ type is stored under. */
  lemma StoredAs(t: CppInt, x: int)
    requires t.Holds(x)
    ensures
      var col := Stored(NormalizeIntegral(t, x));
      match t
      case I8 => col.oid == 21 && |col.data| == 2
      case U8 => col.oid == 21 && |col.data| == 2
      case I16 => col.oid == 21 && |col.data| == 2
      case U16 => col.oid == 23 && |col.data| == 4
      case I32 => col.oid == 23 && |col.data| == 4
      case U32 => col.oid == 20 && |col.data| == 8
      case I64 => col.oid == 20 && |col.data| == 8
      case U64 => col.oid == 1700
  {
  }

  /** No reader takes a null, another type or another width. */
  lemma OthersRefused(col: Column)
    ensures AsInt16(col).Some? <==> !col.isNull && (col.oid, |col.data|) == (21, 2)
    ensures AsInt32(col).Some? <==> !col.isNull && (col.oid, |col.data|) in {(21, 2), (23, 4)}
    ensures AsInt64(col).Some? <==> !col.isNull && (col.oid, |col.data|) in {(21, 2), (23, 4), (20, 8)}
    ensures AsUint16(col).Some? <==> !col.isNull && (col.oid, |col.data|) == (23, 4)
    ensures AsUint32(col).Some? <==> !col.isNull && (col.oid, |col.data|) == (20, 8)
    ensures AsTimestamp(col).Some? <==> !col.isNull && col.oid in {1114, 1184} && |col.data| == 8
  {
  }

  /** Every 64-bit nanosecond time point comes back with its sub-microsecond part cut off toward zero. */
  lemma TimestampRoundTrip(ns: int)
    requires FitsSigned(ns, 8)
    ensures AsTimestamp(Stored(Timestamp(ns))) == Some(Quotient(ns, 1000) * 1000)
    ensures Quotient(ns, 1000) * 1000 == ns <==> ns % 1000 == 0
  {
    hide EncodeFixed, BigValue, Signed, Quotient, FitsSigned;
    QuotientBounds(ns);
    MicrosFit(ns, Quotient(ns, 1000) - PG_EPOCH_US);
    SignedRoundTrip(Quotient(ns, 1000) - PG_EPOCH_US, 8);
  }
}
