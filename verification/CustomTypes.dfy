/** The 256-bit unsigned integer carried as 32 big-endian bytes. */
module CustomTypes {
  import opened Common

  const BIGINT_BYTES: nat := 32

  /** What a caller may hand to the encoder. A string carries the integer that
      Python's own parsing finds in it, if any. */
  datatype PyValue =
    | PyBool(b: bool)
    | PyInt(i: int)
    | PyStr(parsed: Option<int>)
    | PyFloat(r: real)
    | PyNonFinite
    | PyOther

  datatype Result<+T> = Ok(value: T) | ValueError

  function Pow256(n: nat): (p: nat)
    ensures p > 0
  {
    if n == 0 then 1 else 256 * Pow256(n - 1)
  }

  const BIGINT_MAX: int := Pow256(BIGINT_BYTES) - 1

  const MAX_SAFE_FLOAT_INT: int := 9007199254740991

  /** The integer a value stands for, or None where it is refused as such. */
  function IntegerOf(v: PyValue): Option<int> {
    match v
    case PyBool(_) => None
    case PyStr(parsed) => parsed
    case PyFloat(r) =>
      if r.Floor as real != r then None
      else if r.Floor > MAX_SAFE_FLOAT_INT || r.Floor < -MAX_SAFE_FLOAT_INT then None
      else Some(r.Floor)
    case PyInt(i) => Some(i)
    case PyNonFinite => None
    case PyOther => None
  }

  /** Big-endian digits in a fixed width. */
  function ToBytes(value: nat, width: nat): (bytes: Bytes)
    ensures |bytes| == width
  {
    if width == 0 then [] else ToBytes(value / 256, width - 1) + [(value % 256) as byte]
  }

  function FromBytes(bytes: Bytes): nat {
    if bytes == [] then 0
    else FromBytes(bytes[..|bytes| - 1]) * 256 + bytes[|bytes| - 1] as nat
  }

  function BigintToBytes(v: PyValue): Result<Bytes> {
    var value := IntegerOf(v);
    if value == None || value.value < 0 || value.value > BIGINT_MAX then ValueError
    else Ok(ToBytes(value.value, BIGINT_BYTES))
  }

  function BytesToBigint(data: Bytes): Result<int> {
    if |data| > BIGINT_BYTES then ValueError else Ok(FromBytes(data))
  }

  lemma {:induction false} FromBytesBound(bytes: Bytes)
    ensures FromBytes(bytes) < Pow256(|bytes|)
  {
    if bytes != [] { FromBytesBound(bytes[..|bytes| - 1]); }
  }

  lemma {:induction false} FromTo(value: nat, width: nat)
    requires value < Pow256(width)
    ensures FromBytes(ToBytes(value, width)) == value
  {
    if width > 0 {
      FromTo(value / 256, width - 1);
      var bytes := ToBytes(value, width);
      assert bytes[..width - 1] == ToBytes(value / 256, width - 1);
    }
  }

  function Zeros(n: nat): (z: Bytes)
    ensures |z| == n
  {
    if n == 0 then [] else Zeros(n - 1) + [0]
  }

  lemma {:induction false} ZeroDigits(width: nat)
    ensures ToBytes(0, width) == Zeros(width)
  {
    if width > 0 { ZeroDigits(width - 1); }
  }

  lemma {:induction false} ToFrom(bytes: Bytes, width: nat)
    requires |bytes| <= width
    ensures ToBytes(FromBytes(bytes), width) == Zeros(width - |bytes|) + bytes
  {
    if bytes == [] {
      ZeroDigits(width);
    } else {
      var init, last := bytes[..|bytes| - 1], bytes[|bytes| - 1];
      ToFrom(init, width - 1);
      assert FromBytes(bytes) / 256 == FromBytes(init) && FromBytes(bytes) % 256 == last as nat;
      assert Zeros(width - |bytes|) + bytes == Zeros(width - |bytes|) + init + [last];
    }
  }

  /** Encoding then decoding is the identity on the whole range, and exactly the
      integers outside it, with everything that is not an integer, are refused. */
  lemma EncodeDecode(v: PyValue)
    ensures BigintToBytes(v).Ok? <==> IntegerOf(v).Some? && 0 <= IntegerOf(v).value <= BIGINT_MAX
    ensures BigintToBytes(v).Ok? ==>
              |BigintToBytes(v).value| == BIGINT_BYTES
              && BytesToBigint(BigintToBytes(v).value) == Ok(IntegerOf(v).value)
  {
    if BigintToBytes(v).Ok? { FromTo(IntegerOf(v).value, BIGINT_BYTES); }
  }

  /** Decoding accepts exactly what fits the width, and encoding the result pads the
      input with zeros on the left. */
  lemma DecodeEncode(data: Bytes)
    ensures BytesToBigint(data).Ok? <==> |data| <= BIGINT_BYTES
    ensures BytesToBigint(data).Ok? ==>
              BigintToBytes(PyInt(BytesToBigint(data).value)) == Ok(Zeros(BIGINT_BYTES - |data|) + data)
  {
    if |data| <= BIGINT_BYTES {
      FromBytesBound(data);
      PowMonotone(|data|, BIGINT_BYTES);
      ToFrom(data, BIGINT_BYTES);
    }
  }

  lemma {:induction false} PowMonotone(m: nat, n: nat)
    requires m <= n
    ensures Pow256(m) <= Pow256(n)
  {
    if m < n { PowMonotone(m, n - 1); }
  }

  /** Bytewise lexicographic order of equally long strings. */
  predicate Before(a: Bytes, b: Bytes)
    requires |a| == |b|
  {
    a != [] && (a[0] < b[0] || (a[0] == b[0] && Before(a[1..], b[1..])))
  }

  /** The most significant byte weighs more than all the others together. */
  lemma {:induction false} FromBytesHead(bytes: Bytes)
    requires bytes != []
    ensures FromBytes(bytes) == bytes[0] as nat * Pow256(|bytes| - 1) + FromBytes(bytes[1..])
  {
    if |bytes| > 1 {
      var init := bytes[..|bytes| - 1];
      FromBytesHead(init);
      assert bytes[1..][..|bytes| - 2] == init[1..];
      assert bytes[0] as nat * (256 * Pow256(|bytes| - 2)) == 256 * (bytes[0] as nat * Pow256(|bytes| - 2));
    } else {
      assert bytes[..0] == [] && bytes[1..] == [];
    }
  }

  lemma LeadingDecides(x: nat, y: nat, p: nat, low: nat, other: nat)
    requires x < y && low < p
    ensures x * p + low < y * p + other
  {
    assert (x + 1) * p <= y * p;
    assert (x + 1) * p == x * p + p;
  }

  lemma {:induction false} OrderIsValue(a: Bytes, b: Bytes)
    requires |a| == |b|
    ensures Before(a, b) <==> FromBytes(a) < FromBytes(b)
  {
    if a != [] {
      FromBytesHead(a);
      FromBytesHead(b);
      FromBytesBound(a[1..]);
      FromBytesBound(b[1..]);
      var p, low, other := Pow256(|a| - 1), FromBytes(a[1..]), FromBytes(b[1..]);
      if a[0] < b[0] {
        LeadingDecides(a[0] as nat, b[0] as nat, p, low, other);
      } else if b[0] < a[0] {
        LeadingDecides(b[0] as nat, a[0] as nat, p, other, low);
      } else {
        OrderIsValue(a[1..], b[1..]);
      }
    }
  }

  /** Encoding is strictly monotone, both ways, into lexicographic order: encoded
      amounts sort as the amounts do. */
  lemma EncodingKeepsOrder(x: int, y: int)
    requires 0 <= x <= BIGINT_MAX && 0 <= y <= BIGINT_MAX
    ensures x < y <==> Before(BigintToBytes(PyInt(x)).value, BigintToBytes(PyInt(y)).value)
  {
    FromTo(x, BIGINT_BYTES);
    FromTo(y, BIGINT_BYTES);
    OrderIsValue(ToBytes(x, BIGINT_BYTES), ToBytes(y, BIGINT_BYTES));
  }
}
