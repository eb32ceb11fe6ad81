/** Fixed-width integers of the firmware and the client, written out over
    unbounded `int`, with the conversions the source performs implicitly
    (truncating casts, two's-complement reinterpretation, big-endian packing). */
module Bytes {

  type Byte = b: int | 0 <= b < 0x100
  type Int8 = x: int | -0x80 <= x < 0x80
  type Int16 = x: int | -0x8000 <= x < 0x8000
  type UInt16 = x: int | 0 <= x < 0x1_0000
  type UInt32 = x: int | 0 <= x < 0x1_0000_0000
  type UInt64 = x: int | 0 <= x < 0x1_0000_0000_0000_0000

  const UInt32Max: int := 0xFFFF_FFFF

  datatype Option<T> = None | Some(value: T)

  /** std::clamp(x, lo, hi) */
  function Clamp(x: int, lo: int, hi: int): (r: int)
    requires lo <= hi
    ensures lo <= r <= hi
    ensures lo <= x <= hi ==> r == x
    ensures x < lo ==> r == lo
    ensures hi < x ==> r == hi
  {
    if x < lo then lo else if hi < x then hi else x
  }

  /** `(uint8_t)x`: the low eight bits of the two's-complement pattern of x. */
  function LowByte(x: int): Byte {
    x % 0x100
  }

  /** `(uint8_t)((x >> 8) & 0xFF)` with an arithmetic right shift. */
  function HighByte(x: int): Byte {
    (x / 0x100) % 0x100
  }

  /** `(uint16_t)x`: wraps a value of any sign into 0..65535. */
  function AsUInt16(x: int): UInt16 {
    x % 0x1_0000
  }

  /** `(hi << 8) | lo` */
  function BigEndian16(hi: Byte, lo: Byte): (r: UInt16)
    ensures HighByte(r) == hi && LowByte(r) == lo
  {
    hi * 0x100 + lo
  }

  /** `int16_t` reinterpretation of a 16-bit pattern (Int16(bitPattern:) in Swift). */
  function AsInt16(u: UInt16): Int16 {
    if u < 0x8000 then u else u - 0x1_0000
  }

  /** `int8_t` reinterpretation of a byte (Int8(bitPattern:) in Swift). */
  function AsInt8(b: Byte): Int8 {
    if b < 0x80 then b else b - 0x100
  }

  /** Two big-endian bytes of a 16-bit signed value, high byte first. */
  function EncodeInt16(v: Int16): (r: seq<Byte>)
    ensures |r| == 2
  {
    [HighByte(v), LowByte(v)]
  }

  /** Reinterpreting as two's complement keeps both bytes of a 16-bit value. */
  lemma AsInt16Bytes(u: UInt16)
    ensures HighByte(AsInt16(u)) == HighByte(u) && LowByte(AsInt16(u)) == LowByte(u)
  {
    if u >= 0x8000 {
      assert AsInt16(u) == (u / 0x100 - 0x100) * 0x100 + u % 0x100;
    }
  }

  /** Reinterpreting as two's complement keeps the byte of an 8-bit value. */
  lemma AsInt8Byte(b: Byte)
    ensures LowByte(AsInt8(b)) == b
  {
  }

  /** Decoding the big-endian pair as a signed 16-bit value gives back v. */
  lemma Int16RoundTrip(v: Int16)
    ensures AsInt16(BigEndian16(HighByte(v), LowByte(v))) == v
  {
    var q, m := v / 0x100, v % 0x100;
    assert v == q * 0x100 + m;
    if v >= 0 {
      assert 0 <= q < 0x80;
      assert HighByte(v) == q;
    } else {
      assert -0x80 <= q < 0;
      assert HighByte(v) == q + 0x100;
      assert BigEndian16(HighByte(v), LowByte(v)) == v + 0x1_0000;
    }
  }

  /** Reinterpreting the byte pattern of an Int8 gives the value back:
      `UInt8(bitPattern:)` followed by `(int8_t)` is the identity. */
  lemma Int8RoundTrip(s: Int8)
    ensures AsInt8(LowByte(s)) == s
  {
  }

  /** C/C++ integer division, which truncates toward zero (Dafny's `/` floors
      for b > 0): the remainder `a - r * b` has the sign of the dividend and
      is smaller than the divisor in magnitude. */
  function TruncDiv(a: int, b: int): (r: int)
    requires b > 0
    ensures a >= 0 ==> 0 <= a - r * b < b
    ensures a < 0 ==> -b < a - r * b <= 0
  {
    if a >= 0 then a / b else -((-a) / b)
  }

  /** Sum of a byte sequence, over unbounded integers. */
  function Sum(s: seq<Byte>): nat
  {
    if s == [] then 0 else s[0] + Sum(s[1..])
  }

  lemma {:induction false} SumAppend(a: seq<Byte>, b: seq<Byte>)
    ensures Sum(a + b) == Sum(a) + Sum(b)
  {
    if a == [] {
      assert a + b == b;
    } else {
      assert (a + b)[1..] == a[1..] + b;
      SumAppend(a[1..], b);
    }
  }

  /** The step of a loop that accumulates the sum from the left. */
  lemma SumPrefix(s: seq<Byte>, i: nat)
    requires i < |s|
    ensures Sum(s[..i + 1]) == Sum(s[..i]) + s[i]
  {
    assert s[..i + 1] == s[..i] + [s[i]];
    SumAppend(s[..i], [s[i]]);
  }

  lemma {:induction false} SumBound(s: seq<Byte>)
    ensures Sum(s) <= 0xFF * |s|
  {
    if s != [] {
      SumBound(s[1..]);
    }
  }

  /** `(b & mask) != 0` */
  function AnyBit(b: Byte, mask: Byte): bool {
    (b as bv8) & (mask as bv8) != 0
  }
}
