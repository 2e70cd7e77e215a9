/**
 * Integer conventions of the engine: C++ truncating division, the
 * narrowing casts to signed and unsigned bytes, and the optional value the
 * placement routines return.
 */
module Common {

  datatype Option<T> = None | Some(value: T)

  /** `money32` value the engine uses for "no cost / failed". */
  const MONEY32_UNDEFINED: int := -0x8000_0000

  /** C++ `/` on `int32_t`: the quotient is truncated toward zero. */
  function TDiv(a: int, b: int): (q: int)
    requires b > 0
    ensures a >= 0 ==> 0 <= a - q * b < b
    ensures a < 0 ==> -b < a - q * b <= 0
    ensures a >= 0 ==> q >= 0
    ensures a <= 0 ==> q <= 0
  {
    if a >= 0 then a / b else -((-a) / b)
  }

  /** An exact multiple of a tile or height step divides back to its factor whatever its sign. */
  lemma TDivExact(k: int)
    ensures TDiv(k * 32, 32) == k
    ensures TDiv(k * 8, 8) == k
  {
  }

  /** `static_cast<int8_t>`: keep the low 8 bits as a two's-complement value. */
  function Int8(v: int): (r: int)
    ensures -128 <= r < 128
    ensures (v - r) % 256 == 0
    ensures -128 <= v < 128 ==> r == v
  {
    var m := v % 256;
    if m >= 128 then m - 256 else m
  }

  /** `static_cast<uint8_t>`: keep the low 8 bits as an unsigned value. */
  function Uint8(v: int): (r: int)
    ensures 0 <= r < 256
    ensures (v - r) % 256 == 0
    ensures 0 <= v < 256 ==> r == v
  {
    v % 256
  }

  /** `static_cast<int16_t>`: keep the low 16 bits as a two's-complement value. */
  function Int16(v: int): (r: int)
    ensures -0x8000 <= r < 0x8000
    ensures (v - r) % 0x1_0000 == 0
    ensures -0x8000 <= v < 0x8000 ==> r == v
  {
    var m := v % 0x1_0000;
    if m >= 0x8000 then m - 0x1_0000 else m
  }

  /** Signed bytes, the type of the relative coordinates in a design record. */
  type Int8Value = i: int | -128 <= i < 128

  /** Signed 16-bit values, the type of entrance offsets in a design record. */
  type Int16Value = i: int | -0x8000 <= i < 0x8000

  /** Two values that agree modulo 256 cast to the same signed byte. */
  lemma Int8Congruent(a: int, b: int)
    requires (a - b) % 256 == 0
    ensures Int8(a) == Int8(b)
  {
    assert a % 256 == b % 256 by {
      var k := (a - b) / 256;
      assert a == b + 256 * k;
    }
  }

  /** Negating a signed byte and casting back is an involution. */
  lemma Int8NegateTwice(v: Int8Value)
    ensures Int8(-Int8(-(v as int))) == v
  {
    Int8Congruent(-Int8(-(v as int)), v);
  }

  lemma Int16Congruent(a: int, b: int)
    requires (a - b) % 0x1_0000 == 0
    ensures Int16(a) == Int16(b)
  {
    assert a % 0x1_0000 == b % 0x1_0000 by {
      var k := (a - b) / 0x1_0000;
      assert a == b + 0x1_0000 * k;
    }
  }

  /** Negating a 16-bit value and casting back is an involution. */
  lemma Int16NegateTwice(v: Int16Value)
    ensures Int16(-Int16(-(v as int))) == v
  {
    Int16Congruent(-Int16(-(v as int)), v);
  }
}
