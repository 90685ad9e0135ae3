/** Unsigned 32-bit arithmetic as the controller's C++ performs it on an ESP32,
    where `unsigned int`, `unsigned long` and `uint32_t` are all 32 bits wide
    and `int` is a 32-bit two's-complement integer. */
module UInt32 {

  const Modulus: int := 0x1_0000_0000

  /** `uint32_t`, `unsigned int` and (on this target) `unsigned long`. */
  type u32 = x: int | 0 <= x < Modulus

  /** `int`. */
  type i32 = x: int | -0x8000_0000 <= x < 0x8000_0000

  /** Unsigned subtraction `a - b`, which wraps around modulo 2^32. */
  function Sub(a: u32, b: u32): (r: u32)
    ensures a >= b ==> r == a - b
    ensures a < b ==> r == a - b + Modulus
  {
    (a - b) % Modulus
  }

  /** Unsigned multiplication `a * b`, which keeps only the low 32 bits. */
  function Mul(a: u32, b: u32): (r: u32)
    ensures a * b < Modulus ==> r == a * b
    ensures r <= a * b
    ensures (a * b - r) % Modulus == 0
  {
    Reduce(a * b)
  }

  /** The low 32 bits of a non-negative integer. */
  function Reduce(p: nat): (r: u32)
    ensures r <= p
    ensures p < Modulus ==> r == p
    ensures (p - r) % Modulus == 0
  {
    p % Modulus
  }

  /** The usual arithmetic conversion of an `int` operand compared with, or
      cast to, a `uint32_t`: the bit pattern is reread as unsigned. */
  function ToUnsigned(x: i32): (r: u32)
    ensures x >= 0 ==> r == x
    ensures x < 0 ==> r == x + Modulus
  {
    x % Modulus
  }
}
