/** Java's primitive `long`, `int` and `char` as ranges of mathematical integers, with
    the two's-complement wrap-around that `long` arithmetic performs and the
    floor-division facts the throughput computation needs. */
module JavaTypes {

  const LongMin: int := -0x8000_0000_0000_0000
  const LongMax: int := 0x7FFF_FFFF_FFFF_FFFF
  /** 2^64, the period of `long` wrap-around. */
  const Modulus: int := 0x1_0000_0000_0000_0000

  type long = x: int | -0x8000_0000_0000_0000 <= x <= 0x7FFF_FFFF_FFFF_FFFF
  type int32 = x: int | -0x8000_0000 <= x <= 0x7FFF_FFFF
  /** Java's `char`: one UTF-16 code unit. A character outside the Basic
      Multilingual Plane takes two of them (a surrogate pair). */
  type char16 = x: int | 0 <= x <= 0xFFFF
  /** A Java `String`: its `length()` and `substring` count code units. */
  type JString = seq<char16>

  /** The `long` that Java produces for a mathematical result `x`. */
  function Wrap(x: int): (r: long)
    ensures (x - r) % Modulus == 0
    ensures LongMin <= x <= LongMax ==> r == x
  {
    (x - LongMin) % Modulus + LongMin
  }

  /** Wrapping an intermediate sum and then adding more is the same as wrapping
      once at the end: a chain of `+=` on a long equals the wrapped total. */
  lemma WrapAdd(a: int, b: int)
    ensures Wrap(Wrap(a) + b) == Wrap(a + b)
  {
    var x := a - LongMin;
    ModShift(x + b, x / Modulus);
  }

  /** Subtracting whole periods does not change the remainder. */
  lemma ModShift(y: int, q: int)
    ensures (y - q * Modulus) % Modulus == y % Modulus
  {
    var d, r := y / Modulus, y % Modulus;
    assert y - q * Modulus == (d - q) * Modulus + r;
    DivUnique(y - q * Modulus, Modulus, d - q);
  }

  /** Floor division is determined by its defining inequalities. */
  lemma DivUnique(a: int, b: int, q: int)
    requires b > 0 && q * b <= a < (q + 1) * b
    ensures a / b == q
  {
    var d := a / b;
    assert d * b <= a < (d + 1) * b;
    MulMonotone(q + 1, d, b);
    MulMonotone(d + 1, q, b);
  }

  /** Multiplying by a non-negative factor keeps the order. */
  lemma MulMonotone(x: int, y: int, b: int)
    requires b >= 0
    ensures x <= y ==> x * b <= y * b
  {
  }
}
