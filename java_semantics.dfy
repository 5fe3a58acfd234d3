/** The pieces of Java's primitive arithmetic the benchmark relies on: the
    signed `byte`, the narrowing conversions `(byte) x` and `AtomicLong.intValue()`,
    and the remainder operator `%`, which truncates toward zero (Dafny's `%`
    is Euclidean, so it is written out here). */
module JavaSemantics {

  /** A Java `byte`: a signed 8-bit value. */
  newtype JByte = b: int | -128 <= b < 128

  const TwoTo31: int := 0x8000_0000
  const TwoTo32: int := 0x1_0000_0000

  /** The narrowing conversion `(byte) x`: keeps the low 8 bits of `x`,
      read as a two's-complement number. */
  function ToByte(x: int): (b: JByte)
    ensures (b as int - x) % 256 == 0
    ensures -128 <= x < 128 ==> b as int == x
  {
    var m := (x + 128) % 256;
    assert x + 128 == 256 * ((x + 128) / 256) + m;
    (m - 128) as JByte
  }

  /** `AtomicLong.intValue()`: keeps the low 32 bits of a `long`, read as a
      two's-complement `int`. */
  function IntValue(x: int): (r: int)
    ensures -TwoTo31 <= r < TwoTo31
    ensures (r - x) % TwoTo32 == 0
    ensures -TwoTo31 <= x < TwoTo31 ==> r == x
  {
    var m := x % TwoTo32;
    assert x == TwoTo32 * (x / TwoTo32) + m;
    if m < TwoTo31 then m else m - TwoTo32
  }

  function Abs(x: int): int { if x < 0 then -x else x }

  /** Java's integer `a / b`: the quotient rounded toward zero. A zero
      divisor throws in Java; the benchmark only ever divides by 3. */
  function JavaDiv(a: int, b: int): int
    requires b != 0
  {
    var q := Abs(a) / Abs(b);
    if (a < 0) == (b < 0) then q else -q
  }

  /** Java's integer `a % b`: the remainder that goes with `JavaDiv`, so it
      takes the sign of the dividend and is smaller than the divisor in
      magnitude. */
  function JavaRem(a: int, b: int): (r: int)
    requires b != 0
    ensures a >= 0 ==> 0 <= r < Abs(b)
    ensures a < 0 ==> -Abs(b) < r <= 0
    ensures JavaDiv(a, b) * b + r == a
  {
    var m := Abs(a) % Abs(b);
    assert Abs(a) == Abs(b) * (Abs(a) / Abs(b)) + m;
    if a >= 0 then m else -m
  }
}
