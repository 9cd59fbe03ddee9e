/** Option and Result, the model's replacements for Java's null and exceptions. */
module Base {

  datatype Option<+T> = None | Some(value: T)

  datatype Result<+R, +E> = Ok(value: R) | Err(error: E)

  /** Java's 32-bit `int` range. */
  const INT_MIN: int := -0x8000_0000
  const INT_MAX: int := 0x7FFF_FFFF

  /** Java's 64-bit `long` range. */
  const LONG_MIN: int := -0x8000_0000_0000_0000
  const LONG_MAX: int := 0x7FFF_FFFF_FFFF_FFFF

  /** Two's-complement wrap-around of an unbounded integer to Java's `int`
      (the result of `int` arithmetic and of a `(int)` cast from `long`). */
  function Wrap32(x: int): (r: int)
    ensures INT_MIN <= r <= INT_MAX
    ensures (r - x) % 0x1_0000_0000 == 0
    ensures INT_MIN <= x <= INT_MAX ==> r == x
  {
    (x - INT_MIN) % 0x1_0000_0000 + INT_MIN
  }

  /** Congruence modulo 2^32 survives scaling and addition. */
  lemma CongruentScaled(a: int, b: int, k: int)
    requires (a - b) % 0x1_0000_0000 == 0
    ensures (k * a - k * b) % 0x1_0000_0000 == 0
  {
    var q := (a - b) / 0x1_0000_0000;
    assert a - b == 0x1_0000_0000 * q;
    assert k * a - k * b == 0x1_0000_0000 * (k * q);
  }

  lemma CongruentSum(x: int, y: int)
    requires x % 0x1_0000_0000 == 0 && y % 0x1_0000_0000 == 0
    ensures (x + y) % 0x1_0000_0000 == 0
  {
    assert x == 0x1_0000_0000 * (x / 0x1_0000_0000);
    assert y == 0x1_0000_0000 * (y / 0x1_0000_0000);
    assert x + y == 0x1_0000_0000 * (x / 0x1_0000_0000 + y / 0x1_0000_0000);
  }
}
