/**
 * Stock wrappers for the two Java idioms that every component of the model needs:
 * a reference that may be `null`, and an operation that may end by throwing
 * one of the unchecked exceptions the Java runtime raises.
 */
module Java {

  /** A reference that may be `null` in the Java program. */
  datatype Option<+T> = None | Some(value: T)

  /** The runtime exceptions the modelled code can let escape. */
  datatype Exception =
    | NullPointer              // dereferencing or unboxing `null`
    | IllegalArgument
    | IllegalState
    | IndexOutOfBounds         // array, list, string or buffer index out of range
    | NumberFormat             // Integer.parseInt on malformed text
    | Arithmetic               // integer division or remainder by zero

  /** Either the value a Java method returns, or the exception it throws. */
  datatype Result<+T> = Ok(value: T) | Throws(ex: Exception)

  /** The outcome of a Java `void` method: it returns normally or throws. */
  datatype Outcome = Normal | Thrown(ex: Exception)

  /** 32-bit two's-complement range of a Java `int`. */
  const INT_MIN: int := -0x8000_0000
  const INT_MAX: int := 0x7FFF_FFFF

  predicate IsInt32(n: int) { INT_MIN <= n <= INT_MAX }

  /** The `int` that Java arithmetic yields for the mathematical value `n`: two's-complement wrap-around. */
  function Wrap32(n: int): (r: int)
    ensures IsInt32(r)
    ensures IsInt32(n) ==> r == n
    ensures (r - n) % 0x1_0000_0000 == 0
  {
    (n - INT_MIN) % 0x1_0000_0000 + INT_MIN
  }

  /** Java `%` on `int`: the remainder takes the sign of the dividend. */
  function JavaRem(a: int, b: int): (r: int)
    requires b != 0
    ensures a >= 0 ==> 0 <= r
    ensures a <= 0 ==> r <= 0
    ensures (if r >= 0 then r else -r) < (if b >= 0 then b else -b)
    ensures (a - r) % b == 0
  {
    var m := (if a >= 0 then a else -a) % (if b >= 0 then b else -b);
    RemOfAbs(a, b);
    if a >= 0 then m else -m
  }

  /** The magnitude of `a` less its remainder by the magnitude of `b` is a multiple of `b`. */
  lemma RemOfAbs(a: int, b: int)
    requires b != 0
    ensures var m := (if a >= 0 then a else -a) % (if b >= 0 then b else -b);
      (a - (if a >= 0 then m else -m)) % b == 0
  {
    var (x, y) := (if a >= 0 then a else -a, if b >= 0 then b else -b);
    var k := if (a >= 0) == (b >= 0) then x / y else -(x / y);
    assert x == (x / y) * y + x % y;
    assert a - (if a >= 0 then x % y else -(x % y)) == k * b;
    MultipleRem(k, b);
  }

  /** A multiple of `b` leaves no remainder. */
  lemma MultipleRem(k: int, b: int)
    requires b != 0
    ensures (k * b) % b == 0
  {
    var (q, r) := ((k * b) / b, (k * b) % b);
    assert k * b == b * q + r;
    var d := k - q;
    assert d * b == k * b - q * b;
    assert r == d * b;
    if b > 0 {
      if d > 0 { MulAtLeast(d, b); }
      else if d < 0 { MulAtLeast(-d, b); }
    } else {
      if d > 0 { MulAtLeast(d, -b); }
      else if d < 0 { MulAtLeast(-d, -b); }
    }
  }

  /** A positive multiple of a positive number is at least that number. */
  lemma MulAtLeast(d: int, y: int)
    requires d >= 1 && y >= 1
    ensures d * y >= y
  {
    assert d * y == y + (d - 1) * y;
  }

  /** `Math.floorDiv`: the quotient rounded toward negative infinity. */
  function FloorDiv(a: int, b: int): (q: int)
    requires b != 0
    ensures b > 0 ==> q * b <= a < q * b + b
    ensures b < 0 ==> q * b + b < a <= q * b
  {
    if b > 0 || a % b == 0 then a / b else a / b - 1
  }
}
