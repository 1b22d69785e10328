/** Types shared by every part of the park sensor model. */
module Common {

  datatype Option<+T> = None | Some(value: T)

  /** The firmware's 32-bit IEEE-754 `float`, modelled as an exact real or
      not-a-number. Rounding and infinities are not modelled. */
  datatype Float = Finite(value: real) | NaN

  /** C's `isnan`. */
  predicate IsNaN(f: Float) { f.NaN? }

  /** IEEE equality: not-a-number equals nothing, not even itself. */
  predicate FloatEq(a: Float, b: Float)
  {
    a.Finite? && b.Finite? && a.value == b.value
  }

  type byte = x: int | 0 <= x < 0x100
  type uint32 = x: int | 0 <= x < 0x1_0000_0000

  const Uint32Modulus: int := 0x1_0000_0000

  function Abs(x: real): (r: real)
    ensures r >= 0.0
    ensures r == x || r == -x
  {
    if x > 0.0 then x else -x
  }

  /** C's conversion of a float to an integer, which truncates toward zero. */
  function TruncateToInt(x: real): (n: int)
    ensures x >= 0.0 ==> 0 <= n && n as real <= x < n as real + 1.0
    ensures x < 0.0 ==> n <= 0 && n as real - 1.0 < x <= n as real
    ensures Abs(n as real) <= Abs(x) < Abs(n as real) + 1.0
    ensures x.Floor as real == x ==> n == x.Floor
  {
    if x >= 0.0 then x.Floor else -((-x).Floor)
  }

  /** C's `/` on `int`, which truncates toward zero (Dafny's `/` is Euclidean). */
  function CDiv(a: int, b: int): (q: int)
    requires b != 0
    ensures a >= 0 && b > 0 ==> q == a / b
  {
    if (a >= 0) == (b > 0) then
      (if a >= 0 then a / b else (-a) / (-b))
    else
      -((if a >= 0 then a else -a) / (if b > 0 then b else -b))
  }
}
