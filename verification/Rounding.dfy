/** Exact arithmetic with the rounding modes of Python's `decimal`, over reals. */
module Rounding {

  function Abs(x: real): real {
    if x < 0.0 then -x else x
  }

  function Times(x: real, y: real): real {
    x * y
  }

  /** `ROUND_DOWN`: towards zero. */
  function Truncate(x: real): int {
    if x < 0.0 then -((-x).Floor) else x.Floor
  }

  /** `ROUND_HALF_UP`: to the nearest integer, and away from zero half-way. */
  function HalfUp(x: real): int {
    if x < 0.0 then -((-x + 0.5).Floor) else (x + 0.5).Floor
  }

  /** `ROUND_HALF_EVEN`, the default: to the nearest integer, and to the even one half-way. */
  function HalfEven(x: real): int {
    var down := x.Floor;
    var over := x - down as real;
    if over < 0.5 || (over == 0.5 && down % 2 == 0) then down else down + 1
  }

  lemma TruncateMeans(x: real, n: int)
    ensures Truncate(x) == n
       <==> Abs(n as real) <= Abs(x) < Abs(n as real) + 1.0 && (x > 0.0 ==> n >= 0) && (x < 0.0 ==> n <= 0)
  {
  }

  lemma HalfUpMeans(x: real, n: int)
    ensures HalfUp(x) == n <==> Abs(n as real - x) < 0.5 || (Abs(n as real - x) == 0.5 && Abs(n as real) > Abs(x))
  {
  }

  lemma HalfEvenMeans(x: real, n: int)
    ensures HalfEven(x) == n <==> Abs(n as real - x) < 0.5 || (Abs(n as real - x) == 0.5 && n % 2 == 0)
  {
  }

  // ----- Twelve decimals

  const SCALE := 1000000000000.0
  const HALF_STEP := 0.0000000000005

  /** `quantize(Decimal("1e-12"), rounding=ROUND_HALF_UP)` */
  function HalfUp12(x: real): real {
    HalfUp(x * SCALE) as real / SCALE
  }

  /** `quantize(Decimal("1e-12"))` */
  function Q12(x: real): real {
    HalfEven(x * SCALE) as real / SCALE
  }

  lemma Q12IsClose(x: real)
    ensures Abs(Q12(x) - x) <= HALF_STEP
  {
  }
}
