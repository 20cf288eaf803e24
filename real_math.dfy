/** The `Math` functions the analysis uses, on exact integers and reals. */
module RealMath {

  function Abs(x: int): (r: nat)
    ensures r == x || r == -x
  {
    if x < 0 then -x else x
  }

  function AbsReal(x: real): (r: real)
    ensures r >= 0.0 && (r == x || r == -x)
  {
    if x < 0.0 then -x else x
  }

  function MaxReal(a: real, b: real): (r: real)
    ensures r >= a && r >= b && (r == a || r == b)
  {
    if a >= b then a else b
  }

  function MinReal(a: real, b: real): (r: real)
    ensures r <= a && r <= b && (r == a || r == b)
  {
    if a <= b then a else b
  }

  function MinInt(a: int, b: int): (r: int)
    ensures r <= a && r <= b && (r == a || r == b)
  {
    if a <= b then a else b
  }

  function MaxInt(a: int, b: int): (r: int)
    ensures r >= a && r >= b && (r == a || r == b)
  {
    if a >= b then a else b
  }

  lemma ProductNonNegative(a: int, b: int)
    requires a >= 0 && b >= 0
    ensures a * b >= 0
  {
  }

  lemma MultipleAtLeast(d: int, c: int)
    requires d >= 1 && c > 0
    ensures d * c >= c
  {
    ProductNonNegative(d - 1, c);
    assert d * c == (d - 1) * c + c;
  }

  /** Quotient and remainder are the only pair that rebuilds the dividend
      with a remainder below the divisor. */
  lemma DivisionUnique(n: int, c: int, q: int, m: int)
    requires c > 0 && n == q * c + m && 0 <= m < c
    ensures n / c == q && n % c == m
  {
    var q', m' := n / c, n % c;
    assert (q - q') * c == m' - m;
    if q - q' >= 1 {
      MultipleAtLeast(q - q', c);
    } else if q' - q >= 1 {
      MultipleAtLeast(q' - q, c);
    }
  }

  /** `Math.round`: the nearest integer, halves rounded up. */
  function Round(x: real): (r: int)
    ensures r as real - 0.5 <= x < r as real + 0.5
  {
    (x + 0.5).Floor
  }

  lemma RoundMonotone(x: real, y: real)
    requires x <= y
    ensures Round(x) <= Round(y)
  {
  }

  /** `Math.ceil`. */
  function Ceil(x: real): (r: int)
    ensures x <= r as real < x + 1.0
  {
    -((-x).Floor)
  }

  /** The integer square root: the largest `r` with `r * r <= n`. */
  function IntSqrt(n: nat): (r: nat)
    ensures r * r <= n < (r + 1) * (r + 1)
    decreases n
  {
    if n < 4 then
      (if n == 0 then 0 else 1)
    else
      var half := IntSqrt(n / 4);
      IntSqrtStep(n, half);
      var h := 2 * half;
      if (h + 1) * (h + 1) <= n then h + 1 else h
  }

  /** Doubling the root of a quarter brackets the root. */
  lemma IntSqrtStep(n: nat, half: nat)
    requires half * half <= n / 4 < (half + 1) * (half + 1)
    ensures (2 * half) * (2 * half) <= n < (2 * half + 2) * (2 * half + 2)
  {
    assert (2 * half) * (2 * half) == 4 * (half * half);
    assert (2 * half + 2) * (2 * half + 2) == 4 * ((half + 1) * (half + 1));
  }

  lemma SquareMonotone(x: nat, y: nat)
    requires x <= y
    ensures x * x <= y * y
  {
    var d := y - x;
    assert y * y == x * x + (2 * x + d) * d;
  }

  lemma IntSqrtMonotone(n: nat, m: nat)
    requires n <= m
    ensures IntSqrt(n) <= IntSqrt(m)
  {
    var a, b := IntSqrt(n), IntSqrt(m);
    if a > b {
      SquareMonotone(b + 1, a);
    }
  }

  function Square(r: real): real {
    r * r
  }

  /** No real has a negative square. */
  lemma SquareNonNegative(x: real)
    ensures x * x >= 0.0
  {
    if x < 0.0 {
      assert x * x == (-x) * (-x);
    }
  }

  /** `Math.sqrt`, computed to a thousandth: the largest multiple of 1/1000
      whose square does not exceed `x` (and 0 for `x <= 0`). */
  function Sqrt(x: real): (r: real)
    ensures r >= 0.0
    ensures x <= 0.0 ==> r == 0.0
    ensures x >= 0.0 ==> Square(r) <= x < Square(r + 0.001)
  {
    if x <= 0.0 then 0.0 else Thousandths(x)
  }

  /** The root of a positive `x` to a thousandth: the integer root of
      `x * 10^6`, scaled back. */
  function Thousandths(x: real): (r: real)
    requires x > 0.0
    ensures r >= 0.0
    ensures Square(r) <= x < Square(r + 0.001)
  {
    var n: nat := (x * 1000000.0).Floor;
    var k := IntSqrt(n);
    var r := k as real / 1000.0;
    SqrtBounds(x, n, k, r);
    r
  }

  lemma SquareAsReal(k: int)
    ensures (k * k) as real == k as real * k as real
  {
  }

  lemma SqrtBounds(x: real, n: nat, k: nat, r: real)
    requires x > 0.0
    requires n == (x * 1000000.0).Floor
    requires k * k <= n < (k + 1) * (k + 1)
    requires r == k as real / 1000.0
    ensures r >= 0.0
    ensures Square(r) <= x < Square(r + 0.001)
  {
    ScaledSquare(r, k);
    ScaledSquare(r + 0.001, k + 1);
    assert (k * k) as real <= n as real <= x * 1000000.0;
    assert x * 1000000.0 < (n + 1) as real <= ((k + 1) * (k + 1)) as real;
  }

  /** A thousandth scaled up by 1000 squares to a millionth scaled up. */
  lemma ScaledSquare(r: real, k: int)
    requires k as real == 1000.0 * r
    ensures (k * k) as real == 1000000.0 * Square(r)
  {
    SquareAsReal(k);
    assert (1000.0 * r) * (1000.0 * r) == 1000000.0 * (r * r);
  }

  lemma SqrtZero()
    ensures Sqrt(0.0) == 0.0
  {
  }

  lemma SqrtMonotone(x: real, y: real)
    requires 0.0 <= x <= y
    ensures Sqrt(x) <= Sqrt(y)
  {
    if x > 0.0 {
      var n, m := (x * 1000000.0).Floor, (y * 1000000.0).Floor;
      assert n <= m;
      IntSqrtMonotone(n, m);
    }
  }
}
