/** Java integer arithmetic that differs from Dafny's unbounded, Euclidean arithmetic. */
module JavaInt {

  const IntMin: int := -0x8000_0000
  const IntMax: int := 0x7fff_ffff

  /** Java's `/` on `long` and `int` operands: the quotient truncated toward zero. */
  function Div(a: int, b: int): (q: int)
    requires b > 0
    ensures a >= 0 ==> 0 <= q && q * b <= a < q * b + b
    ensures a < 0 ==> q <= 0 && q * b - b < a <= q * b
  {
    var n := if a >= 0 then a else -a;
    NaturalDivision(n, b);
    if a >= 0 then n / b else -(n / b)
  }

  /** Division of a natural number by a positive one, in terms of products only. */
  lemma NaturalDivision(n: int, b: int)
    requires n >= 0 && b > 0
    ensures 0 <= n / b && (n / b) * b <= n < (n / b) * b + b
  {
    var d, m := n / b, n % b;
    assert n == d * b + m && 0 <= m < b;
  }

  /** Java's narrowing cast `(int)` from `long`: keeps the low 32 bits, read in two's complement. */
  function ToInt(x: int): (r: int)
    ensures IntMin <= r <= IntMax
    ensures (x - r) % 0x1_0000_0000 == 0
    ensures IntMin <= x <= IntMax ==> r == x
  {
    (x - IntMin) % 0x1_0000_0000 + IntMin
  }
}
