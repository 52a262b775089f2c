/** `Math.random`, `Math.floor` and `Math.round` over exact fractions. */
module JsMath {

  /** One value returned by `Math.random()`: the fraction num / den. */
  datatype Fraction = Fraction(num: nat, den: nat)

  /** `Math.random()` lies in [0, 1). */
  type RandomDraw = f: Fraction | f.num < f.den witness Fraction(0, 1)

  /** `Math.floor(Math.random() * k)`: the largest integer not above k * num / den. */
  function FloorScaled(d: RandomDraw, k: nat): (r: nat)
    ensures r * d.den <= k * d.num < (r + 1) * d.den
    ensures k > 0 ==> r < k
  {
    FloorBounds(d.num, d.den, k);
    (k * d.num) / d.den
  }

  /** The whole part of k * a / b, for 0 <= a < b, is below k when k is positive. */
  lemma FloorBounds(a: int, b: int, k: int)
    requires 0 <= a < b && 0 <= k
    ensures (k * a) / b * b <= k * a < ((k * a) / b + 1) * b
    ensures 0 <= (k * a) / b
    ensures k > 0 ==> (k * a) / b < k
  {
    var p := k * a;
    var r := p / b;
    DivBounds(p, b);
    if k > 0 {
      MulStrict(k, a, b);
      CancelFactor(r, k, b);
    }
  }

  /** Multiplying by a positive factor keeps a strict inequality. */
  lemma MulStrict(k: int, a: int, b: int)
    requires k > 0 && a < b
    ensures k * a < b * k
  {
    assert b * k - k * a == k * (b - a);
  }

  /** `Math.random() > p / q`. */
  predicate Exceeds(d: RandomDraw, p: nat, q: nat)
    requires q > 0
  {
    d.num * q > p * d.den
  }

  /** `Math.round(n / d)`: the integer nearest to n / d, halves going up. */
  function RoundFraction(n: int, d: int): (r: int)
    requires d > 0
    ensures (2 * r - 1) * d <= 2 * n < (2 * r + 1) * d
  {
    var r := (2 * n + d) / (2 * d);
    DivBounds(2 * n + d, 2 * d);
    r
  }

  /** Cancelling a positive factor keeps a strict inequality. */
  lemma CancelFactor(a: int, b: int, c: int)
    requires c > 0 && a * c < b * c
    ensures a < b
  {
    assert (b - a) * c == b * c - a * c;
  }

  /** Euclidean division by a positive divisor is floor division. */
  lemma DivBounds(a: int, b: int)
    requires b > 0
    ensures (a / b) * b <= a < (a / b + 1) * b
  {
  }
}
