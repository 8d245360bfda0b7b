/**
  Exact arithmetic used by the game formulas: integer powers of rationals, floor and ceiling,
  JavaScript's truncating remainder, decimal rendering of naturals, and the transcendental
  functions (square root, exponential, x^1.5) that the model leaves uninterpreted.
 */
module Numeric {

  /** b^n for a natural exponent, computed exactly. */
  function Pow(b: real, n: nat): real
  {
    if n == 0 then 1.0 else b * Pow(b, n - 1)
  }

  lemma {:induction false} PowAtLeastOne(b: real, n: nat)
    requires b >= 1.0
    ensures Pow(b, n) >= 1.0
  {
    if n > 0 {
      PowAtLeastOne(b, n - 1);
      assert b * Pow(b, n - 1) >= Pow(b, n - 1);
    }
  }

  /** With a base of at least one, a larger exponent never gives a smaller power. */
  lemma {:induction false} PowMonotone(b: real, m: nat, n: nat)
    requires b >= 1.0 && m <= n
    ensures Pow(b, m) <= Pow(b, n)
  {
    if m < n {
      PowMonotone(b, m, n - 1);
      PowAtLeastOne(b, n - 1);
      assert b * Pow(b, n - 1) >= Pow(b, n - 1);
    }
  }

  /** Math.floor */
  function Floor(x: real): (r: int)
    ensures r as real <= x < r as real + 1.0
  {
    x.Floor
  }

  /** Math.ceil */
  function Ceil(x: real): (r: int)
    ensures x <= r as real < x + 1.0
  {
    -((-x).Floor)
  }

  lemma FloorMonotone(x: real, y: real)
    requires x <= y
    ensures Floor(x) <= Floor(y)
  {
  }

  lemma CeilMonotone(x: real, y: real)
    requires x <= y
    ensures Ceil(x) <= Ceil(y)
  {
  }

  lemma FloorOfInt(n: int)
    ensures Floor(n as real) == n
  {
  }

  /** Multiplying by a non-negative factor keeps order. */
  lemma MulMonotone(c: real, x: real, y: real)
    requires c >= 0.0 && x <= y
    ensures c * x <= c * y
  {
    assert c * y - c * x == c * (y - x);
  }

  lemma ProductNonNegative(x: real, y: real)
    ensures x >= 0.0 && y >= 0.0 ==> x * y >= 0.0
  {
    if x >= 0.0 && y >= 0.0 {
      MulMonotone(x, 0.0, y);
    }
  }

  /** Dividing by a larger positive number gives less. */
  lemma QuotientFallsWithDivisor(x: real, s1: real, s2: real)
    requires x >= 0.0 && 0.0 < s1 <= s2
    ensures x / s2 <= x / s1
  {
    var q1 := x / s1;
    var q2 := x / s2;
    assert q1 * s1 == x && q2 * s2 == x;
    assert q2 >= 0.0;
    MulMonotone(q2, s1, s2);
    assert q2 * s1 <= q1 * s1;
  }

  lemma QuotientGrowsWithDividend(x: real, y: real, s: real)
    requires x <= y && s > 0.0
    ensures x / s <= y / s
  {
    assert (y / s - x / s) * s == y - x;
  }

  /** A scaled quotient rounded up grows with the factor it scales. */
  lemma CeilScaledQuotientMonotone(c: real, x: real, y: real, s: real)
    requires c >= 0.0 && x <= y && s > 0.0
    ensures Ceil(c * x / s) <= Ceil(c * y / s)
  {
    MulMonotone(c, x, y);
    QuotientGrowsWithDividend(c * x, c * y, s);
    CeilMonotone(c * x / s, c * y / s);
  }

  /** A positive multiple of a positive number is at least that number. */
  lemma MultipleAtLeast(d: int, k: int)
    requires d > 0 && k >= 1
    ensures d * k >= d
  {
    assert d * k == d * (k - 1) + d;
  }

  /** Division by d undoes d * q + r when 0 <= r < d. */
  lemma DivModOfSum(q: int, r: int, d: int)
    requires d > 0 && 0 <= r < d
    ensures (d * q + r) / d == q && (d * q + r) % d == r
  {
    var n := d * q + r;
    var q', r' := n / d, n % d;
    assert d * q' + r' == n;
    if q' > q {
      assert d * (q' - q) == r - r';
      MultipleAtLeast(d, q' - q);
    } else if q' < q {
      assert d * (q - q') == r' - r;
      MultipleAtLeast(d, q - q');
    }
  }

  /** Math.min and Math.max on numbers. */
  function Min(a: real, b: real): real { if a <= b then a else b }
  function Max(a: real, b: real): real { if a >= b then a else b }

  /** JavaScript's `%`: the remainder takes the sign of the dividend (Dafny's `%` never is negative). */
  function JsRem(a: int, b: int): (r: int)
    requires b > 0
    ensures a >= 0 ==> 0 <= r < b && r == a % b
    ensures a < 0 ==> -b < r <= 0
  {
    if a >= 0 then a % b else -((-a) % b)
  }

  /** Taking away the remainder, Euclidean or negated, leaves a multiple of the divisor. */
  lemma RemainderDivides(a: int, b: int)
    requires b > 0
    ensures a >= 0 ==> (a - a % b) % b == 0
    ensures a < 0 ==> (a + (-a) % b) % b == 0
  {
    if a >= 0 {
      assert a - a % b == b * (a / b) + 0;
      DivModOfSum(a / b, 0, b);
    } else {
      var q := (-a) / b;
      assert a + (-a) % b == b * (-q) + 0;
      DivModOfSum(-q, 0, b);
    }
  }

  /** JsRem is JavaScript's truncated remainder: it differs from the dividend by a multiple of the divisor. */
  lemma JsRemIsTruncatedRemainder(a: int, b: int)
    requires b > 0
    ensures (a - JsRem(a, b)) % b == 0
    ensures a < 0 ==> -b < JsRem(a, b) <= 0
  {
    RemainderDivides(a, b);
  }

  /** The three transcendental functions the formulas call, as values supplied by the caller. */
  datatype Transcendentals = Transcendentals(sqrt: real -> real, exp: real -> real, pow15: real -> real)

  /** The only facts the model relies on about Math.sqrt, Math.exp and x => Math.pow(x, 1.5). */
  ghost predicate Lawful(t: Transcendentals)
  {
    && t.sqrt(0.0) == 0.0
    && (forall x :: 0.0 <= x ==> 0.0 <= t.sqrt(x))
    && (forall x, y :: 0.0 <= x <= y ==> t.sqrt(x) <= t.sqrt(y))
    && t.exp(0.0) == 1.0
    && (forall x :: 0.0 < t.exp(x))
    && (forall x, y :: x <= y ==> t.exp(x) <= t.exp(y))
    && t.pow15(0.0) == 0.0
    && (forall x :: 0.0 <= x ==> 0.0 <= t.pow15(x))
    && (forall x, y :: 0.0 <= x <= y ==> t.pow15(x) <= t.pow15(y))
  }

  /** Decimal digits of a natural number, as JavaScript's template strings print it. */
  function NatToString(n: nat): (s: string)
    ensures |s| >= 1
    ensures forall i :: 0 <= i < |s| ==> '0' <= s[i] <= '9'
    decreases n
  {
    if n < 10 then [DigitChar(n)] else NatToString(n / 10) + [DigitChar(n % 10)]
  }

  function DigitChar(d: nat): (c: char)
    requires d < 10
    ensures '0' <= c <= '9' && (c as int) - ('0' as int) == d
  {
    ('0' as int + d) as char
  }

  /** Reads a non-empty string of decimal digits back as a number. */
  function ParseDigits(s: string): (n: nat)
    requires forall i :: 0 <= i < |s| ==> '0' <= s[i] <= '9'
    decreases |s|
  {
    if s == [] then 0 else 10 * ParseDigits(s[..|s| - 1]) + ((s[|s| - 1] as int) - ('0' as int))
  }

  /** Printing then reading gives the number back, so the rendering is injective. */
  lemma {:induction false} NatToStringRoundTrip(n: nat)
    ensures ParseDigits(NatToString(n)) == n
    decreases n
  {
    var s := NatToString(n);
    if n >= 10 {
      NatToStringRoundTrip(n / 10);
      assert s[..|s| - 1] == NatToString(n / 10);
    }
  }

  lemma NatToStringInjective(m: nat, n: nat)
    requires NatToString(m) == NatToString(n)
    ensures m == n
  {
    NatToStringRoundTrip(m);
    NatToStringRoundTrip(n);
  }
}
