/** Two-decimal money arithmetic (money-utils.ts).
    Amounts are exact reals; the IEEE-754 representation and the
    `Number.EPSILON` nudge of the original are abstracted away. */
module Money {

  /** x is a whole number of cents. */
  predicate IsCents(x: real) {
    (x * 100.0).Floor as real == x * 100.0
  }

  /** The number of cents in x, rounded down. */
  function Cents(x: real): int {
    (x * 100.0).Floor
  }

  /** `roundToTwoDecimals`: Math.round(x * 100) / 100, halves rounding upward. */
  function Round2(x: real): (r: real)
    ensures IsCents(r)
    ensures x - 0.005 < r <= x + 0.005
  {
    ((x * 100.0 + 0.5).Floor as real) / 100.0
  }

  /** `parseAmount`, numeric part: the value parseFloat produced, rounded to cents. */
  function ParseAmount(parsed: real): (r: real)
    ensures IsCents(r)
    ensures parsed - 0.005 < r <= parsed + 0.005
  {
    Round2(parsed)
  }

  /** `safeAdd`: exact on whole-cent inputs. */
  function SafeAdd(a: real, b: real): (r: real)
    ensures IsCents(r)
    ensures a + b - 0.005 < r <= a + b + 0.005
    ensures IsCents(a) && IsCents(b) ==> r == a + b
  {
    if IsCents(a) && IsCents(b) then
      CentsSumClosed(a, b);
      Round2OfCents(a + b);
      Round2(a + b)
    else
      Round2(a + b)
  }

  /** `safeMultiply`. */
  function SafeMultiply(a: real, b: real): (r: real)
    ensures IsCents(r)
    ensures a * b - 0.005 < r <= a * b + 0.005
  {
    Round2(a * b)
  }

  /** `safeDivide`. The divisor is never zero in this model (see README). */
  function SafeDivide(a: real, b: real): (r: real)
    requires b != 0.0
    ensures IsCents(r)
    ensures a / b - 0.005 < r <= a / b + 0.005
  {
    Round2(a / b)
  }

  /** Rounding is the identity on whole cents. */
  lemma Round2OfCents(x: real)
    requires IsCents(x)
    ensures Round2(x) == x
  {
    var n := (x * 100.0).Floor;
    assert x * 100.0 == n as real;
    assert (x * 100.0 + 0.5).Floor == n;
  }

  /** `roundToTwoDecimals` is idempotent. */
  lemma Round2Idempotent(x: real)
    ensures Round2(Round2(x)) == Round2(x)
  {
    Round2OfCents(Round2(x));
  }

  /** A value exactly half a cent below a whole cent rounds up to it. */
  lemma Round2HalfUp(x: real)
    requires IsCents(x + 0.005)
    ensures Round2(x) == x + 0.005
  {
    var n := ((x + 0.005) * 100.0).Floor;
    assert x * 100.0 + 0.5 == n as real;
  }

  /** Whole cents are closed under sum. */
  lemma CentsSumClosed(a: real, b: real)
    requires IsCents(a) && IsCents(b)
    ensures IsCents(a + b)
  {
    var m, n := (a * 100.0).Floor, (b * 100.0).Floor;
    assert (a + b) * 100.0 == (m + n) as real;
  }

  /** The floor of an integer ratio is the integer quotient. */
  lemma FloorOfRatio(n: int, d: int)
    requires d > 0
    ensures (n as real / d as real).Floor == n / d
  {
    var q, m := n / d, n % d;
    assert n as real == q as real * d as real + m as real;
    assert n as real / d as real == q as real + m as real / d as real;
  }

  /** A whole-cent amount is its cent count over 100. */
  lemma CentsExact(x: real)
    requires IsCents(x)
    ensures x == Cents(x) as real / 100.0
  {
  }

  /** An integer number of cents over 100 is whole cents. */
  lemma CentsOfInt(n: int)
    ensures IsCents(n as real / 100.0) && Cents(n as real / 100.0) == n
  {
    assert (n as real / 100.0) * 100.0 == n as real;
  }

  /** The amount of `c` whole cents. */
  function FromCents(c: int): (x: real)
    ensures IsCents(x) && Cents(x) == c
  {
    CentsOfInt(c);
    c as real / 100.0
  }

  /** On amounts given in whole cents, `safeAdd` is integer addition of the
      cents and rounding changes nothing; this is what lets the summaries and
      the report be stated over integer cents. */
  lemma SafeAddCents(a: int, b: int)
    ensures SafeAdd(FromCents(a), FromCents(b)) == FromCents(a + b)
    ensures Round2(FromCents(a)) == FromCents(a)
  {
    Round2OfCents(FromCents(a));
  }

  /** `safeAdd` is commutative. */
  lemma SafeAddCommutes(a: real, b: real)
    ensures SafeAdd(a, b) == SafeAdd(b, a)
  {
  }

  /** `safeMultiply` is commutative. */
  lemma SafeMultiplyCommutes(a: real, b: real)
    ensures SafeMultiply(a, b) == SafeMultiply(b, a)
  {
  }
}
