/** Small value helpers shared by the waitlist model: an optional value, the
    JavaScript rounding rules the handlers rely on, and character classes. */
module Common {

  datatype Option<T> = None | Some(value: T)

  /** `Math.floor(a / b)` for a positive divisor: Dafny's division already
      rounds toward negative infinity when the divisor is positive. */
  function FloorDiv(a: int, b: int): (r: int)
    requires b > 0
    ensures b * r <= a < b * (r + 1)
  {
    a / b
  }

  /** r is a / b rounded to the nearest integer, halves rounding up:
      r <= a/b + 1/2 < r + 1, multiplied through by 2b. */
  predicate NearestQuotient(r: int, a: int, b: int)
  {
    2 * b * r <= 2 * a + b < 2 * b * (r + 1)
  }

  /** `Math.round(a / b)` for a positive divisor: the integer nearest to a/b,
      halves rounding up toward positive infinity (so -2.5 rounds to -2). */
  function RoundDiv(a: int, b: int): (r: int)
    requires b > 0
    ensures NearestQuotient(r, a, b)
  {
    FloorDiv(2 * a + b, 2 * b)
  }

  /** Rounding to nearest preserves lower and upper integer bounds on a/b. */
  lemma RoundDivBetween(a: int, b: int, lo: int, hi: int)
    requires b > 0
    requires b * lo <= a <= b * hi
    ensures lo <= RoundDiv(a, b) <= hi
  {
    var r := RoundDiv(a, b);
    // 2b lo <= 2a < 2a + b < 2b (r + 1)
    assert 2 * b * lo < 2 * b * (r + 1);
    MulLessCancel(2 * b, lo, r + 1);
    // 2b r <= 2a + b <= 2b hi + b < 2b (hi + 1)
    assert 2 * b * r < 2 * b * (hi + 1);
    MulLessCancel(2 * b, r, hi + 1);
  }

  /** A positive factor can be cancelled from a strict inequality. */
  lemma MulLessCancel(k: int, x: int, y: int)
    requires k > 0 && k * x < k * y
    ensures x < y
  {
    assert k * (y - x) > 0;
  }

  function Sum(s: seq<int>): int
  {
    if s == [] then 0 else s[0] + Sum(s[1..])
  }

  /** Every element in [lo, hi] puts the sum in [n * lo, n * hi]. */
  lemma {:induction false} SumBounds(s: seq<int>, lo: int, hi: int)
    requires forall i :: 0 <= i < |s| ==> lo <= s[i] <= hi
    ensures |s| * lo <= Sum(s) <= |s| * hi
  {
    if s != [] {
      SumBounds(s[1..], lo, hi);
    }
  }

  function Max(a: int, b: int): int
  {
    if a >= b then a else b
  }

  predicate StartsWith(s: string, prefix: string)
  {
    |prefix| <= |s| && s[..|prefix|] == prefix
  }

  /** The characters JavaScript's `\d` matches (ASCII digits only). */
  predicate IsDigit(c: char)
  {
    '0' <= c <= '9'
  }

  predicate AllDigits(s: string)
  {
    forall i :: 0 <= i < |s| ==> IsDigit(s[i])
  }

  function DigitChar(d: int): (c: char)
    requires 0 <= d < 10
    ensures IsDigit(c)
  {
    ['0', '1', '2', '3', '4', '5', '6', '7', '8', '9'][d]
  }

  /** `n.toString()` for a non-negative integer: its decimal digits, no sign,
      no leading zero. */
  function DecimalString(n: nat): (s: string)
    ensures |s| >= 1 && AllDigits(s)
  {
    if n < 10 then [DigitChar(n)] else DecimalString(n / 10) + [DigitChar(n % 10)]
  }

  function Pow10(k: nat): (p: nat)
    ensures p >= 1
  {
    if k == 0 then 1 else 10 * Pow10(k - 1)
  }

  /** A number in [10^(k-1), 10^k) prints with exactly k digits. */
  lemma {:induction false} DecimalStringLength(n: nat, k: nat)
    requires k >= 1
    requires Pow10(k - 1) <= n < Pow10(k)
    ensures |DecimalString(n)| == k
  {
    if k == 1 {
      assert n < 10;
    } else {
      assert Pow10(k - 1) == 10 * Pow10(k - 2);
      assert n >= 10;
      DecimalStringLength(n / 10, k - 1);
    }
  }
}
