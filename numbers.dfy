/** Integer helpers shared by the screens and the question bank: the
    half-up rounding that `Math.round` performs on a non-negative ratio,
    decimal rendering of naturals (JavaScript's number-to-string on
    non-negative integers), and the maximum and sum of a list of scores. */
module Numbers {

  datatype Option<T> = None | Some(value: T)

  /** `Math.round(x)` is `floor(x + 1/2)`; for x = 100*a/b this is the
      integer below, computed exactly. */
  function RoundPercent(a: int, b: int): (r: int)
    requires b > 0
    ensures b * (2 * r - 1) <= 200 * a < b * (2 * r + 1)
  {
    RoundHalfUp(100 * a, b)
  }

  /** The integer nearest to n/d, halves rounded up (`Math.round(n / d)`). */
  function RoundHalfUp(n: int, d: int): (r: int)
    requires d > 0
    ensures d * (2 * r - 1) <= 2 * n < d * (2 * r + 1)
  {
    var r := (2 * n + d) / (2 * d);
    assert 2 * d * r <= 2 * n + d < 2 * d * r + 2 * d;
    r
  }

  /** Cancels a positive factor on both sides of a comparison. */
  lemma CancelPositive(b: int, x: int, y: int)
    requires b > 0
    ensures b * x <= b * y ==> x <= y
    ensures b * x < b * y ==> x < y
  {
    if x > y { assert b * x - b * y == b * (x - y) > 0; }
    if x >= y { assert b * x - b * y == b * (x - y) >= 0; }
  }

  /** Rounding is monotone: a larger numerator never rounds lower. */
  lemma RoundHalfUpMonotone(n: int, m: int, d: int)
    requires d > 0 && n <= m
    ensures RoundHalfUp(n, d) <= RoundHalfUp(m, d)
  {
    var r, s := RoundHalfUp(n, d), RoundHalfUp(m, d);
    CancelPositive(d, 2 * r - 1, 2 * s + 1);
  }

  /** A ratio between 0 and 1 becomes a percentage between 0 and 100. */
  lemma RoundPercentBounds(a: int, b: int)
    requires b > 0 && 0 <= a <= b
    ensures 0 <= RoundPercent(a, b) <= 100
    ensures a == b ==> RoundPercent(a, b) == 100
    ensures a == 0 ==> RoundPercent(a, b) == 0
  {
    var r := RoundPercent(a, b);
    CancelPositive(b, 0, 2 * r + 1);
    CancelPositive(b, 2 * r - 1, 200);
    if a == b {
      CancelPositive(b, 200, 2 * r + 1);
    }
    if a == 0 {
      CancelPositive(b, 2 * r - 1, 0);
    }
  }

  /** With fewer than 200 items, 100 is reached only by a perfect ratio and
      0 only by an empty one: one miss out of b costs 100/b > 1/2 point. */
  lemma RoundPercentExtremes(a: int, b: int)
    requires 0 < b < 200 && 0 <= a <= b
    ensures RoundPercent(a, b) == 100 <==> a == b
    ensures RoundPercent(a, b) == 0 <==> a == 0
  {
    RoundPercentBounds(a, b);
    var r := RoundPercent(a, b);
    if r == 100 {
      assert 200 * (b - 1) < 199 * b <= 200 * a;
    }
  }

  /** ... and with 200 items that no longer holds: 199 of 200 shows 100. */
  lemma RoundPercentNearMiss()
    ensures RoundPercent(199, 200) == 100
  {
    assert (2 * 19900 + 200) / 400 == 100;
  }

  predicate IsDigit(c: char) {
    '0' <= c <= '9'
  }

  predicate AllDigits(s: string) {
    forall i | 0 <= i < |s| :: IsDigit(s[i])
  }

  function DigitChar(d: nat): (c: char)
    requires d < 10
    ensures IsDigit(c) && c as int - '0' as int == d
  {
    ('0' as int + d) as char
  }

  /** The decimal rendering of a natural number, without leading zeros. */
  function Decimal(n: nat): (s: string)
    ensures 1 <= |s| && AllDigits(s)
    ensures s[0] == '0' ==> n == 0
    decreases n
  {
    if n < 10 then [DigitChar(n)] else Decimal(n / 10) + [DigitChar(n % 10)]
  }

  /** Reads a string of decimal digits back as a number. */
  function ParseDecimal(s: string): (n: nat)
    requires AllDigits(s)
  {
    if s == [] then 0
    else 10 * ParseDecimal(s[..|s| - 1]) + (s[|s| - 1] as int - '0' as int)
  }

  lemma {:induction false} ParseDecimalOfDecimal(n: nat)
    ensures ParseDecimal(Decimal(n)) == n
    decreases n
  {
    var s := Decimal(n);
    if n < 10 {
      assert s[..|s| - 1] == [];
    } else {
      assert s[..|s| - 1] == Decimal(n / 10);
      ParseDecimalOfDecimal(n / 10);
    }
  }

  /** Different numbers have different renderings. */
  lemma DecimalInjective(m: nat, n: nat)
    requires Decimal(m) == Decimal(n)
    ensures m == n
  {
    ParseDecimalOfDecimal(m);
    ParseDecimalOfDecimal(n);
  }

  /** Two-digit values round-trip through their two characters. */
  lemma {:induction false} ParseTwoDigits(s: string)
    requires |s| == 2 && AllDigits(s)
    ensures ParseDecimal(s) == 10 * (s[0] as int - '0' as int) + (s[1] as int - '0' as int)
  {
    assert s[..1] == [s[0]];
    assert [s[0]][..0] == [];
    assert ParseDecimal([s[0]]) == s[0] as int - '0' as int;
  }

  /** The largest element of a non-empty list (`Math.max(...xs)`). */
  function Max(xs: seq<int>): (m: int)
    requires |xs| > 0
    ensures m in xs
    ensures forall i | 0 <= i < |xs| :: xs[i] <= m
  {
    if |xs| == 1 then xs[0]
    else
      var rest := Max(xs[1..]);
      assert forall i | 1 <= i < |xs| :: xs[i] == xs[1..][i - 1];
      if xs[0] >= rest then xs[0] else rest
  }

  /** `xs.reduce((sum, x) => sum + x, 0)`. */
  function Sum(xs: seq<int>): int {
    if xs == [] then 0 else xs[0] + Sum(xs[1..])
  }

  /** A sum of n values between lo and hi lies between n*lo and n*hi. */
  lemma {:induction false} SumBounds(xs: seq<int>, lo: int, hi: int)
    requires forall i | 0 <= i < |xs| :: lo <= xs[i] <= hi
    ensures |xs| * lo <= Sum(xs) <= |xs| * hi
  {
    if xs != [] {
      assert forall i | 0 <= i < |xs| - 1 :: xs[1..][i] == xs[i + 1];
      SumBounds(xs[1..], lo, hi);
    }
  }
}
