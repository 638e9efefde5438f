/**
 * The guarded divisions every ETL step uses: `num / den * 100 if den > 0 else 0`
 * and `num / den if den > 0 else 0`. Money, rates and averages are real numbers.
 */
module Rates {

  /** A percentage that is 0 when the denominator is not positive. */
  function Percent(num: real, den: real): (r: real)
    ensures den <= 0.0 ==> r == 0.0
    ensures den > 0.0 ==> r * den == num * 100.0
    ensures 0.0 <= num <= den ==> 0.0 <= r <= 100.0
  {
    if den > 0.0 then num / den * 100.0 else 0.0
  }

  /** A quotient that is 0 when the denominator is not positive. */
  function Ratio(num: real, den: real): (r: real)
    ensures den <= 0.0 ==> r == 0.0
    ensures den > 0.0 ==> r * den == num
    ensures 0.0 <= num && 0.0 <= den ==> 0.0 <= r
  {
    if den > 0.0 then num / den else 0.0
  }

  /** Percentages of disjoint parts of one whole add up. */
  lemma PercentAdd(a: real, b: real, den: real)
    ensures Percent(a, den) + Percent(b, den) == Percent(a + b, den)
  {
    if den > 0.0 {
      assert a / den + b / den == (a + b) / den;
    }
  }

  /** A larger numerator never gives a smaller percentage. */
  lemma PercentMonotone(a: real, b: real, den: real)
    requires a <= b
    ensures Percent(a, den) <= Percent(b, den)
  {
    if den > 0.0 {
      assert Percent(b, den) - Percent(a, den) == (b - a) / den * 100.0;
    }
  }
}
