/**
 * Column statistics over the integer columns N, P and K. pandas returns the
 * minimum and maximum of an integer column as integers, but its mean as a
 * float, which the insight code then converts back with Python's `int()`.
 */
module IntStats {
  import RealStats

  /** The smallest value of a non-empty column. */
  function Min(s: seq<int>): (m: int)
    requires |s| > 0
    ensures m in s
    ensures forall x :: x in s ==> m <= x
  {
    if |s| == 1 then s[0]
    else
      var rest := Min(s[1..]);
      assert s == [s[0]] + s[1..];
      if s[0] <= rest then s[0] else rest
  }

  /** The largest value of a non-empty column. */
  function Max(s: seq<int>): (m: int)
    requires |s| > 0
    ensures m in s
    ensures forall x :: x in s ==> x <= m
  {
    if |s| == 1 then s[0]
    else
      var rest := Max(s[1..]);
      assert s == [s[0]] + s[1..];
      if rest <= s[0] then s[0] else rest
  }

  function Sum(s: seq<int>): int {
    if s == [] then 0 else s[0] + Sum(s[1..])
  }

  /** The column as the floating-point values pandas averages. */
  function AsReals(s: seq<int>): (r: seq<real>)
    ensures |r| == |s|
    ensures forall i :: 0 <= i < |s| ==> r[i] == s[i] as real
  {
    seq(|s|, i requires 0 <= i < |s| => s[i] as real)
  }

  /** The exact arithmetic average of a non-empty integer column. */
  function Mean(s: seq<int>): real
    requires |s| > 0
  {
    RealStats.Mean(AsReals(s))
  }

  /**
   * Python's `int()` applied to a float: the fractional part is dropped,
   * rounding toward zero (not toward negative infinity, and not to nearest).
   */
  function Truncate(x: real): (r: int)
    ensures 0.0 <= x ==> r as real <= x < r as real + 1.0
    ensures x < 0.0 ==> r as real - 1.0 < x <= r as real
  {
    if x >= 0.0 then x.Floor else -((-x).Floor)
  }

  /**
   * The integer mean the insight record reports, `int(column.mean())`. It
   * never leaves the column's range, whatever the signs of the values.
   */
  function TruncatedMean(s: seq<int>): (m: int)
    requires |s| > 0
    ensures Min(s) <= m <= Max(s)
  {
    MeanBetweenMinMax(s);
    TruncateWithin(Mean(s), Min(s), Max(s));
    Truncate(Mean(s))
  }

  /** Summing the float copy of a column gives the integer sum. */
  lemma {:induction false} SumAsReals(s: seq<int>)
    ensures RealStats.Sum(AsReals(s)) == Sum(s) as real
  {
    if s != [] {
      assert AsReals(s)[1..] == AsReals(s[1..]);
      SumAsReals(s[1..]);
    }
  }

  /** Truncation keeps a real that lies between two integers between them. */
  lemma TruncateWithin(x: real, lo: int, hi: int)
    requires lo as real <= x <= hi as real
    ensures lo <= Truncate(x) <= hi
  {
  }

  /** The exact mean of a non-empty column lies between its minimum and maximum. */
  lemma MeanBetweenMinMax(s: seq<int>)
    requires |s| > 0
    ensures Min(s) as real <= Mean(s) <= Max(s) as real
  {
    var r := AsReals(s);
    forall x | x in r
      ensures Min(s) as real <= x <= Max(s) as real
    {
      var i :| 0 <= i < |r| && r[i] == x;
      assert s[i] in s;
    }
    RealStats.MeanWithin(r, Min(s) as real, Max(s) as real);
  }

  /**
   * On a column without negative values, truncating the mean is the same as
   * integer division of the sum by the count, so the mean is rounded down:
   * the count times the reported mean never exceeds the sum, and the next
   * integer up would.
   */
  lemma TruncatedMeanOfNonNegative(s: seq<int>)
    requires |s| > 0
    requires forall x :: x in s ==> 0 <= x
    ensures TruncatedMean(s) == Sum(s) / |s|
    ensures TruncatedMean(s) * |s| <= Sum(s) < (TruncatedMean(s) + 1) * |s|
  {
    var n, total := |s|, Sum(s);
    assert Mean(s) == total as real / n as real by {
      SumAsReals(s);
    }
    assert TruncatedMean(s) == total / n && (total / n) * n <= total < (total / n + 1) * n by {
      SumAtLeastZero(s);
      TruncateQuotient(total, n);
    }
  }

  lemma {:induction false} SumAtLeastZero(s: seq<int>)
    requires forall x :: x in s ==> 0 <= x
    ensures 0 <= Sum(s)
  {
    if s != [] {
      assert s[0] in s;
      assert forall x :: x in s[1..] ==> x in s;
      SumAtLeastZero(s[1..]);
    }
  }

  /**
   * For a non-negative numerator, truncating the exact quotient gives the
   * integer q with q * n <= total < (q + 1) * n, which is integer division.
   */
  lemma TruncateQuotient(total: int, n: int)
    requires 0 <= total && 0 < n
    ensures Truncate(total as real / n as real) == total / n
    ensures (total / n) * n <= total < (total / n + 1) * n
  {
    var d, r := total / n, total % n;
    assert total == d * n + r && 0 <= r < n;
    var tr, nr, dr, rr := total as real, n as real, d as real, r as real;
    var x := tr / nr;
    var xn, dn := x * nr, dr * nr;
    assert xn == tr;
    assert dn == (d * n) as real by {
      CastMul(d, n);
    }
    assert tr == dn + rr;
    assert 0.0 <= rr < nr;
    assert (dr + 1.0) * nr == dn + nr;
    CancelLe(dr, x, nr);
    CancelLt(x, dr + 1.0, nr);
    assert d as real <= x < d as real + 1.0;
  }

  /** Converting a product to a real is the product of the converted factors. */
  lemma CastMul(a: int, b: int)
    ensures (a * b) as real == a as real * b as real
  {
  }

  /** Dividing both sides of an inequality by a positive factor keeps it. */
  lemma CancelLe(a: real, b: real, n: real)
    requires 0.0 < n && a * n <= b * n
    ensures a <= b
  {
    assert (b - a) * n == b * n - a * n;
  }

  lemma CancelLt(a: real, b: real, n: real)
    requires 0.0 < n && a * n < b * n
    ensures a < b
  {
    assert (b - a) * n == b * n - a * n;
  }
}
