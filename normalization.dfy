/** The three normalization primitives of the scoring pipeline: min-max scaling,
    mid-rank percentile against a reference population, and the Likert adjustment. */
module Normalization {

  /** Linear map of value from [lo, hi] onto [0, 10]. A degenerate range gives 0;
      values outside [lo, hi] are not clamped and land outside [0, 10]. */
  function MinMaxScale(value: real, lo: real, hi: real): (r: real)
    ensures lo == hi ==> r == 0.0
    ensures lo != hi && value == lo ==> r == 0.0
    ensures lo != hi && value == hi ==> r == 10.0
    ensures lo < hi ==> (0.0 <= r <= 10.0 <==> lo <= value <= hi)
  {
    if hi == lo then 0.0
    else
      var span := hi - lo;
      var scaled := 10.0 * (value - lo);
      DivideSelf(10.0, span);
      assert span > 0.0 ==> (0.0 <= scaled / span <= 10.0 <==> 0.0 <= scaled <= 10.0 * span) by {
        if span > 0.0 {
          QuotientMonotone(0.0, scaled, span);
          QuotientMonotone(scaled, 10.0 * span, span);
        }
      }
      scaled / span
  }

  lemma DivideSelf(c: real, d: real)
    requires d != 0.0
    ensures (c * d) / d == c
  {
  }

  /** Division by a positive number preserves order both ways. */
  lemma QuotientMonotone(a: real, b: real, d: real)
    requires d > 0.0
    ensures a <= b <==> a / d <= b / d
  {
    if a <= b {
      assert b / d - a / d == (b - a) / d;
    } else {
      assert a / d - b / d == (a - b) / d;
    }
  }

  /** Over a proper range the scale is strictly increasing in value. */
  lemma MinMaxScaleMonotone(v1: real, v2: real, lo: real, hi: real)
    requires lo < hi && v1 <= v2
    ensures MinMaxScale(v1, lo, hi) <= MinMaxScale(v2, lo, hi)
    ensures v1 < v2 ==> MinMaxScale(v1, lo, hi) < MinMaxScale(v2, lo, hi)
  {
    var d := hi - lo;
    assert MinMaxScale(v2, lo, hi) - MinMaxScale(v1, lo, hi) == 10.0 * (v2 - v1) / d;
  }

  /** Number of elements of s strictly below v. */
  function CountLess(s: seq<real>, v: real): nat
  {
    if s == [] then 0 else (if s[0] < v then 1 else 0) + CountLess(s[1..], v)
  }

  /** Number of elements of s equal to v. */
  function CountEqual(s: seq<real>, v: real): nat
  {
    if s == [] then 0 else (if s[0] == v then 1 else 0) + CountEqual(s[1..], v)
  }

  /** Number of elements of s strictly above v. */
  function CountGreater(s: seq<real>, v: real): nat
  {
    if s == [] then 0 else (if s[0] > v then 1 else 0) + CountGreater(s[1..], v)
  }

  /** Mid-rank percentile of value within the series, on the 0-10 scale;
      an empty series gives 0. */
  function PercentileScore(value: real, series: seq<real>): (r: real)
    ensures series == [] ==> r == 0.0
    ensures series != [] ==>
      r * |series| as real == 10.0 * (CountLess(series, value) as real + 0.5 * CountEqual(series, value) as real)
  {
    if |series| == 0 then 0.0
    else
      var rank := (CountLess(series, value) as real + 0.5 * CountEqual(series, value) as real) / |series| as real;
      10.0 * rank
  }

  /** Transforms an average 1-5 Likert rating to 0-10; linear and unclamped. */
  function SurveyAdjust(rating: real): (r: real)
    ensures rating == 1.0 ==> r == 0.0
    ensures rating == 3.0 ==> r == 5.0
    ensures rating == 5.0 ==> r == 10.0
    ensures 0.0 <= r <= 10.0 <==> 1.0 <= rating <= 5.0
  {
    2.5 * (rating - 1.0)
  }

  /** Each element is less than, equal to or greater than v, exactly one of the three. */
  lemma {:induction false} CountsPartition(s: seq<real>, v: real)
    ensures CountLess(s, v) + CountEqual(s, v) + CountGreater(s, v) == |s|
  {
    if s != [] {
      CountsPartition(s[1..], v);
    }
  }

  lemma {:induction false} CountsWhenAllAbove(s: seq<real>, v: real)
    requires forall i :: 0 <= i < |s| ==> v < s[i]
    ensures CountLess(s, v) == 0 && CountEqual(s, v) == 0
  {
    if s != [] {
      CountsWhenAllAbove(s[1..], v);
    }
  }

  lemma {:induction false} CountsWhenAllBelow(s: seq<real>, v: real)
    requires forall i :: 0 <= i < |s| ==> s[i] < v
    ensures CountLess(s, v) == |s| && CountEqual(s, v) == 0
  {
    if s != [] {
      CountsWhenAllBelow(s[1..], v);
    }
  }

  lemma {:induction false} CountsWhenAllEqual(s: seq<real>, v: real)
    requires forall i :: 0 <= i < |s| ==> s[i] == v
    ensures CountLess(s, v) == 0 && CountEqual(s, v) == |s|
  {
    if s != [] {
      CountsWhenAllEqual(s[1..], v);
    }
  }

  lemma {:induction false} CountEqualOfMember(s: seq<real>, v: real)
    requires v in s
    ensures CountEqual(s, v) >= 1
  {
    if s[0] != v {
      CountEqualOfMember(s[1..], v);
    }
  }

  /** The doubled mid-rank count 2 * #less + #equal never decreases as v grows. */
  lemma {:induction false} MidRankCountMonotone(s: seq<real>, v1: real, v2: real)
    requires v1 <= v2
    ensures 2 * CountLess(s, v1) + CountEqual(s, v1) <= 2 * CountLess(s, v2) + CountEqual(s, v2)
  {
    if s != [] {
      MidRankCountMonotone(s[1..], v1, v2);
    }
  }

  /** Appending x to a series adds one to exactly the count that x falls into. */
  lemma {:induction false} CountsOfAppend(s: seq<real>, x: real, v: real)
    ensures CountLess(s + [x], v) == CountLess(s, v) + (if x < v then 1 else 0)
    ensures CountEqual(s + [x], v) == CountEqual(s, v) + (if x == v then 1 else 0)
  {
    if s == [] {
      assert [] + [x] == [x];
    } else {
      assert (s + [x])[1..] == s[1..] + [x];
      CountsOfAppend(s[1..], x, v);
    }
  }

  /** The percentile always lies in [0, 10]. */
  lemma PercentileInRange(value: real, series: seq<real>)
    ensures 0.0 <= PercentileScore(value, series) <= 10.0
  {
    if series != [] {
      CountsPartition(series, value);
      var n := |series| as real;
      var mid := CountLess(series, value) as real + 0.5 * CountEqual(series, value) as real;
      assert 0.0 <= mid <= n;
      TenfoldRatioInScale(mid, n);
    }
  }

  lemma TenfoldRatioInScale(part: real, whole: real)
    requires 0.0 <= part <= whole && whole > 0.0
    ensures 0.0 <= 10.0 * (part / whole) <= 10.0
  {
    QuotientMonotone(part, whole, whole);
    QuotientMonotone(0.0, part, whole);
    assert whole / whole == 1.0;
  }

  /** A value below every element ranks 0. */
  lemma PercentileBelowAll(value: real, series: seq<real>)
    requires forall i :: 0 <= i < |series| ==> value < series[i]
    ensures PercentileScore(value, series) == 0.0
  {
    CountsWhenAllAbove(series, value);
  }

  /** A value above every element of a non-empty series ranks 10. */
  lemma PercentileAboveAll(value: real, series: seq<real>)
    requires series != []
    requires forall i :: 0 <= i < |series| ==> series[i] < value
    ensures PercentileScore(value, series) == 10.0
  {
    CountsWhenAllBelow(series, value);
    var n := |series| as real;
    assert (n + 0.5 * 0.0) / n == 1.0;
  }

  /** A value equal to every element of a non-empty series ranks 5 (mid-rank). */
  lemma PercentileAllEqual(value: real, series: seq<real>)
    requires series != []
    requires forall i :: 0 <= i < |series| ==> series[i] == value
    ensures PercentileScore(value, series) == 5.0
  {
    CountsWhenAllEqual(series, value);
    var n := |series| as real;
    assert (0.0 + 0.5 * n) / n == 0.5;
  }

  /** A value that occurs in the series ranks strictly above 0. */
  lemma PercentileOfMemberPositive(value: real, series: seq<real>)
    requires value in series
    ensures PercentileScore(value, series) > 0.0
  {
    CountEqualOfMember(series, value);
    var n := |series| as real;
    assert PercentileScore(value, series) * n > 0.0;
  }

  /** Against a fixed series, the percentile is monotone in the value. */
  lemma PercentileMonotone(v1: real, v2: real, series: seq<real>)
    requires v1 <= v2
    ensures PercentileScore(v1, series) <= PercentileScore(v2, series)
  {
    if series != [] {
      MidRankCountMonotone(series, v1, v2);
      var n := |series| as real;
      var mid1 := CountLess(series, v1) as real + 0.5 * CountEqual(series, v1) as real;
      var mid2 := CountLess(series, v2) as real + 0.5 * CountEqual(series, v2) as real;
      QuotientMonotone(mid1, mid2, n);
    }
  }
}
