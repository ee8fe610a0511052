/** Sums, weighted sums, means and descending sort over sequences of reals.
    These stand in for numpy's sum, mean and Python's sorted(..., reverse=True). */
module Series {

  function Sum(s: seq<real>): real
  {
    if s == [] then 0.0 else s[0] + Sum(s[1..])
  }

  /** Arithmetic mean, as numpy's mean of a non-empty list; the mean of a list of equal
      values is that value. */
  function Mean(s: seq<real>): (r: real)
    requires |s| > 0
    ensures (forall i :: 0 <= i < |s| ==> s[i] == s[0]) ==> r == s[0]
  {
    SumOfConstant(s, s[0]);
    Sum(s) / |s| as real
  }

  lemma {:induction false} SumOfConstant(s: seq<real>, c: real)
    ensures (forall i :: 0 <= i < |s| ==> s[i] == c) ==> Sum(s) == c * |s| as real
  {
    if s != [] {
      assert forall i :: 0 <= i < |s[1..]| ==> s[1..][i] == s[i + 1];
      SumOfConstant(s[1..], c);
    }
  }

  /** Weighted sum: the sum of w[i] * v[i]. */
  function Dot(w: seq<real>, v: seq<real>): real
    requires |w| == |v|
  {
    if w == [] then 0.0 else w[0] * v[0] + Dot(w[1..], v[1..])
  }

  /** Dot written out for the sequence lengths the factor calculators use. */
  lemma DotOfThree(a: real, b: real, c: real, x: real, y: real, z: real)
    ensures Dot([a, b, c], [x, y, z]) == a * x + b * y + c * z
  {
    assert [a, b, c][1..] == [b, c] && [x, y, z][1..] == [y, z];
    assert [b, c][1..] == [c] && [y, z][1..] == [z];
    assert [c][1..] == [] && [z][1..] == [];
    assert Dot([c], [z]) == c * z + Dot([], []);
    assert Dot([b, c], [y, z]) == b * y + Dot([c], [z]);
    assert Dot([a, b, c], [x, y, z]) == a * x + Dot([b, c], [y, z]);
  }

  lemma DotOfFive(a: real, b: real, c: real, d: real, e: real,
                  x: real, y: real, z: real, u: real, t: real)
    ensures Dot([a, b, c, d, e], [x, y, z, u, t]) == a * x + b * y + c * z + d * u + e * t
  {
    assert [a, b, c, d, e][1..] == [b, c, d, e] && [x, y, z, u, t][1..] == [y, z, u, t];
    assert [b, c, d, e][1..] == [c, d, e] && [y, z, u, t][1..] == [z, u, t];
    DotOfThree(c, d, e, z, u, t);
    assert Dot([b, c, d, e], [y, z, u, t]) == b * y + Dot([c, d, e], [z, u, t]);
    assert Dot([a, b, c, d, e], [x, y, z, u, t]) == a * x + Dot([b, c, d, e], [y, z, u, t]);
  }

  lemma DotOfSix(a: real, b: real, c: real, d: real, e: real, f: real,
                 x: real, y: real, z: real, u: real, t: real, s: real)
    ensures Dot([a, b, c, d, e, f], [x, y, z, u, t, s]) == a * x + b * y + c * z + d * u + e * t + f * s
  {
    assert [a, b, c, d, e, f][1..] == [b, c, d, e, f] && [x, y, z, u, t, s][1..] == [y, z, u, t, s];
    DotOfFive(b, c, d, e, f, y, z, u, t, s);
    assert Dot([a, b, c, d, e, f], [x, y, z, u, t, s]) == a * x + Dot([b, c, d, e, f], [y, z, u, t, s]);
  }

  lemma SumOfThree(a: real, b: real, c: real)
    ensures Sum([a, b, c]) == a + b + c
  {
    assert [a, b, c][1..] == [b, c];
    assert [b, c][1..] == [c];
    assert [c][1..] == [];
    assert Sum([c]) == c;
    assert Sum([b, c]) == b + Sum([c]);
  }

  lemma SumOfSix(a: real, b: real, c: real, d: real, e: real, f: real)
    ensures Sum([a, b, c, d, e, f]) == a + b + c + d + e + f
  {
    assert [a, b, c, d, e, f][1..] == [b, c, d, e, f];
    SumOfFive(b, c, d, e, f);
  }

  lemma SumOfFive(a: real, b: real, c: real, d: real, e: real)
    ensures Sum([a, b, c, d, e]) == a + b + c + d + e
  {
    assert [a, b, c, d, e][1..] == [b, c, d, e];
    assert [b, c, d, e][1..] == [c, d, e];
    assert [c, d, e][1..] == [d, e];
    assert [d, e][1..] == [e];
    assert [e][1..] == [];
    assert Sum([e]) == e;
    assert Sum([d, e]) == d + Sum([e]);
    assert Sum([c, d, e]) == c + Sum([d, e]);
    assert Sum([b, c, d, e]) == b + Sum([c, d, e]);
    assert Sum([a, b, c, d, e]) == a + Sum([b, c, d, e]);
  }

  /** Non-negative weights that sum to one. */
  ghost predicate IsConvex(w: seq<real>)
  {
    (forall i :: 0 <= i < |w| ==> w[i] >= 0.0) && Sum(w) == 1.0
  }

  predicate SortedDesc(s: seq<real>)
  {
    forall i, j :: 0 <= i < j < |s| ==> s[i] >= s[j]
  }

  /** A weighted sum with non-negative weights lies between lo and hi times the total weight. */
  lemma DotBetween(w: seq<real>, v: seq<real>, lo: real, hi: real)
    requires |w| == |v|
    requires forall i :: 0 <= i < |w| ==> w[i] >= 0.0
    requires forall i :: 0 <= i < |v| ==> lo <= v[i] <= hi
    ensures lo * Sum(w) <= Dot(w, v) <= hi * Sum(w)
  {
    DotAtLeast(w, v, lo);
    DotAtMost(w, v, hi);
  }

  lemma {:induction false} DotAtLeast(w: seq<real>, v: seq<real>, lo: real)
    requires |w| == |v|
    requires forall i :: 0 <= i < |w| ==> w[i] >= 0.0
    requires forall i :: 0 <= i < |v| ==> lo <= v[i]
    ensures lo * Sum(w) <= Dot(w, v)
  {
    if w != [] {
      DotAtLeast(w[1..], v[1..], lo);
      StepAtLeast(w[0], v[0], Sum(w[1..]), Dot(w[1..], v[1..]), Sum(w), Dot(w, v), lo);
    }
  }

  lemma {:induction false} DotAtMost(w: seq<real>, v: seq<real>, hi: real)
    requires |w| == |v|
    requires forall i :: 0 <= i < |w| ==> w[i] >= 0.0
    requires forall i :: 0 <= i < |v| ==> v[i] <= hi
    ensures Dot(w, v) <= hi * Sum(w)
  {
    if w != [] {
      DotAtMost(w[1..], v[1..], hi);
      StepAtMost(w[0], v[0], Sum(w[1..]), Dot(w[1..], v[1..]), Sum(w), Dot(w, v), hi);
    }
  }

  /** One step of DotAtLeast: adding a term c * x with c >= 0 and x >= lo. */
  lemma StepAtLeast(c: real, x: real, sumRest: real, dotRest: real, total: real, dot: real, lo: real)
    requires c >= 0.0 && lo <= x && lo * sumRest <= dotRest
    requires total == c + sumRest && dot == c * x + dotRest
    ensures lo * total <= dot
  {
    assert c * x - c * lo == c * (x - lo);
    assert lo * total == lo * c + lo * sumRest;
  }

  /** One step of DotAtMost: adding a term c * x with c >= 0 and x <= hi. */
  lemma StepAtMost(c: real, x: real, sumRest: real, dotRest: real, total: real, dot: real, hi: real)
    requires c >= 0.0 && x <= hi && dotRest <= hi * sumRest
    requires total == c + sumRest && dot == c * x + dotRest
    ensures dot <= hi * total
  {
    assert c * hi - c * x == c * (hi - x);
    assert hi * total == hi * c + hi * sumRest;
  }

  /** A convex combination of values in [lo, hi] stays in [lo, hi]. */
  lemma ConvexCombinationBetween(w: seq<real>, v: seq<real>, lo: real, hi: real)
    requires |w| == |v| && IsConvex(w)
    requires forall i :: 0 <= i < |v| ==> lo <= v[i] <= hi
    ensures lo <= Dot(w, v) <= hi
  {
    DotBetween(w, v, lo, hi);
  }

  /** The mean of values that all exceed t exceeds t, and the mean of values at most hi is at most hi. */
  lemma {:induction false} SumBetween(s: seq<real>, t: real, hi: real)
    requires forall i :: 0 <= i < |s| ==> t < s[i] <= hi
    ensures |s| > 0 ==> t * |s| as real < Sum(s)
    ensures Sum(s) <= hi * |s| as real
  {
    if s != [] {
      SumBetween(s[1..], t, hi);
    }
  }

  lemma MeanBetween(s: seq<real>, t: real, hi: real)
    requires |s| > 0
    requires forall i :: 0 <= i < |s| ==> t < s[i] <= hi
    ensures t < Mean(s) <= hi
  {
    SumBetween(s, t, hi);
    var n := |s| as real;
    assert Mean(s) * n == Sum(s);
  }

  /** Inserts x into a descending sequence, before the first element not above it. */
  function Insert(x: real, s: seq<real>): (r: seq<real>)
    requires SortedDesc(s)
    ensures |r| == |s| + 1
    ensures r[0] == if s == [] || x >= s[0] then x else s[0]
    ensures SortedDesc(r)
    ensures multiset(r) == multiset(s) + multiset{x}
  {
    if s == [] then [x]
    else if x >= s[0] then
      SortedCons(x, s);
      [x] + s
    else
      assert s == [s[0]] + s[1..];
      SortedTail(s);
      var rest := Insert(x, s[1..]);
      SortedCons(s[0], rest);
      [s[0]] + rest
  }

  lemma SortedTail(s: seq<real>)
    requires SortedDesc(s) && s != []
    ensures SortedDesc(s[1..]) && (|s| > 1 ==> s[0] >= s[1])
  {
  }

  /** Putting y in front of a descending sequence whose head is at most y keeps it descending. */
  lemma SortedCons(y: real, t: seq<real>)
    requires SortedDesc(t) && (t != [] ==> y >= t[0])
    ensures SortedDesc([y] + t)
  {
    forall i, j | 0 <= i < j < |[y] + t|
      ensures ([y] + t)[i] >= ([y] + t)[j]
    {
      if i > 0 {
        assert ([y] + t)[i] == t[i - 1] && ([y] + t)[j] == t[j - 1];
      } else {
        assert ([y] + t)[j] == t[j - 1];
      }
    }
  }

  /** sorted(s, reverse=True): a descending permutation of s. */
  function SortDescending(s: seq<real>): (r: seq<real>)
    ensures SortedDesc(r)
    ensures multiset(r) == multiset(s)
  {
    if s == [] then []
    else
      assert s == [s[0]] + s[1..];
      Insert(s[0], SortDescending(s[1..]))
  }

  /** The first k elements of the descending sort are the k largest elements of s:
      they are drawn from s, and every element of s left over is at most the smallest of them. */
  lemma TopOfSortIsLargest(s: seq<real>, k: nat)
    requires 0 < k <= |s|
    ensures |SortDescending(s)| == |s|
    ensures multiset(SortDescending(s)[..k]) <= multiset(s)
    ensures forall x :: x in multiset(s) - multiset(SortDescending(s)[..k]) ==> x <= SortDescending(s)[k - 1]
  {
    var r := SortDescending(s);
    assert |r| == |s| by {
      assert |multiset(r)| == |multiset(s)|;
    }
    PrefixOfSortedIsLargest(r, k);
  }

  /** In a descending sequence, whatever lies outside the first k elements is at most the k-th. */
  lemma PrefixOfSortedIsLargest(r: seq<real>, k: nat)
    requires SortedDesc(r) && 0 < k <= |r|
    ensures multiset(r[..k]) <= multiset(r)
    ensures forall x :: x in multiset(r) - multiset(r[..k]) ==> x <= r[k - 1]
  {
    assert r == r[..k] + r[k..];
    assert multiset(r) == multiset(r[..k]) + multiset(r[k..]);
    forall x | x in multiset(r) - multiset(r[..k])
      ensures x <= r[k - 1]
    {
      assert x in multiset(r[k..]);
      var j :| 0 <= j < |r[k..]| && r[k..][j] == x;
      assert r[k + j] == x;
    }
  }
}
