/** The reductions of the statistics section: `np.min`, `np.max`, `np.mean`,
    `np.std` (population formula) and `np.unique`, over the flattened elements. */
module Stats {

  /** `np.min`: the least element; only defined on a non-empty array. */
  function Min(s: seq<int>): (r: int)
    requires |s| > 0
    ensures r in s
    ensures forall x :: x in s ==> r <= x
  {
    if |s| == 1 then s[0]
    else
      var m := Min(s[1..]);
      assert s == [s[0]] + s[1..];
      if s[0] <= m then s[0] else m
  }

  /** `np.max`: the greatest element; only defined on a non-empty array. */
  function Max(s: seq<int>): (r: int)
    requires |s| > 0
    ensures r in s
    ensures forall x :: x in s ==> x <= r
  {
    if |s| == 1 then s[0]
    else
      var m := Max(s[1..]);
      assert s == [s[0]] + s[1..];
      if m <= s[0] then s[0] else m
  }

  function Sum(s: seq<int>): int {
    if s == [] then 0 else s[0] + Sum(s[1..])
  }

  /** A sum of n elements that all lie in [lo, hi] lies in [n * lo, n * hi]. */
  lemma {:induction false} SumBetween(s: seq<int>, lo: int, hi: int)
    requires forall x :: x in s ==> lo <= x <= hi
    ensures lo * |s| <= Sum(s) <= hi * |s|
  {
    if s != [] {
      assert s[0] in s;
      assert forall x :: x in s[1..] ==> x in s;
      SumBetween(s[1..], lo, hi);
      assert lo * |s| == lo + lo * |s[1..]|;
      assert hi * |s| == hi + hi * |s[1..]|;
    }
  }

  lemma DivideBounds(lo: int, hi: int, total: int, n: nat)
    requires n > 0
    requires lo * n <= total <= hi * n
    ensures lo as real <= total as real / n as real <= hi as real
  {
    var q := total as real / n as real;
    assert q * n as real == total as real;
    assert (lo * n) as real == lo as real * n as real;
    assert (hi * n) as real == hi as real * n as real;
  }

  /** `np.mean`, taken as the exact quotient of the sum by the count: it lies
      between the least and the greatest element. */
  function Mean(s: seq<int>): (r: real)
    requires |s| > 0
    ensures Min(s) as real <= r <= Max(s) as real
  {
    SumBetween(s, Min(s), Max(s));
    DivideBounds(Min(s), Max(s), Sum(s), |s|);
    Sum(s) as real / |s| as real
  }

  /** Sum of the squared distances of the elements from `mu`. */
  function SquaredDeviations(s: seq<int>, mu: real): (r: real)
    ensures r >= 0.0
  {
    if s == [] then 0.0
    else (s[0] as real - mu) * (s[0] as real - mu) + SquaredDeviations(s[1..], mu)
  }

  /** The population variance, whose square root `np.std` reports: never
      negative, so the reported standard deviation is a real number >= 0. */
  function Variance(s: seq<int>): (r: real)
    requires |s| > 0
    ensures r >= 0.0
  {
    SquaredDeviations(s, Mean(s)) / |s| as real
  }

  /** Strictly ascending, hence without duplicates. */
  predicate Increasing(u: seq<int>) {
    forall i, j :: 0 <= i < j < |u| ==> u[i] < u[j]
  }

  /** Puts x into its place in an ascending sequence, unless it is already there. */
  function Insert(x: int, u: seq<int>): (r: seq<int>)
    requires Increasing(u)
    ensures Increasing(r)
    ensures forall y :: y in r <==> y == x || y in u
  {
    if u == [] then [x]
    else if x < u[0] then [x] + u
    else if x == u[0] then u
    else
      var rest := Insert(x, u[1..]);
      assert forall y :: y in u[1..] ==> u[0] < y;
      assert forall k :: 0 <= k < |rest| ==> rest[k] in rest;
      assert u == [u[0]] + u[1..];
      [u[0]] + rest
  }

  /** `np.unique`: the distinct elements, in ascending order. */
  function Unique(s: seq<int>): (u: seq<int>)
    ensures Increasing(u)
    ensures forall y :: y in u <==> y in s
  {
    if s == [] then []
    else
      assert s == [s[0]] + s[1..];
      Insert(s[0], Unique(s[1..]))
  }

  /** The set of distinct values of s. */
  function Distinct(s: seq<int>): set<int> {
    set x | x in s
  }

  lemma {:induction false} IncreasingHasNoRepeats(u: seq<int>)
    requires Increasing(u)
    ensures |Distinct(u)| == |u|
  {
    if u != [] {
      IncreasingHasNoRepeats(u[1..]);
      assert Distinct(u) == {u[0]} + Distinct(u[1..]);
      assert u[0] !in Distinct(u[1..]);
    }
  }

  /** The length of `np.unique(s)`, which the viewer prints as the number of
      unique values, is the number of distinct elements of s. */
  lemma UniqueCountsDistinct(s: seq<int>)
    ensures |Unique(s)| == |Distinct(s)|
  {
    IncreasingHasNoRepeats(Unique(s));
    assert Distinct(Unique(s)) == Distinct(s);
  }
}
