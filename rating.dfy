/** The arithmetic of the average-rating recomputation: the `reduce` that totals the ratings,
    `Math.round`, and rounding the mean to one decimal place. Ratings are exact reals. */
module Rating {

  /** `ratings.reduce((sum, r) => sum + r, 0)`: a left fold. */
  function Sum(xs: seq<real>): real {
    if xs == [] then 0.0 else Sum(xs[..|xs| - 1]) + xs[|xs| - 1]
  }

  /** `Math.round`: the nearest integer, a tie going toward +infinity. */
  function MathRound(x: real): (n: int)
    ensures n as real - 0.5 <= x < n as real + 0.5
  {
    (x + 0.5).Floor
  }

  /** `Math.round(x * 10) / 10`: the nearest multiple of one tenth, a tie going up. */
  function Round1(x: real): (r: real)
    ensures r - 0.05 <= x < r + 0.05
    ensures (r * 10.0).Floor as real == r * 10.0
  {
    MathRound(x * 10.0) as real / 10.0
  }

  predicate AllWithin(xs: seq<real>, lo: real, hi: real) {
    forall i :: 0 <= i < |xs| ==> lo <= xs[i] <= hi
  }

  function Mean(xs: seq<real>): real
    requires xs != []
  {
    Sum(xs) / |xs| as real
  }

  /** The value the aggregate writes: 0 without ratings, the mean rounded to one decimal otherwise. */
  function AverageRating(xs: seq<real>): (r: real)
    ensures xs == [] ==> r == 0.0
  {
    if |xs| == 0 then 0.0 else Round1(Mean(xs))
  }

  lemma {:induction false} SumConcat(a: seq<real>, b: seq<real>)
    ensures Sum(a + b) == Sum(a) + Sum(b)
  {
    if b == [] {
      assert a + b == a;
    } else {
      var b' := b[..|b| - 1];
      assert (a + b)[..|a + b| - 1] == a + b';
      SumConcat(a, b');
    }
  }

  /** The total depends only on the multiset of ratings, not on the order the store returns them in. */
  lemma {:induction false} SumPermutation(a: seq<real>, b: seq<real>)
    requires multiset(a) == multiset(b)
    ensures Sum(a) == Sum(b)
  {
    if a != [] {
      var a', x := a[..|a| - 1], a[|a| - 1];
      assert a == a' + [x];
      assert x in multiset(b);
      var i :| 0 <= i < |b| && b[i] == x;
      var b' := b[..i] + b[i + 1..];
      assert b == b[..i] + [x] + b[i + 1..];
      assert multiset(b) == multiset(b[..i]) + multiset{x} + multiset(b[i + 1..]);
      assert multiset(b') == multiset(b[..i]) + multiset(b[i + 1..]);
      assert multiset(a) == multiset(a') + multiset{x};
      assert multiset(a') == multiset(a) - multiset{x};
      assert multiset(b') == multiset(b) - multiset{x};
      SumPermutation(a', b');
      SumConcat(b[..i] + [x], b[i + 1..]);
      SumConcat(b[..i], [x]);
      SumConcat(b[..i], b[i + 1..]);
      assert Sum([x]) == x by { assert [x][..0] == []; }
    } else {
      assert |b| == |multiset(b)| == 0;
    }
  }

  /** A total of values in [lo, hi] lies between |xs| * lo and |xs| * hi. */
  lemma {:induction false} SumWithin(xs: seq<real>, lo: real, hi: real)
    requires AllWithin(xs, lo, hi)
    ensures |xs| as real * lo <= Sum(xs) <= |xs| as real * hi
  {
    if xs != [] {
      var init, last := xs[..|xs| - 1], xs[|xs| - 1];
      assert AllWithin(init, lo, hi) by {
        forall i | 0 <= i < |init| ensures lo <= init[i] <= hi { assert init[i] == xs[i]; }
      }
      SumWithin(init, lo, hi);
      var k := |init| as real;
      assert Sum(xs) == Sum(init) + last;
      assert |xs| as real * lo == k * lo + lo;
      assert |xs| as real * hi == k * hi + hi;
    }
  }

  /** Rounding is monotonic. */
  lemma Round1Monotonic(x: real, y: real)
    requires x <= y
    ensures Round1(x) <= Round1(y)
  {
    var m, n := MathRound(x * 10.0), MathRound(y * 10.0);
    assert m as real - 0.5 <= x * 10.0 <= y * 10.0 < n as real + 0.5;
    assert m <= n;
    assert Round1(x) == m as real / 10.0 && Round1(y) == n as real / 10.0;
  }

  /** Round1 is the one multiple of a tenth in [x - 0.05, x + 0.05) (ties go up), so any such
      value is the rounded one. */
  lemma Round1Unique(x: real, r: real)
    requires (r * 10.0).Floor as real == r * 10.0
    requires r - 0.05 <= x < r + 0.05
    ensures Round1(x) == r
  {
    var n := (r * 10.0).Floor;
    var m := MathRound(x * 10.0);
    assert n as real - 0.5 <= x * 10.0 < n as real + 0.5;
    assert m as real - 0.5 <= x * 10.0 < m as real + 0.5;
    assert n == m;
  }

  /** A value already on a tenth is left as it is. */
  lemma Round1OfTenth(n: int)
    ensures Round1(n as real / 10.0) == n as real / 10.0
  {
    Round1Unique(n as real / 10.0, n as real / 10.0);
  }

  /** At an exact x.x5 the value rounds up, as `Math.round` rounds halves toward +infinity. */
  lemma Round1TieGoesUp(n: int)
    ensures Round1(n as real / 10.0 + 0.05) == (n + 1) as real / 10.0
  {
    var x := n as real / 10.0 + 0.05;
    assert x * 10.0 + 0.5 == (n + 1) as real;
    assert MathRound(x * 10.0) == n + 1;
  }

  /** Ratings 4 and 4.5 have the mean 4.25, which is stored as 4.3. */
  lemma AverageAtTie()
    ensures AverageRating([4.0, 4.5]) == 4.3
  {
    assert Sum([4.0, 4.5]) == 8.5 by {
      assert [4.0, 4.5][..1] == [4.0];
      assert [4.0][..0] == [];
    }
    Round1TieGoesUp(42);
  }

  lemma QuotientWithin(s: real, n: real, lo: real, hi: real)
    requires n > 0.0 && lo * n <= s <= hi * n
    ensures lo <= s / n <= hi
  {
    assert (s / n - lo) * n == s - lo * n;
    assert (hi - s / n) * n == hi * n - s;
  }

  /** Ratings within [lo, hi], both multiples of a tenth, average (when there are any) to a value
      within [lo, hi]. */
  lemma {:induction false} AverageWithin(xs: seq<real>, lo: real, hi: real)
    requires xs != [] && AllWithin(xs, lo, hi)
    requires (lo * 10.0).Floor as real == lo * 10.0 && (hi * 10.0).Floor as real == hi * 10.0
    ensures lo <= AverageRating(xs) <= hi
  {
    var n := |xs| as real;
    SumWithin(xs, lo, hi);
    QuotientWithin(Sum(xs), n, lo, hi);
    Round1Monotonic(lo, Mean(xs));
    Round1Monotonic(Mean(xs), hi);
    Round1Unique(lo, lo);
    Round1Unique(hi, hi);
  }

  /** The average depends only on the multiset of ratings. */
  lemma AverageOfPermutation(a: seq<real>, b: seq<real>)
    requires multiset(a) == multiset(b)
    ensures AverageRating(a) == AverageRating(b)
  {
    assert |a| == |multiset(a)| == |multiset(b)| == |b|;
    SumPermutation(a, b);
  }
}
