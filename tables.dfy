/**
 * The database queries both servers lean on, as functions over a table held as a
 * sequence of rows in storage order: first match (`findOne`, `SELECT ... fetch()`),
 * `ORDER BY key DESC LIMIT n` and SQL `SUM`.
 */
module Tables {
  import opened Wrappers

  /** Index of the first row satisfying `p`, if any. */
  function FirstMatch<T>(rows: seq<T>, p: T -> bool): (r: Option<nat>)
    ensures r.None? <==> forall i :: 0 <= i < |rows| ==> !p(rows[i])
    ensures r.Some? ==> r.value < |rows| && p(rows[r.value])
    ensures r.Some? ==> forall i :: 0 <= i < r.value ==> !p(rows[i])
    decreases |rows|
  {
    if rows == [] then None
    else if p(rows[0]) then Some(0)
    else
      var r := FirstMatch(rows[1..], p);
      assert forall i :: 1 <= i < |rows| ==> rows[i] == rows[1..][i - 1];
      if r.Some? then Some(r.value + 1) else None
  }

  /**
   * Sort keys may be NULL. NULL ranks below every value, which is where MySQL puts
   * NULLs in a descending order, and two NULLs tie, as documents missing a field do in Mongo.
   */
  predicate RankLe(a: Option<int>, b: Option<int>)
  {
    a.None? || (b.Some? && a.value <= b.value)
  }

  ghost predicate SortedDesc<T>(xs: seq<T>, key: T -> Option<int>)
  {
    forall i, j :: 0 <= i < j < |xs| ==> RankLe(key(xs[j]), key(xs[i]))
  }

  /** Places `x` in front of the first row that does not rank above it. */
  function Insert<T>(x: T, ys: seq<T>, key: T -> Option<int>): (r: seq<T>)
    requires SortedDesc(ys, key)
    ensures SortedDesc(r, key)
    ensures multiset(r) == multiset(ys) + multiset{x}
    decreases |ys|
  {
    if ys == [] || RankLe(key(ys[0]), key(x)) then [x] + ys
    else
      var rest := Insert(x, ys[1..], key);
      assert ys == [ys[0]] + ys[1..];
      forall j | 0 <= j < |rest|
        ensures RankLe(key(rest[j]), key(ys[0]))
      {
        assert rest[j] in multiset(rest);
        if rest[j] != x {
          assert rest[j] in multiset(ys[1..]);
          var k :| 0 <= k < |ys[1..]| && ys[1..][k] == rest[j];
          assert ys[k + 1] == rest[j];
        }
      }
      [ys[0]] + rest
  }

  /**
   * `ORDER BY key DESC`: a permutation of the rows in non-increasing key order; rows
   * with equal keys keep their storage order.
   */
  function SortDesc<T>(xs: seq<T>, key: T -> Option<int>): (r: seq<T>)
    ensures SortedDesc(r, key)
    ensures multiset(r) == multiset(xs)
    ensures |r| == |xs|
    decreases |xs|
  {
    if xs == [] then []
    else
      assert xs == [xs[0]] + xs[1..];
      var r := Insert(xs[0], SortDesc(xs[1..], key), key);
      assert |r| == |multiset(r)|;
      r
  }

  function Min(a: int, b: int): int
  {
    if a <= b then a else b
  }

  /** The larger of two numbers: JavaScript `Math.max` and SQL `GREATEST` on integers. */
  function Max(a: int, b: int): int
  {
    if a >= b then a else b
  }

  /**
   * `ORDER BY key DESC LIMIT n`: at most `n` rows, all taken from the table, in
   * non-increasing key order, and no row left out ranks above a row returned.
   */
  function TopN<T>(xs: seq<T>, n: nat, key: T -> Option<int>): (r: seq<T>)
    ensures |r| == Min(n, |xs|)
    ensures SortedDesc(r, key)
    ensures multiset(r) <= multiset(xs)
    ensures forall y, i :: y in multiset(xs) - multiset(r) && 0 <= i < |r| ==> RankLe(key(y), key(r[i]))
  {
    var s := SortDesc(xs, key);
    PrefixOutranksRest(s, Min(n, |xs|), key);
    s[..Min(n, |xs|)]
  }

  /** In a ranked table, every row past the first `m` ranks at most as high as each of those. */
  lemma PrefixOutranksRest<T>(s: seq<T>, m: nat, key: T -> Option<int>)
    requires SortedDesc(s, key) && m <= |s|
    ensures multiset(s[..m]) <= multiset(s)
    ensures forall y, i :: y in multiset(s) - multiset(s[..m]) && 0 <= i < m ==> RankLe(key(y), key(s[i]))
  {
    var r := s[..m];
    assert s == r + s[m..];
    assert multiset(s) == multiset(r) + multiset(s[m..]);
    forall y, i | y in multiset(s) - multiset(r) && 0 <= i < m
      ensures RankLe(key(y), key(s[i]))
    {
      assert y in multiset(s[m..]);
      var k :| 0 <= k < |s[m..]| && s[m..][k] == y;
      assert s[m + k] == y;
    }
  }

  /** Every row `TopN` returns is a row of the table. */
  lemma TopNRowIsTableRow<T>(xs: seq<T>, n: nat, key: T -> Option<int>, i: nat)
    requires i < |TopN(xs, n, key)|
    ensures TopN(xs, n, key)[i] in xs
  {
    var r := TopN(xs, n, key);
    assert r[i] in multiset(r);
  }

  /** `ORDER BY key DESC LIMIT 1` on a non-empty table gives a row of maximal rank. */
  lemma TopOneIsMaximal<T>(xs: seq<T>, key: T -> Option<int>)
    requires xs != []
    ensures |TopN(xs, 1, key)| == 1
    ensures TopN(xs, 1, key)[0] in xs
    ensures forall k :: 0 <= k < |xs| ==> RankLe(key(xs[k]), key(TopN(xs, 1, key)[0]))
  {
    var r := TopN(xs, 1, key);
    TopNRowIsTableRow(xs, 1, key, 0);
    assert r == [r[0]];
    assert multiset(r) == multiset{r[0]};
    forall k | 0 <= k < |xs|
      ensures RankLe(key(xs[k]), key(r[0]))
    {
      if xs[k] != r[0] {
        assert xs[k] in multiset(xs);
        assert xs[k] !in multiset(r);
        assert xs[k] in multiset(xs) - multiset(r);
      }
    }
  }

  /** SQL `COALESCE(SUM(column), 0)`: the sum of the non-NULL values, 0 when there are none. */
  function SumNonNull(xs: seq<Option<int>>): int
  {
    if xs == [] then 0
    else (if xs[0].Some? then xs[0].value else 0) + SumNonNull(xs[1..])
  }

  /** Summing splits over concatenation. */
  lemma {:induction false} SumNonNullAppend(xs: seq<Option<int>>, ys: seq<Option<int>>)
    ensures SumNonNull(xs + ys) == SumNonNull(xs) + SumNonNull(ys)
    decreases |xs|
  {
    if xs == [] {
      assert xs + ys == ys;
    } else {
      assert (xs + ys)[1..] == xs[1..] + ys;
      SumNonNullAppend(xs[1..], ys);
    }
  }

  /** With no negative value in the column the sum is not negative. */
  lemma {:induction false} SumNonNullNonNegative(xs: seq<Option<int>>)
    requires forall i :: 0 <= i < |xs| && xs[i].Some? ==> xs[i].value >= 0
    ensures SumNonNull(xs) >= 0
    decreases |xs|
  {
    if xs != [] {
      assert forall i :: 0 <= i < |xs[1..]| ==> xs[1..][i] == xs[i + 1];
      SumNonNullNonNegative(xs[1..]);
    }
  }
}
