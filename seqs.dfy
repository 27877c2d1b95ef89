/** `Array.prototype.filter`, `reduce` over a sum and counting, which every
    list screen applies to its records. */
module Seqs {

  /** `xs.filter(p)`. */
  function Filter<T>(xs: seq<T>, p: T -> bool): (r: seq<T>)
    ensures |r| <= |xs|
    ensures forall i :: 0 <= i < |r| ==> p(r[i])
  {
    if xs == [] then []
    else (if p(xs[0]) then [xs[0]] else []) + Filter(xs[1..], p)
  }

  /** `a` is `b` with some elements dropped, the rest kept in order. */
  ghost predicate IsSubseq<T>(a: seq<T>, b: seq<T>)
    decreases |b|
  {
    a == [] || (b != [] && ((a[0] == b[0] && IsSubseq(a[1..], b[1..])) || IsSubseq(a, b[1..])))
  }

  /** The filtered list keeps the records that pass, in their original order. */
  lemma {:induction false} FilterIsSubseq<T>(xs: seq<T>, p: T -> bool)
    ensures IsSubseq(Filter(xs, p), xs)
  {
    if xs != [] {
      FilterIsSubseq(xs[1..], p);
      if p(xs[0]) {
        assert Filter(xs, p)[0] == xs[0];
        assert Filter(xs, p)[1..] == Filter(xs[1..], p);
      } else {
        assert Filter(xs, p) == Filter(xs[1..], p);
      }
    }
  }

  /** A record is in the filtered list exactly when it is in the list and
      passes. */
  lemma {:induction false} FilterMembers<T>(xs: seq<T>, p: T -> bool, x: T)
    ensures x in Filter(xs, p) <==> x in xs && p(x)
  {
    if xs != [] {
      FilterMembers(xs[1..], p, x);
      assert xs == [xs[0]] + xs[1..];
    }
  }

  /** A filter every record passes keeps the whole list. */
  lemma {:induction false} FilterAll<T>(xs: seq<T>, p: T -> bool)
    requires forall i :: 0 <= i < |xs| ==> p(xs[i])
    ensures Filter(xs, p) == xs
  {
    if xs != [] {
      FilterAll(xs[1..], p);
    }
  }

  /** A filter no record passes keeps nothing. */
  lemma {:induction false} FilterNone<T>(xs: seq<T>, p: T -> bool)
    requires forall i :: 0 <= i < |xs| ==> !p(xs[i])
    ensures Filter(xs, p) == []
  {
    if xs != [] {
      FilterNone(xs[1..], p);
    }
  }

  /** Filtering a filtered list is filtering once by both predicates. */
  lemma {:induction false} FilterFilter<T>(xs: seq<T>, p: T -> bool, q: T -> bool)
    ensures Filter(Filter(xs, p), q) == Filter(xs, x => p(x) && q(x))
  {
    if xs != [] {
      FilterFilter(xs[1..], p, q);
      FilterAppend([xs[0]], xs[1..], p);
      FilterAppend(if p(xs[0]) then [xs[0]] else [], Filter(xs[1..], p), q);
    }
  }

  lemma {:induction false} FilterAppend<T>(a: seq<T>, b: seq<T>, p: T -> bool)
    ensures Filter(a + b, p) == Filter(a, p) + Filter(b, p)
  {
    if a != [] {
      assert (a + b)[1..] == a[1..] + b;
      FilterAppend(a[1..], b, p);
    } else {
      assert a + b == b;
    }
  }

  /** The number of records that pass `p`. */
  function CountIf<T>(xs: seq<T>, p: T -> bool): (n: nat)
    ensures n <= |xs|
  {
    if xs == [] then 0 else (if p(xs[0]) then 1 else 0) + CountIf(xs[1..], p)
  }

  /** Counting the records that pass is the length of the filtered list. */
  lemma {:induction false} CountIfFilter<T>(xs: seq<T>, p: T -> bool)
    ensures CountIf(xs, p) == |Filter(xs, p)|
  {
    if xs != [] {
      CountIfFilter(xs[1..], p);
    }
  }

  /** The records that pass and those that fail together make up the list. */
  lemma {:induction false} CountIfSplit<T>(xs: seq<T>, p: T -> bool)
    ensures CountIf(xs, p) + CountIf(xs, x => !p(x)) == |xs|
  {
    if xs != [] {
      CountIfSplit(xs[1..], p);
    }
  }

  /** `xs.reduce((sum, x) => sum + f(x), 0)`. */
  function SumOf<T>(xs: seq<T>, f: T -> int): int {
    if xs == [] then 0 else f(xs[0]) + SumOf(xs[1..], f)
  }

  /** A sum over non-negative terms is not negative. */
  lemma {:induction false} SumOfNonNegative<T>(xs: seq<T>, f: T -> int)
    requires forall i :: 0 <= i < |xs| ==> f(xs[i]) >= 0
    ensures SumOf(xs, f) >= 0
  {
    if xs != [] {
      SumOfNonNegative(xs[1..], f);
    }
  }

  /** Summing after filtering adds up only the terms of the records that pass. */
  lemma {:induction false} SumOfFilter<T>(xs: seq<T>, p: T -> bool, f: T -> int)
    ensures SumOf(Filter(xs, p), f) == SumOf(xs, x => if p(x) then f(x) else 0)
  {
    if xs != [] {
      SumOfFilter(xs[1..], p, f);
      var r := Filter(xs, p);
      if p(xs[0]) {
        assert r[0] == xs[0] && r[1..] == Filter(xs[1..], p);
      } else {
        assert r == Filter(xs[1..], p);
      }
    }
  }

  /** Every term lies between `lo` and `hi`, so the sum lies between
      `|xs| * lo` and `|xs| * hi`. */
  lemma {:induction false} SumOfBounds<T>(xs: seq<T>, f: T -> int, lo: int, hi: int)
    requires forall i :: 0 <= i < |xs| ==> lo <= f(xs[i]) <= hi
    ensures |xs| * lo <= SumOf(xs, f) <= |xs| * hi
  {
    if xs != [] {
      SumOfBounds(xs[1..], f, lo, hi);
    }
  }

  // ---------------------------------------------------------------- distinct values

  /** `xs.indexOf(x)` for an `x` that occurs. */
  function FirstIndex<T(==)>(xs: seq<T>, x: T): (k: nat)
    requires x in xs
    ensures k < |xs| && xs[k] == x && x !in xs[..k]
  {
    if xs[0] == x then 0
    else
      assert xs == [xs[0]] + xs[1..];
      var k := 1 + FirstIndex(xs[1..], x);
      assert xs[..k] == [xs[0]] + xs[1..][..k - 1];
      k
  }

  /** The first position holding `x` is what `FirstIndex` finds. */
  lemma {:induction false} FirstIndexUnique<T>(xs: seq<T>, x: T, k: nat)
    requires k < |xs| && xs[k] == x && x !in xs[..k]
    ensures FirstIndex(xs, x) == k
  {
  }

  /** An element of a prefix is first found at the same place in the whole. */
  lemma FirstIndexPrefix<T>(xs: seq<T>, n: nat, x: T)
    requires n <= |xs| && x in xs[..n]
    ensures FirstIndex(xs, x) == FirstIndex(xs[..n], x)
  {
    var k := FirstIndex(xs[..n], x);
    assert xs[..n][..k] == xs[..k];
    FirstIndexUnique(xs, x, k);
  }

  /** `Array.from(new Set(xs))`: each value once, in the order in which it
      first appears. */
  function Distinct<T(==)>(xs: seq<T>): (r: seq<T>)
    ensures forall x :: x in r ==> x in xs
    decreases |xs|
  {
    if xs == [] then []
    else
      var d := Distinct(xs[..|xs| - 1]);
      if xs[|xs| - 1] in d then d else d + [xs[|xs| - 1]]
  }

  /** The distinct values are the values of `xs`, each listed once, ordered
      by where they first appear in `xs`. */
  lemma {:induction false} DistinctContract<T>(xs: seq<T>)
    ensures forall x :: x in Distinct(xs) ==> x in xs
    ensures forall x :: x in xs ==> x in Distinct(xs)
    ensures forall i, j :: 0 <= i < j < |Distinct(xs)| ==> Distinct(xs)[i] != Distinct(xs)[j]
    ensures forall i, j :: 0 <= i < j < |Distinct(xs)| ==>
              FirstIndex(xs, Distinct(xs)[i]) < FirstIndex(xs, Distinct(xs)[j])
  {
    if xs != [] {
      var n := |xs|;
      var p, l := xs[..n - 1], xs[n - 1];
      assert xs == p + [l];
      DistinctContract(p);
      var d := Distinct(p);
      var r := Distinct(xs);
      forall y | y in d
        ensures y in xs && FirstIndex(xs, y) == FirstIndex(p, y) < n - 1
      {
        FirstIndexPrefix(xs, n - 1, y);
      }
      if l !in d {
        assert r == d + [l];
        FirstIndexUnique(xs, l, n - 1);
        forall i, j | 0 <= i < j < |r|
          ensures r[i] != r[j] && FirstIndex(xs, r[i]) < FirstIndex(xs, r[j])
        {
          assert r[i] == d[i];
          if j < |d| {
            assert r[j] == d[j];
          }
        }
      }
    }
  }

  /** No value is listed more often than in `xs`, so there are no more
      distinct values than values. */
  lemma {:induction false} DistinctLength<T>(xs: seq<T>)
    ensures |Distinct(xs)| <= |xs|
  {
    if xs != [] {
      DistinctLength(xs[..|xs| - 1]);
    }
  }
}
