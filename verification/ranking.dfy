/** `sort_values(ascending=False)`, `head(n)` and `tail(n)` on a table
    given as a sequence of rows ranked by an integer score. */
module Ranking {
  import opened Aggregation

  /** Rows are in non-increasing order of `score`. */
  ghost predicate NonIncreasing<T>(xs: seq<T>, score: T -> int)
  {
    forall i, j :: 0 <= i < j < |xs| ==> score(xs[i]) >= score(xs[j])
  }

  /** Puts `x` in front of the first row it does not score below. */
  function Insert<T>(x: T, xs: seq<T>, score: T -> int): seq<T>
  {
    if |xs| == 0 then [x]
    else if score(x) >= score(xs[0]) then [x] + xs
    else [xs[0]] + Insert(x, xs[1..], score)
  }

  /** Sorting by descending score. Ties may come out in any order, as with
      pandas' default (unstable) sort, so nothing is promised about them. */
  function SortDesc<T>(xs: seq<T>, score: T -> int): seq<T>
  {
    if |xs| == 0 then [] else Insert(xs[0], SortDesc(xs[1..], score), score)
  }

  lemma {:induction false} InsertPermutes<T>(x: T, xs: seq<T>, score: T -> int)
    ensures multiset(Insert(x, xs, score)) == multiset{x} + multiset(xs)
  {
    if |xs| > 0 && score(x) < score(xs[0]) {
      InsertPermutes(x, xs[1..], score);
      assert xs == [xs[0]] + xs[1..];
    }
  }

  lemma {:induction false} InsertSorted<T>(x: T, xs: seq<T>, score: T -> int)
    requires NonIncreasing(xs, score)
    ensures NonIncreasing(Insert(x, xs, score), score)
  {
    if |xs| == 0 {
    } else if score(x) >= score(xs[0]) {
      var r := [x] + xs;
      forall i, j | 0 <= i < j < |r| ensures score(r[i]) >= score(r[j]) {
        if i == 0 && j > 1 {
          assert score(xs[0]) >= score(xs[j - 1]);
        }
      }
    } else {
      var rest := Insert(x, xs[1..], score);
      InsertSorted(x, xs[1..], score);
      InsertMembers(x, xs[1..], score);
      var r := [xs[0]] + rest;
      forall i, j | 0 <= i < j < |r| ensures score(r[i]) >= score(r[j]) {
        if i == 0 {
          var y := rest[j - 1];
          assert y in rest;
          if y != x {
            var m :| 0 <= m < |xs[1..]| && xs[1..][m] == y;
            assert xs[m + 1] == y;
          }
        } else {
          assert r[i] == rest[i - 1] && r[j] == rest[j - 1];
        }
      }
    }
  }

  /** Sorting yields a non-increasing permutation of its input. */
  lemma {:induction false} SortDescSorts<T>(xs: seq<T>, score: T -> int)
    ensures multiset(SortDesc(xs, score)) == multiset(xs)
    ensures NonIncreasing(SortDesc(xs, score), score)
  {
    if |xs| > 0 {
      SortDescSorts(xs[1..], score);
      InsertPermutes(xs[0], SortDesc(xs[1..], score), score);
      InsertSorted(xs[0], SortDesc(xs[1..], score), score);
      assert xs == [xs[0]] + xs[1..];
    }
  }

  lemma {:induction false} InsertSum<T>(x: T, xs: seq<T>, score: T -> int, val: T -> int)
    ensures Sum(Insert(x, xs, score), val) == val(x) + Sum(xs, val)
  {
    if |xs| > 0 && score(x) < score(xs[0]) {
      InsertSum(x, xs[1..], score, val);
    }
  }

  /** Sorting moves rows but keeps every column total. */
  lemma {:induction false} SortDescSum<T>(xs: seq<T>, score: T -> int, val: T -> int)
    ensures Sum(SortDesc(xs, score), val) == Sum(xs, val)
  {
    if |xs| > 0 {
      SortDescSum(xs[1..], score, val);
      InsertSum(xs[0], SortDesc(xs[1..], score), score, val);
    }
  }

  lemma {:induction false} InsertDistinct<T, K>(x: T, xs: seq<T>, score: T -> int, name: T -> K)
    requires Distinct(xs, name)
    requires forall i :: 0 <= i < |xs| ==> name(xs[i]) != name(x)
    ensures Distinct(Insert(x, xs, score), name)
  {
    if |xs| > 0 && score(x) < score(xs[0]) {
      var rest := Insert(x, xs[1..], score);
      InsertDistinct(x, xs[1..], score, name);
      InsertMembers(x, xs[1..], score);
      forall k | 0 <= k < |rest| ensures name(rest[k]) != name(xs[0]) {
        var y := rest[k];
        assert y in rest;
        if y != x {
          var m :| 0 <= m < |xs[1..]| && xs[1..][m] == y;
          assert xs[m + 1] == y;
        }
      }
    }
  }

  lemma {:induction false} InsertMembers<T>(x: T, xs: seq<T>, score: T -> int)
    ensures forall y :: y in Insert(x, xs, score) ==> y == x || y in xs
  {
    if |xs| > 0 && score(x) < score(xs[0]) {
      InsertMembers(x, xs[1..], score);
      assert xs == [xs[0]] + xs[1..];
    }
  }

  /** Sorting keeps a key column free of repeats. */
  lemma {:induction false} SortDescDistinct<T, K>(xs: seq<T>, score: T -> int, name: T -> K)
    requires Distinct(xs, name)
    ensures Distinct(SortDesc(xs, score), name)
  {
    if |xs| > 0 {
      var rest := SortDesc(xs[1..], score);
      SortDescDistinct(xs[1..], score, name);
      SortDescSorts(xs[1..], score);
      forall k | 0 <= k < |rest| ensures name(rest[k]) != name(xs[0]) {
        assert rest[k] in multiset(xs[1..]);
      }
      InsertDistinct(xs[0], rest, score, name);
    }
  }

  /** `DataFrame.head(n)`: the first min(n, |xs|) rows. */
  function Head<T>(xs: seq<T>, n: nat): seq<T>
  {
    if n < |xs| then xs[..n] else xs
  }

  /** `DataFrame.tail(n)`: the last min(n, |xs|) rows. */
  function Tail<T>(xs: seq<T>, n: nat): seq<T>
  {
    if n < |xs| then xs[|xs| - n..] else xs
  }

  /** Position `p` of `xs` falls in both the head and the tail. */
  ghost predicate InHeadAndTail<T>(xs: seq<T>, n: nat, p: int)
  {
    0 <= p < |Head(xs, n)| && |xs| - |Tail(xs, n)| <= p < |xs|
  }

  /** Head and tail are a prefix and a suffix of min(n, |xs|) rows each, and
      they share a position exactly when the table is non-empty and shorter
      than 2n rows. */
  lemma HeadTailOverlap<T>(xs: seq<T>, n: nat)
    ensures |Head(xs, n)| == |Tail(xs, n)| == (if n < |xs| then n else |xs|)
    ensures Head(xs, n) == xs[..|Head(xs, n)|]
    ensures Tail(xs, n) == xs[|xs| - |Tail(xs, n)|..]
    ensures (exists p :: InHeadAndTail(xs, n, p)) <==> 0 < |xs| < 2 * n
  {
    if 0 < |xs| < 2 * n {
      assert InHeadAndTail(xs, n, |xs| - |Tail(xs, n)|);
    }
  }

  /** On a ranked table, every head row scores at least as high as every row
      after the head, and every tail row at most as high as every row before
      the tail. */
  lemma HeadTailRank<T>(xs: seq<T>, n: nat, score: T -> int)
    requires NonIncreasing(xs, score)
    ensures forall i, j :: 0 <= i < |Head(xs, n)| <= j < |xs| ==> score(Head(xs, n)[i]) >= score(xs[j])
    ensures forall i, j :: 0 <= i < |Tail(xs, n)| && 0 <= j < |xs| - |Tail(xs, n)| ==>
      score(xs[j]) >= score(Tail(xs, n)[i])
  {
  }
}
