/** The pandas operations the dashboard relies on, over a table given as a
    sequence of rows: column sums, the mean, and `groupby` followed by a
    per-group sum. Values are exact integers (amounts in minor units). */
module Aggregation {
  import opened Wrappers

  /** `Series.sum()` of the column `val`; 0 on an empty table. */
  function Sum<T>(xs: seq<T>, val: T -> int): int
  {
    if |xs| == 0 then 0 else val(xs[0]) + Sum(xs[1..], val)
  }

  lemma {:induction false} SumConcat<T>(xs: seq<T>, ys: seq<T>, val: T -> int)
    ensures Sum(xs + ys, val) == Sum(xs, val) + Sum(ys, val)
  {
    if |xs| == 0 {
      assert xs + ys == ys;
    } else {
      assert (xs + ys)[1..] == xs[1..] + ys;
      SumConcat(xs[1..], ys, val);
    }
  }

  /** `Series.mean()`: absent (pandas' NaN) on an empty table, otherwise the
      value that, times the row count, gives the column sum. */
  function Mean<T>(xs: seq<T>, val: T -> int): (m: Option<real>)
    ensures m.Some? <==> |xs| > 0
    ensures m.Some? ==> m.value * (|xs| as real) == Sum(xs, val) as real
  {
    if |xs| == 0 then None else Some(Sum(xs, val) as real / |xs| as real)
  }

  /** A rewriting helper: `Mean`'s own contract with the row count and the
      column sum replaced by figures the caller already knows, so callers
      need not unfold `Sum`. */
  lemma MeanTimesCount<T>(xs: seq<T>, val: T -> int, count: nat, total: int)
    requires count == |xs| && total == Sum(xs, val)
    ensures Mean(xs, val).Some? <==> count > 0
    ensures Mean(xs, val).Some? ==> Mean(xs, val).value * (count as real) == total as real
  {
  }

  /** The distinct values of the key column. */
  function KeysOf<T, K(==)>(xs: seq<T>, key: T -> K): set<K>
  {
    set i | 0 <= i < |xs| :: key(xs[i])
  }

  /** No two rows share a value of `name`. */
  ghost predicate Distinct<T, K>(xs: seq<T>, name: T -> K)
  {
    forall i, j :: 0 <= i < j < |xs| ==> name(xs[i]) != name(xs[j])
  }

  /** Reordering rows keeps the set of distinct keys. */
  lemma KeysOfPermutation<T, K>(xs: seq<T>, ys: seq<T>, key: T -> K)
    requires multiset(xs) == multiset(ys)
    ensures KeysOf(xs, key) == KeysOf(ys, key)
  {
    forall i | 0 <= i < |xs| ensures key(xs[i]) in KeysOf(ys, key) {
      assert xs[i] in multiset(ys);
      var j :| 0 <= j < |ys| && ys[j] == xs[i];
    }
    forall j | 0 <= j < |ys| ensures key(ys[j]) in KeysOf(xs, key) {
      assert ys[j] in multiset(xs);
      var i :| 0 <= i < |xs| && xs[i] == ys[j];
    }
  }

  lemma KeysOfSnoc<T, K>(xs: seq<T>, x: T, key: T -> K)
    ensures KeysOf(xs + [x], key) == KeysOf(xs, key) + {key(x)}
  {
    var ys := xs + [x];
    assert forall i :: 0 <= i < |xs| ==> ys[i] == xs[i];
    assert key(ys[|xs|]) == key(x);
  }

  /** There are at most as many distinct keys as rows, and none exactly when
      there are no rows (`DataFrame.nunique`, `GroupBy.ngroups`). */
  lemma {:induction false} KeysOfBound<T, K>(xs: seq<T>, key: T -> K)
    ensures |KeysOf(xs, key)| <= |xs|
    ensures |KeysOf(xs, key)| == 0 <==> |xs| == 0
  {
    if |xs| > 0 {
      var init := xs[..|xs| - 1];
      assert xs == init + [xs[|xs| - 1]];
      KeysOfSnoc(init, xs[|xs| - 1], key);
      KeysOfBound(init, key);
    }
  }

  /** The rows whose key is `k`, in table order: the rows of one group. */
  function Select<T, K(==)>(xs: seq<T>, key: T -> K, k: K): seq<T>
  {
    if |xs| == 0 then []
    else Select(xs[..|xs| - 1], key, k) + (if key(xs[|xs| - 1]) == k then [xs[|xs| - 1]] else [])
  }

  lemma SelectSnoc<T, K>(xs: seq<T>, x: T, key: T -> K, k: K)
    ensures Select(xs + [x], key, k) == Select(xs, key, k) + (if key(x) == k then [x] else [])
  {
  }

  lemma {:induction false} SelectAbsent<T, K>(xs: seq<T>, key: T -> K, k: K)
    requires k !in KeysOf(xs, key)
    ensures Select(xs, key, k) == []
  {
    if |xs| > 0 {
      var init := xs[..|xs| - 1];
      assert xs == init + [xs[|xs| - 1]];
      KeysOfSnoc(init, xs[|xs| - 1], key);
      SelectAbsent(init, key, k);
    }
  }

  /** One group of a `groupby`: its key and its rows in table order. */
  datatype Group<T, K> = Group(key: K, rows: seq<T>)

  /** The position of the group with key `k`, or -1 if there is none. */
  function FindGroup<T, K(==)>(gs: seq<Group<T, K>>, k: K): (i: int)
    ensures -1 <= i < |gs|
    ensures 0 <= i ==> gs[i].key == k
    ensures i < 0 ==> forall j :: 0 <= j < |gs| ==> gs[j].key != k
  {
    if |gs| == 0 then -1
    else if gs[|gs| - 1].key == k then |gs| - 1
    else FindGroup(gs[..|gs| - 1], k)
  }

  /** Files row `x` into its group, opening a new group at the end when its
      key has not been seen. */
  function Place<T, K(==)>(gs: seq<Group<T, K>>, x: T, key: T -> K): seq<Group<T, K>>
  {
    var i := FindGroup(gs, key(x));
    if i < 0 then gs + [Group(key(x), [x])]
    else gs[i := Group(gs[i].key, gs[i].rows + [x])]
  }

  /** `df.groupby(key)`: the groups, in order of first appearance. */
  function GroupBy<T, K(==)>(xs: seq<T>, key: T -> K): seq<Group<T, K>>
  {
    if |xs| == 0 then [] else Place(GroupBy(xs[..|xs| - 1], key), xs[|xs| - 1], key)
  }

  function GroupKeys<T, K>(gs: seq<Group<T, K>>): set<K>
  {
    set i | 0 <= i < |gs| :: gs[i].key
  }

  /** `gs` is the grouping of `xs` by `key`: one non-empty group per distinct
      key, holding exactly the rows with that key. */
  ghost predicate Partitions<T, K>(gs: seq<Group<T, K>>, xs: seq<T>, key: T -> K)
  {
    && (forall i, j :: 0 <= i < j < |gs| ==> gs[i].key != gs[j].key)
    && (forall i :: 0 <= i < |gs| ==> gs[i].rows == Select(xs, key, gs[i].key))
    && (forall i :: 0 <= i < |gs| ==> gs[i].rows != [])
    && GroupKeys(gs) == KeysOf(xs, key)
  }

  /** A row with an unseen key opens a new group at the end. */
  lemma PlaceNewKey<T, K>(gs: seq<Group<T, K>>, xs: seq<T>, x: T, key: T -> K)
    requires Partitions(gs, xs, key)
    requires FindGroup(gs, key(x)) < 0
    ensures key(x) !in KeysOf(xs, key)
    ensures Partitions(gs + [Group(key(x), [x])], xs + [x], key)
  {
    var k := key(x);
    var ys := xs + [x];
    var gs' := gs + [Group(k, [x])];
    assert k !in GroupKeys(gs);
    KeysOfSnoc(xs, x, key);
    SelectAbsent(xs, key, k);
    SelectSnoc(xs, x, key, k);
    forall j | 0 <= j < |gs| ensures gs'[j].rows == Select(ys, key, gs'[j].key) {
      SelectSnoc(xs, x, key, gs[j].key);
    }
    assert GroupKeys(gs') == GroupKeys(gs) + {k} by {
      assert forall j :: 0 <= j < |gs| ==> gs'[j] == gs[j];
      assert gs'[|gs|].key == k;
    }
  }

  /** A row with a known key joins the end of that key's group. */
  lemma PlaceKnownKey<T, K>(gs: seq<Group<T, K>>, xs: seq<T>, x: T, key: T -> K, i: nat)
    requires Partitions(gs, xs, key)
    requires i < |gs| && gs[i].key == key(x)
    ensures key(x) in KeysOf(xs, key)
    ensures Partitions(gs[i := Group(gs[i].key, gs[i].rows + [x])], xs + [x], key)
  {
    var k := key(x);
    var ys := xs + [x];
    var gs' := gs[i := Group(gs[i].key, gs[i].rows + [x])];
    assert k in GroupKeys(gs);
    KeysOfSnoc(xs, x, key);
    forall j | 0 <= j < |gs| ensures gs'[j].rows == Select(ys, key, gs'[j].key) {
      SelectSnoc(xs, x, key, gs[j].key);
    }
    assert GroupKeys(gs') == GroupKeys(gs) by {
      assert forall j :: 0 <= j < |gs| ==> gs'[j].key == gs[j].key;
    }
  }

  lemma PlaceKeepsPartition<T, K>(gs: seq<Group<T, K>>, xs: seq<T>, x: T, key: T -> K)
    requires Partitions(gs, xs, key)
    ensures Partitions(Place(gs, x, key), xs + [x], key)
    ensures |Place(gs, x, key)| == |gs| + (if key(x) in KeysOf(xs, key) then 0 else 1)
  {
    var i := FindGroup(gs, key(x));
    if i < 0 {
      PlaceNewKey(gs, xs, x, key);
    } else {
      PlaceKnownKey(gs, xs, x, key, i);
    }
  }

  /** Grouping partitions the table, with as many groups as distinct keys. */
  lemma {:induction false} GroupByPartitions<T, K>(xs: seq<T>, key: T -> K)
    ensures Partitions(GroupBy(xs, key), xs, key)
    ensures |GroupBy(xs, key)| == |KeysOf(xs, key)|
  {
    if |xs| > 0 {
      var init := xs[..|xs| - 1];
      var x := xs[|xs| - 1];
      assert xs == init + [x];
      GroupByPartitions(init, key);
      PlaceKeepsPartition(GroupBy(init, key), init, x, key);
      KeysOfSnoc(init, x, key);
    }
  }

  /** The sum of `val` over all rows of all groups. */
  function GroupSum<T, K>(gs: seq<Group<T, K>>, val: T -> int): int
  {
    if |gs| == 0 then 0 else Sum(gs[0].rows, val) + GroupSum(gs[1..], val)
  }

  lemma {:induction false} GroupSumSnoc<T, K>(gs: seq<Group<T, K>>, g: Group<T, K>, val: T -> int)
    ensures GroupSum(gs + [g], val) == GroupSum(gs, val) + Sum(g.rows, val)
  {
    if |gs| > 0 {
      assert (gs + [g])[1..] == gs[1..] + [g];
      GroupSumSnoc(gs[1..], g, val);
    }
  }

  lemma {:induction false} GroupSumUpdate<T, K>(gs: seq<Group<T, K>>, i: nat, g: Group<T, K>, val: T -> int)
    requires i < |gs|
    ensures GroupSum(gs[i := g], val) == GroupSum(gs, val) - Sum(gs[i].rows, val) + Sum(g.rows, val)
  {
    if i == 0 {
      assert gs[i := g][1..] == gs[1..];
    } else {
      assert gs[i := g][1..] == gs[1..][i - 1 := g];
      GroupSumUpdate(gs[1..], i - 1, g, val);
    }
  }

  /** Grouping neither loses nor duplicates a row: the group sums add up to
      the column sum. */
  lemma {:induction false} GroupByConserves<T, K>(xs: seq<T>, key: T -> K, val: T -> int)
    ensures GroupSum(GroupBy(xs, key), val) == Sum(xs, val)
  {
    if |xs| > 0 {
      var init := xs[..|xs| - 1];
      var x := xs[|xs| - 1];
      assert xs == init + [x];
      GroupByConserves(init, key, val);
      SumConcat(init, [x], val);
      var gs := GroupBy(init, key);
      var i := FindGroup(gs, key(x));
      if i < 0 {
        GroupSumSnoc(gs, Group(key(x), [x]), val);
      } else {
        SumConcat(gs[i].rows, [x], val);
        GroupSumUpdate(gs, i, Group(gs[i].key, gs[i].rows + [x]), val);
      }
    }
  }

  /** A table with one row per group whose column `col` holds the group's
      sum of `val` has the same column total as the groups. */
  lemma {:induction false} TableOfGroups<T, K, R>(gs: seq<Group<T, K>>, val: T -> int, table: seq<R>, col: R -> int)
    requires |table| == |gs|
    requires forall i :: 0 <= i < |gs| ==> col(table[i]) == Sum(gs[i].rows, val)
    ensures Sum(table, col) == GroupSum(gs, val)
  {
    if |gs| > 0 {
      TableOfGroups(gs[1..], val, table[1..], col);
    }
  }

  /** One row of `df.groupby(key)[val].sum().reset_index()`. */
  datatype KeyTotal<K> = KeyTotal(key: K, total: int)

  function TotalOf<K>(t: KeyTotal<K>): int { t.total }

  function KeyOf<K>(t: KeyTotal<K>): K { t.key }

  /** `df.groupby(key)[val].sum().reset_index()`. */
  function GroupTotals<T, K(==)>(xs: seq<T>, key: T -> K, val: T -> int): seq<KeyTotal<K>>
  {
    var gs := GroupBy(xs, key);
    seq(|gs|, i requires 0 <= i < |gs| => KeyTotal(gs[i].key, Sum(gs[i].rows, val)))
  }

  /** The grouped sum has one row per distinct key, each row's total is the
      sum over exactly the rows with that key, and the totals add up to the
      column sum. */
  lemma GroupTotalsSpec<T, K>(xs: seq<T>, key: T -> K, val: T -> int)
    ensures var t := GroupTotals(xs, key, val);
      && |t| == |KeysOf(xs, key)|
      && Distinct(t, KeyOf)
      && KeysOf(t, KeyOf) == KeysOf(xs, key)
      && (forall i :: 0 <= i < |t| ==> t[i].total == Sum(Select(xs, key, t[i].key), val))
      && Sum(t, TotalOf) == Sum(xs, val)
  {
    var gs := GroupBy(xs, key);
    var t := GroupTotals(xs, key, val);
    GroupByPartitions(xs, key);
    GroupByConserves(xs, key, val);
    TableOfGroups(gs, val, t, TotalOf);
    assert KeysOf(t, KeyOf) == GroupKeys(gs) by {
      assert forall i :: 0 <= i < |t| ==> KeyOf(t[i]) == gs[i].key;
    }
  }
}
