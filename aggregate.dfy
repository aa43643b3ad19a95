/**
 * Column sums, `groupby(key)[measure].sum()` and `value_counts()` over a
 * sequence of rows, with the order-free sum of a map's values that ties a
 * grouped result back to the matching scalar total.
 */
module Aggregate {
  import opened Transactions

  /** `rows[measure].sum()`; the sum of no rows is 0. */
  function Sum(rows: seq<Row>, val: Row -> int): int
    decreases |rows|
  {
    if rows == [] then 0 else val(rows[0]) + Sum(rows[1..], val)
  }

  /** The rows whose key equals `k`, in order: one group of a group-by. */
  function Matching<K(==)>(rows: seq<Row>, key: Row -> K, k: K): (g: seq<Row>)
    ensures forall r :: r in g <==> r in rows && key(r) == k
    ensures forall r :: multiset(g)[r] == if key(r) == k then multiset(rows)[r] else 0
    decreases |rows|
  {
    if rows == [] then []
    else
      assert rows == [rows[0]] + rows[1..];
      assert forall r :: r in rows <==> r == rows[0] || r in rows[1..];
      (if key(rows[0]) == k then [rows[0]] else []) + Matching(rows[1..], key, k)
  }

  /** The distinct keys present in `rows`. */
  function KeysOf<K(==)>(rows: seq<Row>, key: Row -> K): set<K> {
    set r | r in rows :: key(r)
  }

  /** The value stored at `k`, or 0 when `k` is absent. */
  function GetOrZero<K(==)>(m: map<K, int>, k: K): int {
    if k in m then m[k] else 0
  }

  /** `groupby(key)[measure].sum()`: one entry per key present in the rows,
      none for keys that are absent. */
  function GroupSum<K(==)>(rows: seq<Row>, key: Row -> K, val: Row -> int): (g: map<K, int>)
    ensures g.Keys == KeysOf(rows, key)
    decreases |rows|
  {
    if rows == [] then map[]
    else
      var g := GroupSum(rows[1..], key, val);
      var k := key(rows[0]);
      assert forall r :: r in rows <==> r == rows[0] || r in rows[1..];
      g[k := GetOrZero(g, k) + val(rows[0])]
  }

  /** `value_counts()`: how many rows carry each key present. */
  function ValueCounts<K(==)>(rows: seq<Row>, key: Row -> K): (c: map<K, int>)
    ensures c.Keys == KeysOf(rows, key)
    ensures forall k :: k in c ==> c[k] > 0
  {
    GroupSumPositive(rows, key, (r: Row) => 1);
    GroupSum(rows, key, (r: Row) => 1)
  }

  /** A measure that is positive on every row gives positive group sums. */
  lemma {:induction false} GroupSumPositive<K>(rows: seq<Row>, key: Row -> K, val: Row -> int)
    requires forall r :: r in rows ==> val(r) > 0
    ensures forall k :: k in GroupSum(rows, key, val) ==> GroupSum(rows, key, val)[k] > 0
    decreases |rows|
  {
    if rows != [] {
      assert forall r :: r in rows[1..] ==> r in rows;
      GroupSumPositive(rows[1..], key, val);
    }
  }

  /** Each group's entry is the sum of the measure over that group's rows. */
  lemma {:induction false} GroupSumAt<K>(rows: seq<Row>, key: Row -> K, val: Row -> int, k: K)
    ensures GetOrZero(GroupSum(rows, key, val), k) == Sum(Matching(rows, key, k), val)
    decreases |rows|
  {
    if rows != [] {
      GroupSumAt(rows[1..], key, val, k);
      var rest := Matching(rows[1..], key, k);
      if key(rows[0]) == k {
        assert Matching(rows, key, k) == [rows[0]] + rest;
        assert ([rows[0]] + rest)[1..] == rest;
      } else {
        assert Matching(rows, key, k) == rest;
      }
    }
  }

  /** Each count is the size of the group. */
  lemma ValueCountsAt<K>(rows: seq<Row>, key: Row -> K, k: K)
    ensures GetOrZero(ValueCounts(rows, key), k) == |Matching(rows, key, k)|
  {
    GroupSumAt(rows, key, (r: Row) => 1, k);
    SumOfOnes(Matching(rows, key, k));
  }

  /** Summing 1 per row counts the rows. */
  lemma {:induction false} SumOfOnes(rows: seq<Row>)
    ensures Sum(rows, (r: Row) => 1) == |rows|
    decreases |rows|
  {
    if rows != [] {
      SumOfOnes(rows[1..]);
    }
  }

  /** The sum of a map's values over all its keys, in no particular order. */
  ghost function MapSum<K>(m: map<K, int>): int
    decreases |m|
  {
    if m == map[] then 0
    else
      var k :| k in m;
      m[k] + MapSum(m - {k})
  }

  /** Any key may be taken out first: the sum does not depend on the order. */
  lemma {:induction false} MapSumRemove<K>(m: map<K, int>, k: K)
    requires k in m
    ensures MapSum(m) == m[k] + MapSum(m - {k})
    decreases |m|
  {
    var j :| j in m && MapSum(m) == m[j] + MapSum(m - {j});
    if j != k {
      assert k in m - {j} && j in m - {k};
      MapSumRemove(m - {j}, k);
      MapSumRemove(m - {k}, j);
      assert m - {j} - {k} == m - {k} - {j};
    }
  }

  /** Adding `v` to the entry at `k` (creating it at 0 if absent) adds `v`
      to the sum. */
  lemma MapSumUpdate<K>(m: map<K, int>, k: K, v: int)
    ensures MapSum(m[k := GetOrZero(m, k) + v]) == MapSum(m) + v
  {
    var m' := m[k := GetOrZero(m, k) + v];
    MapSumRemove(m', k);
    if k in m {
      MapSumRemove(m, k);
      assert m' - {k} == m - {k};
    } else {
      assert m' - {k} == m;
    }
  }

  /** The group sums add up to the column sum. */
  lemma {:induction false} GroupSumTotal<K>(rows: seq<Row>, key: Row -> K, val: Row -> int)
    ensures MapSum(GroupSum(rows, key, val)) == Sum(rows, val)
    decreases |rows|
  {
    if rows != [] {
      var g := GroupSum(rows[1..], key, val);
      GroupSumTotal(rows[1..], key, val);
      MapSumUpdate(g, key(rows[0]), val(rows[0]));
    }
  }

  /** The counts add up to the number of rows. */
  lemma ValueCountsTotal<K>(rows: seq<Row>, key: Row -> K)
    ensures MapSum(ValueCounts(rows, key)) == |rows|
  {
    GroupSumTotal(rows, key, (r: Row) => 1);
    SumOfOnes(rows);
  }
}
