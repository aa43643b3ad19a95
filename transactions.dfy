/**
 * The uploaded sheet: an ordered sequence of transaction rows, plus the
 * column operations the dashboard applies to it (distinct values of a
 * column, its smallest and largest date) and the subsequence relation the
 * filtered view stands in to the sheet.
 */
module Transactions {

  /** One transaction row. Money (`Total`, `gross income`) is in cents and
      `Date` is a day number, so no floating point is involved. */
  datatype Row = Row(
    city: string,
    productLine: string,
    payment: string,
    date: int,
    total: int,
    grossIncome: int,
    quantity: int)

  /** A sheet: rows in the order the file lists them. */
  type Dataset = seq<Row>

  /** `xs` arises from `ys` by deleting elements, the rest kept in order. */
  predicate IsSubsequence<T(==)>(xs: seq<T>, ys: seq<T>)
    decreases |ys|
  {
    || xs == []
    || (&& ys != []
        && (|| (xs[0] == ys[0] && IsSubsequence(xs[1..], ys[1..]))
            || IsSubsequence(xs, ys[1..])))
  }

  /** Scanning past an element of `ys` keeps the relation. */
  lemma {:induction false} SubsequenceCons<T>(xs: seq<T>, y: T, ys: seq<T>)
    requires IsSubsequence(xs, ys)
    ensures IsSubsequence(xs, [y] + ys)
    ensures IsSubsequence([y] + xs, [y] + ys)
  {
    assert ([y] + ys)[1..] == ys;
    assert ([y] + xs)[1..] == xs;
  }

  /** Appending an element to both sides keeps the relation. */
  lemma {:induction false} SubsequenceSnoc<T>(xs: seq<T>, ys: seq<T>, y: T)
    requires IsSubsequence(xs, ys)
    ensures IsSubsequence(xs + [y], ys + [y])
    decreases |ys|
  {
    if xs == [] {
      assert xs + [y] == [y];
      SubsequenceFromNothing([y], ys);
    } else {
      assert ys != [];
      assert (xs + [y])[1..] == xs[1..] + [y];
      assert (ys + [y])[1..] == ys[1..] + [y];
      if xs[0] == ys[0] && IsSubsequence(xs[1..], ys[1..]) {
        SubsequenceSnoc(xs[1..], ys[1..], y);
      } else {
        SubsequenceSnoc(xs, ys[1..], y);
      }
    }
  }

  /** The single element `y` is a subsequence of `ys + [y]` for any `ys`. */
  lemma {:induction false} SubsequenceFromNothing<T>(ys0: seq<T>, ys: seq<T>)
    requires |ys0| == 1
    ensures IsSubsequence(ys0, ys + ys0)
    decreases |ys|
  {
    if ys == [] {
      assert ys + ys0 == ys0;
      assert IsSubsequence(ys0[1..], ys0[1..]);
    } else {
      assert (ys + ys0)[1..] == ys[1..] + ys0;
      SubsequenceFromNothing(ys0, ys[1..]);
    }
  }

  /** A prefix-closed step: `xs` in `ys` stays so when `ys` grows at the end. */
  lemma {:induction false} SubsequenceOfLonger<T>(xs: seq<T>, ys: seq<T>, y: T)
    requires IsSubsequence(xs, ys)
    ensures IsSubsequence(xs, ys + [y])
    decreases |ys|
  {
    if xs != [] {
      assert ys != [];
      assert (ys + [y])[1..] == ys[1..] + [y];
      if xs[0] == ys[0] && IsSubsequence(xs[1..], ys[1..]) {
        SubsequenceOfLonger(xs[1..], ys[1..], y);
      } else {
        SubsequenceOfLonger(xs, ys[1..], y);
      }
    }
  }

  /** No value is listed twice. */
  predicate DistinctValues(xs: seq<string>) {
    forall i, j :: 0 <= i < j < |xs| ==> xs[i] != xs[j]
  }

  /** `a` occurs in `xs` before the first occurrence of `b`. */
  predicate OccursBefore(xs: seq<string>, a: string, b: string) {
    exists p :: 0 <= p < |xs| && xs[p] == a && b !in xs[..p]
  }

  /** Whenever `u` lists `a` before `b`, `a` occurs in `xs` before the first
      occurrence of `b`. */
  predicate InFirstAppearanceOrder(u: seq<string>, xs: seq<string>) {
    forall i, j :: 0 <= i < j < |u| ==> OccursBefore(xs, u[i], u[j])
  }

  /** The distinct values of `xs` in order of first appearance, as pandas'
      `Series.unique()` lists them. */
  function Unique(xs: seq<string>): (u: seq<string>)
    ensures forall x :: x in u <==> x in xs
    ensures DistinctValues(u)
    ensures InFirstAppearanceOrder(u, xs)
    ensures IsSubsequence(u, xs)
    decreases |xs|
  {
    if xs == [] then []
    else
      var init := xs[..|xs| - 1];
      var last := xs[|xs| - 1];
      var u := Unique(init);
      assert xs == init + [last];
      FirstAppearanceSnoc(u, init, last);
      if last in u then
        SubsequenceOfLonger(u, init, last);
        u
      else
        SubsequenceSnoc(u, init, last);
        u + [last]
  }

  /** Appending `last` to the scanned values keeps the order; when `last` is
      new, it goes at the end. */
  lemma FirstAppearanceSnoc(u: seq<string>, init: seq<string>, last: string)
    requires forall x :: x in u <==> x in init
    requires InFirstAppearanceOrder(u, init)
    ensures last in u ==> InFirstAppearanceOrder(u, init + [last])
    ensures last !in u ==> InFirstAppearanceOrder(u + [last], init + [last])
  {
    var xs := init + [last];
    forall i, j | 0 <= i < j < |u|
      ensures OccursBefore(xs, u[i], u[j])
    {
      OccursBeforeSnoc(init, last, u[i], u[j]);
    }
    if last !in u {
      var v := u + [last];
      forall i, j | 0 <= i < j < |v|
        ensures OccursBefore(xs, v[i], v[j])
      {
        assert v[i] == u[i];
        if j < |u| {
          assert v[j] == u[j];
          OccursBeforeSnoc(init, last, u[i], u[j]);
        } else {
          assert v[j] == last && u[i] in init;
          OccursBeforeNew(init, last, u[i]);
        }
      }
    }
  }

  /** Growing `init` at the end keeps an earlier occurrence earlier. */
  lemma OccursBeforeSnoc(init: seq<string>, last: string, a: string, b: string)
    requires OccursBefore(init, a, b)
    ensures OccursBefore(init + [last], a, b)
  {
    var xs := init + [last];
    var p :| 0 <= p < |init| && init[p] == a && b !in init[..p];
    assert xs[..p] == init[..p];
    assert xs[p] == init[p];
  }

  /** A value of `init` occurs before a `last` that `init` does not hold. */
  lemma OccursBeforeNew(init: seq<string>, last: string, a: string)
    requires a in init && last !in init
    ensures OccursBefore(init + [last], a, last)
  {
    var xs := init + [last];
    var p :| 0 <= p < |init| && init[p] == a;
    assert xs[..p] == init[..p];
    assert xs[p] == init[p];
    assert last !in init[..p];
  }

  /** The key columns. */
  function CityOf(r: Row): string { r.city }
  function ProductLineOf(r: Row): string { r.productLine }
  function PaymentOf(r: Row): string { r.payment }
  function DateOf(r: Row): int { r.date }

  /** A category column of the sheet, such as `df["City"]`: one entry per row. */
  function Column(df: Dataset, key: Row -> string): (c: seq<string>)
    ensures |c| == |df| && forall i :: 0 <= i < |df| ==> c[i] == key(df[i])
  {
    seq(|df|, i requires 0 <= i < |df| => key(df[i]))
  }

  /** A column holds exactly the values its rows carry. */
  lemma ColumnValues(df: Dataset, key: Row -> string, v: string)
    ensures v in Column(df, key) <==> exists r :: r in df && key(r) == v
  {
    var c := Column(df, key);
    if v in c {
      var i :| 0 <= i < |df| && c[i] == v;
      assert df[i] in df;
    }
    if exists r :: r in df && key(r) == v {
      var r :| r in df && key(r) == v;
      var i :| 0 <= i < |df| && df[i] == r;
      assert c[i] == v;
    }
  }

  /** `df["Date"].min()` on a non-empty sheet. */
  function MinDate(df: Dataset): (d: int)
    requires |df| > 0
    ensures forall r :: r in df ==> d <= r.date
    ensures exists r :: r in df && r.date == d
  {
    if |df| == 1 then df[0].date
    else
      var rest := MinDate(df[1..]);
      assert forall r :: r in df ==> r == df[0] || r in df[1..];
      if df[0].date <= rest then df[0].date else rest
  }

  /** `df["Date"].max()` on a non-empty sheet. */
  function MaxDate(df: Dataset): (d: int)
    requires |df| > 0
    ensures forall r :: r in df ==> r.date <= d
    ensures exists r :: r in df && r.date == d
  {
    if |df| == 1 then df[0].date
    else
      var rest := MaxDate(df[1..]);
      assert forall r :: r in df ==> r == df[0] || r in df[1..];
      if rest <= df[0].date then df[0].date else rest
  }
}
