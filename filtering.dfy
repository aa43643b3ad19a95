/**
 * The sidebar's filter selection and the filtered view: a boolean mask made
 * of three `isin` tests and two date comparisons joined with `&`, applied
 * to the sheet by mask indexing.
 */
module Filtering {
  import opened Transactions

  /** What the sidebar widgets hand back: the accepted values of each
      category (a list, as a multiselect returns it) and the two endpoints
      of the date range picker, both inclusive. */
  datatype Selection = Selection(
    cities: seq<string>,
    productLines: seq<string>,
    payments: seq<string>,
    start: int,
    end: int)

  /** The five tests a row must pass, joined by `&`. */
  predicate Keep(sel: Selection, r: Row) {
    && r.city in sel.cities
    && r.productLine in sel.productLines
    && r.payment in sel.payments
    && sel.start <= r.date
    && r.date <= sel.end
  }

  /** The boolean mask: entry `i` is the five tests joined by `&` on row `i`. */
  function Mask(df: Dataset, sel: Selection): (m: seq<bool>)
    ensures |m| == |df|
    ensures forall i :: 0 <= i < |df| ==> m[i] == Keep(sel, df[i])
  {
    seq(|df|, i requires 0 <= i < |df| => Keep(sel, df[i]))
  }

  /** Mask indexing `df[mask]`: the rows whose mask entry is true, in the
      sheet's order, one for each true entry. */
  function Select(df: Dataset, mask: seq<bool>): (v: Dataset)
    requires |mask| == |df|
    ensures IsSubsequence(v, df)
    ensures |v| == multiset(mask)[true]
    decreases |df|
  {
    if df == [] then []
    else
      var rest := Select(df[1..], mask[1..]);
      assert df == [df[0]] + df[1..];
      assert mask == [mask[0]] + mask[1..];
      SubsequenceCons(rest, df[0], df[1..]);
      if mask[0] then
        assert ([df[0]] + rest)[1..] == rest;
        [df[0]] + rest
      else
        rest
  }

  /** The filtered view the KPIs and charts are computed from. */
  function Filtered(df: Dataset, sel: Selection): Dataset {
    Select(df, Mask(df, sel))
  }

  /** The mask of a sheet's tail is the tail of its mask. */
  lemma MaskTail(df: Dataset, sel: Selection)
    requires df != []
    ensures Mask(df, sel)[1..] == Mask(df[1..], sel)
    ensures Mask(df, sel)[0] == Keep(sel, df[0])
  {
  }

  /** Peeling the first row off the sheet. */
  lemma FilteredCons(df: Dataset, sel: Selection)
    requires df != []
    ensures Filtered(df, sel) == (if Keep(sel, df[0]) then [df[0]] else []) + Filtered(df[1..], sel)
  {
    MaskTail(df, sel);
  }

  /** Mask indexing keeps the sheet's order and adds no rows. */
  lemma FilteredIsSubsequence(df: Dataset, sel: Selection)
    ensures IsSubsequence(Filtered(df, sel), df)
  {
  }

  /** A row is in the view exactly when it is in the sheet and passes all
      five tests. */
  lemma {:induction false} FilteredMembership(df: Dataset, sel: Selection, r: Row)
    ensures r in Filtered(df, sel) <==> r in df && Keep(sel, r)
    decreases |df|
  {
    if df != [] {
      FilteredCons(df, sel);
      FilteredMembership(df[1..], sel, r);
      assert df == [df[0]] + df[1..];
    }
  }

  /** Each row that passes appears in the view as often as in the sheet;
      each row that fails does not appear at all. */
  lemma {:induction false} FilteredMultiplicity(df: Dataset, sel: Selection, r: Row)
    ensures multiset(Filtered(df, sel))[r] == if Keep(sel, r) then multiset(df)[r] else 0
    decreases |df|
  {
    if df != [] {
      FilteredCons(df, sel);
      FilteredMultiplicity(df[1..], sel, r);
      assert df == [df[0]] + df[1..];
    }
  }

  /** A view in which nothing passes is empty. */
  lemma {:induction false} NothingPassesEmptyView(df: Dataset, sel: Selection)
    requires forall r :: r in df ==> !Keep(sel, r)
    ensures Filtered(df, sel) == []
  {
    if Filtered(df, sel) != [] {
      var r := Filtered(df, sel)[0];
      FilteredMembership(df, sel, r);
    }
  }

  /** `isin([])` is false everywhere: an empty category selection empties
      the view whatever the other filters say. */
  lemma EmptyCategoryEmptiesView(df: Dataset, sel: Selection)
    requires sel.cities == [] || sel.productLines == [] || sel.payments == []
    ensures Filtered(df, sel) == []
  {
    NothingPassesEmptyView(df, sel);
  }

  /** A reversed date range lets no row through. */
  lemma ReversedRangeEmptiesView(df: Dataset, sel: Selection)
    requires sel.end < sel.start
    ensures Filtered(df, sel) == []
  {
    NothingPassesEmptyView(df, sel);
  }

  /** The widgets' initial state: every distinct value of each
      category column and the date span of the whole sheet. */
  function DefaultSelection(df: Dataset): (sel: Selection)
    requires |df| > 0
    ensures forall r :: r in df ==> Keep(sel, r)
  {
    ColumnsHoldEveryRow(df);
    Selection(Unique(Column(df, CityOf)), Unique(Column(df, ProductLineOf)),
              Unique(Column(df, PaymentOf)), MinDate(df), MaxDate(df))
  }

  /** Each row's category values occur in their columns. */
  lemma ColumnsHoldEveryRow(df: Dataset)
    ensures forall r :: r in df ==>
      && r.city in Column(df, CityOf)
      && r.productLine in Column(df, ProductLineOf)
      && r.payment in Column(df, PaymentOf)
  {
    forall r | r in df
      ensures r.city in Column(df, CityOf) && r.productLine in Column(df, ProductLineOf)
              && r.payment in Column(df, PaymentOf)
    {
      ColumnValues(df, CityOf, r.city);
      ColumnValues(df, ProductLineOf, r.productLine);
      ColumnValues(df, PaymentOf, r.payment);
    }
  }

  /** A selection every row passes leaves the sheet unchanged. */
  lemma {:induction false} AllPassIdentity(df: Dataset, sel: Selection)
    requires forall r :: r in df ==> Keep(sel, r)
    ensures Filtered(df, sel) == df
    decreases |df|
  {
    if df != [] {
      FilteredCons(df, sel);
      assert df[0] in df;
      assert forall r :: r in df[1..] ==> r in df;
      AllPassIdentity(df[1..], sel);
      assert df == [df[0]] + df[1..];
    }
  }

  /** With the default selection the view is the whole sheet. */
  lemma DefaultSelectionIsIdentity(df: Dataset)
    requires |df| > 0
    ensures Filtered(df, DefaultSelection(df)) == df
  {
    AllPassIdentity(df, DefaultSelection(df));
  }

  /** The default selection offers each city once, and exactly the cities
      that occur in the sheet, in order of first appearance; likewise for
      product lines and payments. */
  lemma DefaultCitiesAreSheetCities(df: Dataset)
    requires |df| > 0
    ensures DistinctValues(DefaultSelection(df).cities)
    ensures InFirstAppearanceOrder(DefaultSelection(df).cities, Column(df, CityOf))
    ensures forall v :: v in DefaultSelection(df).cities <==> exists r :: r in df && r.city == v
  {
    var sel := DefaultSelection(df);
    forall v ensures v in sel.cities <==> exists r :: r in df && r.city == v {
      ColumnValues(df, CityOf, v);
    }
  }

  lemma DefaultProductLinesAreSheetProductLines(df: Dataset)
    requires |df| > 0
    ensures DistinctValues(DefaultSelection(df).productLines)
    ensures InFirstAppearanceOrder(DefaultSelection(df).productLines, Column(df, ProductLineOf))
    ensures forall v :: v in DefaultSelection(df).productLines <==> exists r :: r in df && r.productLine == v
  {
    var sel := DefaultSelection(df);
    forall v ensures v in sel.productLines <==> exists r :: r in df && r.productLine == v {
      ColumnValues(df, ProductLineOf, v);
    }
  }

  lemma DefaultPaymentsAreSheetPayments(df: Dataset)
    requires |df| > 0
    ensures DistinctValues(DefaultSelection(df).payments)
    ensures InFirstAppearanceOrder(DefaultSelection(df).payments, Column(df, PaymentOf))
    ensures forall v :: v in DefaultSelection(df).payments <==> exists r :: r in df && r.payment == v
  {
    var sel := DefaultSelection(df);
    forall v ensures v in sel.payments <==> exists r :: r in df && r.payment == v {
      ColumnValues(df, PaymentOf, v);
    }
  }
}
