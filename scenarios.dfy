/**
 * Three worked examples on a three-row sheet. Money is in cents
 * (10000 is 100.00); day 19723 is 2024-01-01.
 */
module Scenarios {
  import opened Transactions
  import opened Filtering
  import opened Aggregate
  import opened Dashboard

  const JAN_1 := 19723
  const JAN_2 := 19724
  const JAN_3 := 19725

  const ROW_1 := Row("A", "Drinks", "Cash", JAN_1, 10000, 1000, 5)
  const ROW_2 := Row("B", "Food", "Card", JAN_2, 20000, 2000, 3)
  const ROW_3 := Row("A", "Drinks", "Card", JAN_3, 5000, 500, 1)
  const SHEET: Dataset := [ROW_1, ROW_2, ROW_3]

  const ALL_PRODUCTS := ["Drinks", "Food"]
  const ALL_PAYMENTS := ["Cash", "Card"]

  /** The view of `SHEET`, row by row. */
  lemma SheetView(sel: Selection)
    ensures Filtered(SHEET, sel) ==
      (if Keep(sel, ROW_1) then [ROW_1] else []) +
      (if Keep(sel, ROW_2) then [ROW_2] else []) +
      (if Keep(sel, ROW_3) then [ROW_3] else [])
  {
    FilteredCons(SHEET, sel);
    assert SHEET[1..] == [ROW_2, ROW_3];
    FilteredCons([ROW_2, ROW_3], sel);
    assert [ROW_2, ROW_3][1..] == [ROW_3];
    FilteredCons([ROW_3], sel);
    assert [ROW_3][1..] == [];
  }

  /** Only city A: rows 1 and 3, 150.00 revenue, all of it for Drinks and
      for city A. */
  lemma CityAOnly()
    ensures Filtered(SHEET, Selection(["A"], ALL_PRODUCTS, ALL_PAYMENTS, JAN_1, JAN_3)) == [ROW_1, ROW_3]
    ensures var rep := BuildReport(SHEET, Selection(["A"], ALL_PRODUCTS, ALL_PAYMENTS, JAN_1, JAN_3));
      && rep.kpis == Kpis(15000, 1500, 6)
      && rep.revenueByProductLine == map["Drinks" := 15000]
      && rep.revenueByCity == map["A" := 15000]
      && rep.paymentCounts == map["Cash" := 1, "Card" := 1]
  {
    SheetView(Selection(["A"], ALL_PRODUCTS, ALL_PAYMENTS, JAN_1, JAN_3));
    CityAKpis();
    CityASeries();
  }

  lemma CityAKpis()
    ensures KpisOf([ROW_1, ROW_3]) == Kpis(15000, 1500, 6)
  {
    assert [ROW_1, ROW_3][1..] == [ROW_3];
    assert [ROW_3][1..] == [];
    assert Sum([ROW_3], Revenue) == 5000;
    assert Sum([ROW_3], Profit) == 500;
    assert Sum([ROW_3], Quantity) == 1;
  }

  lemma CityASeries()
    ensures GroupSum([ROW_1, ROW_3], ProductLineOf, Revenue) == map["Drinks" := 15000]
    ensures GroupSum([ROW_1, ROW_3], CityOf, Revenue) == map["A" := 15000]
    ensures ValueCounts([ROW_1, ROW_3], PaymentOf) == map["Cash" := 1, "Card" := 1]
  {
    assert [ROW_1, ROW_3][1..] == [ROW_3];
    assert [ROW_3][1..] == [];
    assert GroupSum([ROW_3], ProductLineOf, Revenue) == map["Drinks" := 5000];
    assert GroupSum([ROW_3], CityOf, Revenue) == map["A" := 5000];
    assert GroupSum([ROW_3], PaymentOf, (r: Row) => 1) == map["Card" := 1];
    assert GroupSum([ROW_1, ROW_3], PaymentOf, (r: Row) => 1) == map["Card" := 1, "Cash" := 1];
  }

  /** No product line selected: nothing passes. */
  lemma NoProductLines()
    ensures BuildReport(SHEET, Selection(["A", "B"], [], ALL_PAYMENTS, JAN_1, JAN_3)) == EMPTY_REPORT
  {
    EmptyCategoryReport(SHEET, Selection(["A", "B"], [], ALL_PAYMENTS, JAN_1, JAN_3));
  }

  /** A one-day range keeps only that day's row. */
  lemma {:induction false} SecondDayOnly()
    ensures Filtered(SHEET, Selection(["A", "B"], ALL_PRODUCTS, ALL_PAYMENTS, JAN_2, JAN_2)) == [ROW_2]
    ensures BuildReport(SHEET, Selection(["A", "B"], ALL_PRODUCTS, ALL_PAYMENTS, JAN_2, JAN_2)).kpis.revenue == 20000
  {
    var sel := Selection(["A", "B"], ALL_PRODUCTS, ALL_PAYMENTS, JAN_2, JAN_2);
    SheetView(sel);
    assert [ROW_2][1..] == [];
    assert Sum([ROW_2], Revenue) == 20000;
  }
}
