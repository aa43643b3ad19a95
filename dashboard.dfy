/**
 * What one run of the dashboard computes from the sheet and the sidebar
 * state: the three KPI metrics and the five chart series, all from the same
 * filtered view, plus the choice between the upload prompt and the report.
 */
module Dashboard {
  import opened Transactions
  import opened Filtering
  import opened Aggregate

  /** The measure columns, as the pipeline reads them. */
  function Revenue(r: Row): int { r.total }
  function Profit(r: Row): int { r.grossIncome }
  function Quantity(r: Row): int { r.quantity }

  /** The three metrics above the charts. */
  datatype Kpis = Kpis(revenue: int, profit: int, quantity: int)

  /** The metrics and the five chart series (titles c1 to c5). */
  datatype Report = Report(
    kpis: Kpis,
    revenueByProductLine: map<string, int>,
    revenueByCity: map<string, int>,
    paymentCounts: map<string, int>,
    revenueByDate: map<int, int>,
    quantityByProductLine: map<string, int>)

  /** The report of an empty view. */
  const EMPTY_REPORT := Report(Kpis(0, 0, 0), map[], map[], map[], map[], map[])

  /** The three sums over the view. */
  function KpisOf(view: Dataset): (k: Kpis)
    ensures view == [] ==> k == Kpis(0, 0, 0)
  {
    Kpis(Sum(view, Revenue), Sum(view, Profit), Sum(view, Quantity))
  }

  /** All eight outputs, each derived from the same view. */
  function Summarize(view: Dataset): (rep: Report)
    ensures rep.revenueByProductLine.Keys == rep.quantityByProductLine.Keys == KeysOf(view, ProductLineOf)
    ensures rep.revenueByCity.Keys == KeysOf(view, CityOf)
    ensures rep.paymentCounts.Keys == KeysOf(view, PaymentOf)
    ensures rep.revenueByDate.Keys == KeysOf(view, DateOf)
    ensures forall p :: p in rep.paymentCounts ==> rep.paymentCounts[p] > 0
  {
    Report(
      KpisOf(view),
      GroupSum(view, ProductLineOf, Revenue),
      GroupSum(view, CityOf, Revenue),
      ValueCounts(view, PaymentOf),
      GroupSum(view, DateOf, Revenue),
      GroupSum(view, ProductLineOf, Quantity))
  }

  /** Filter, then summarize. */
  function BuildReport(df: Dataset, sel: Selection): Report {
    Summarize(Filtered(df, sel))
  }

  /** An empty view has zero metrics and empty series. */
  lemma EmptyViewReport()
    ensures Summarize([]) == EMPTY_REPORT
  {
    assert KeysOf([], ProductLineOf) == {};
    assert KeysOf([], CityOf) == {};
    assert KeysOf([], PaymentOf) == {};
    assert KeysOf([], DateOf) == {};
  }

  /** Each grouped series adds up to its metric; the payment counts add up
      to the number of rows in the view. */
  lemma SeriesAgreeWithKpis(df: Dataset, sel: Selection)
    ensures var rep := BuildReport(df, sel);
      && MapSum(rep.revenueByProductLine) == rep.kpis.revenue
      && MapSum(rep.revenueByCity) == rep.kpis.revenue
      && MapSum(rep.revenueByDate) == rep.kpis.revenue
      && MapSum(rep.quantityByProductLine) == rep.kpis.quantity
      && MapSum(rep.paymentCounts) == |Filtered(df, sel)|
  {
    var view := Filtered(df, sel);
    GroupSumTotal(view, ProductLineOf, Revenue);
    GroupSumTotal(view, CityOf, Revenue);
    GroupSumTotal(view, DateOf, Revenue);
    GroupSumTotal(view, ProductLineOf, Quantity);
    ValueCountsTotal(view, PaymentOf);
  }

  /** A city has a bar exactly when some row of the sheet with that city
      passes the filter; likewise for product lines, payments and dates. */
  lemma SeriesKeysArePresentValues(df: Dataset, sel: Selection)
    ensures var rep := BuildReport(df, sel);
      && (forall c :: c in rep.revenueByCity <==> exists r :: r in df && Keep(sel, r) && r.city == c)
      && (forall p :: p in rep.revenueByProductLine <==> exists r :: r in df && Keep(sel, r) && r.productLine == p)
      && (forall p :: p in rep.paymentCounts <==> exists r :: r in df && Keep(sel, r) && r.payment == p)
      && (forall d :: d in rep.revenueByDate <==> exists r :: r in df && Keep(sel, r) && r.date == d)
  {
    forall r ensures r in Filtered(df, sel) <==> r in df && Keep(sel, r) {
      FilteredMembership(df, sel, r);
    }
  }

  /** Each bar of a series is the metric of the rows in its group. */
  lemma SeriesEntries(view: Dataset, p: string, c: string, pay: string, d: int)
    ensures var rep := Summarize(view);
      && GetOrZero(rep.revenueByProductLine, p) == Sum(Matching(view, ProductLineOf, p), Revenue)
      && GetOrZero(rep.quantityByProductLine, p) == Sum(Matching(view, ProductLineOf, p), Quantity)
      && GetOrZero(rep.revenueByCity, c) == Sum(Matching(view, CityOf, c), Revenue)
      && GetOrZero(rep.revenueByDate, d) == Sum(Matching(view, DateOf, d), Revenue)
      && GetOrZero(rep.paymentCounts, pay) == |Matching(view, PaymentOf, pay)|
  {
    GroupSumAt(view, ProductLineOf, Revenue, p);
    GroupSumAt(view, ProductLineOf, Quantity, p);
    GroupSumAt(view, CityOf, Revenue, c);
    GroupSumAt(view, DateOf, Revenue, d);
    ValueCountsAt(view, PaymentOf, pay);
  }

  /** Deselecting every value of one category zeroes the whole report. */
  lemma EmptyCategoryReport(df: Dataset, sel: Selection)
    requires sel.cities == [] || sel.productLines == [] || sel.payments == []
    ensures BuildReport(df, sel) == EMPTY_REPORT
  {
    EmptyCategoryEmptiesView(df, sel);
    EmptyViewReport();
  }

  /** On load the report covers the whole sheet. */
  lemma DefaultReportCoversSheet(df: Dataset)
    requires |df| > 0
    ensures BuildReport(df, DefaultSelection(df)) == Summarize(df)
  {
    DefaultSelectionIsIdentity(df);
  }

  datatype Option<T> = None | Some(value: T)

  /** What the page shows. */
  datatype Screen =
    | UploadPrompt                // no file yet
    | IncompleteDateRange         // only one end of the range picked: `date_filter[1]` fails
    | Shown(report: Report)

  /** One run of the script: nothing is computed until a file is uploaded,
      and the date range picker must hand back both ends. */
  function Run(upload: Option<Dataset>, cities: seq<string>, productLines: seq<string>,
               payments: seq<string>, picked: seq<int>): (s: Screen)
    ensures upload == None <==> s == UploadPrompt
    ensures s == IncompleteDateRange <==> upload != None && |picked| < 2
    ensures s.Shown? ==>
      && |picked| >= 2 && upload.Some?
      && s.report == BuildReport(upload.value, Selection(cities, productLines, payments, picked[0], picked[1]))
  {
    match upload
    case None => UploadPrompt
    case Some(df) =>
      if |picked| < 2 then IncompleteDateRange
      else Shown(BuildReport(df, Selection(cities, productLines, payments, picked[0], picked[1])))
  }

  /** Left at their initial values, the widgets make the page report on the
      whole sheet. */
  lemma RunWithDefaultsShowsSheet(df: Dataset)
    requires |df| > 0
    ensures Run(Some(df), Unique(Column(df, CityOf)), Unique(Column(df, ProductLineOf)),
                Unique(Column(df, PaymentOf)),
                [MinDate(df), MaxDate(df)]) == Shown(Summarize(df))
  {
    DefaultReportCoversSheet(df);
  }
}
