/** The analytics graph (frontend/src/components/GraphComponent.jsx): the per-target queries,
    the strict client-side yield filter, one chart series per target, the rendered charts and
    the page arithmetic of the PDF export. */
module GraphComponent {
  import opened Common
  import opened Models
  import opened FilterComponent
  import Views

  // ---------------------------------------------------------------------------------------
  // The per-target query

  /** A date bound of the snapshot counts when its input holds text. */
  predicate BoundSet(bound: Option<Param>) {
    bound.Some? && Truthy(bound.value.text)
  }

  /** The query string of fetchGraphData for one target: the farmer, the target under `field`
      whatever the scope, and the dates under `date_after` / `date_before` when set. The
      farmer id is never read as a date. */
  function GraphQueryParams(filters: Filters, filterValue: string): (p: Views.QueryParams)
    ensures "farmer" in p && p["farmer"].text == filters.farmer
    ensures "field" in p && p["field"].text == filterValue
    ensures "date_after" in p <==> BoundSet(filters.startDate)
    ensures "date_before" in p <==> BoundSet(filters.endDate)
    ensures "date_after" in p ==> p["date_after"] == filters.startDate.value
    ensures "date_before" in p ==> p["date_before"] == filters.endDate.value
    ensures "crop" !in p && "startDate" !in p && "endDate" !in p
  {
    var base := map["farmer" := Param(filters.farmer, None), "field" := Param(filterValue, None)];
    var withAfter := if BoundSet(filters.startDate) then base["date_after" := filters.startDate.value] else base;
    if BoundSet(filters.endDate) then withAfter["date_before" := filters.endDate.value] else withAfter
  }

  /** As sent, the soil-test query never carries the date range the soil view reads
      (`startDate` and `endDate`), so every test on the chosen field is listed whatever the
      chosen dates. */
  lemma SoilQueryIgnoresChosenDates(t: Tables, user: Id, filters: Filters, filterValue: string, s: SoilTestRecord)
    requires filters.viewType == Soil
    requires Truthy(filterValue) && ',' !in filterValue
    requires s in t.soilTests && Views.OwnsField(t, user, s.field) && s.field == filterValue
    ensures Views.SoilTestQuery(t, user, GraphQueryParams(filters, filterValue)).Ok?
    ensures s in Views.SoilTestQuery(t, user, GraphQueryParams(filters, filterValue)).value
  {
    var p := GraphQueryParams(filters, filterValue);
    SplitOfPiece(filterValue, ',');
    assert Views.Arg(p, "field") == filterValue;
    assert Views.Arg(p, "crop") == "" && !Views.SoilDated(p);
  }

  /** As sent, a crop-scoped soil query matches the crop id against the tests' field ids: a
      test of the chosen crop on a field with another id is not listed. */
  lemma CropScopeQueriesFields(t: Tables, user: Id, filters: Filters, filterValue: string, s: SoilTestRecord)
    requires filters.viewType == Soil && filters.filterType == Crop
    requires Truthy(filterValue) && ',' !in filterValue
    requires s.crop == filterValue && s.field != filterValue
    ensures Views.SoilTestQuery(t, user, GraphQueryParams(filters, filterValue)).Ok?
    ensures s !in Views.SoilTestQuery(t, user, GraphQueryParams(filters, filterValue)).value
  {
    var p := GraphQueryParams(filters, filterValue);
    SplitOfPiece(filterValue, ',');
    assert Views.Arg(p, "field") == filterValue;
    assert !Views.SoilDated(p);
  }

  /** The soil-test query the soil view evidently means: the target under the key of the
      chosen scope, and the chosen range under the names the soil-test view reads. */
  function SoilQueryParams(filters: Filters, filterValue: string): (p: Views.QueryParams)
    ensures "farmer" in p && p["farmer"].text == filters.farmer
    ensures filters.filterType == Field ==> "field" in p && p["field"].text == filterValue && "crop" !in p
    ensures filters.filterType == Crop ==> "crop" in p && p["crop"].text == filterValue && "field" !in p
    ensures "startDate" in p <==> BoundSet(filters.startDate)
    ensures "endDate" in p <==> BoundSet(filters.endDate)
    ensures "startDate" in p ==> p["startDate"] == filters.startDate.value
    ensures "endDate" in p ==> p["endDate"] == filters.endDate.value
  {
    var scope := if filters.filterType == Field then "field" else "crop";
    var base := map["farmer" := Param(filters.farmer, None), scope := Param(filterValue, None)];
    var withStart := if BoundSet(filters.startDate) then base["startDate" := filters.startDate.value] else base;
    if BoundSet(filters.endDate) then withStart["endDate" := filters.endDate.value] else withStart
  }

  /** With the corrected query a test is listed exactly when it is on one of the user's
      fields, matches the target in the chosen scope, and falls inside the chosen range. */
  lemma CorrectedSoilQuerySelects(t: Tables, user: Id, filters: Filters, filterValue: string, s: SoilTestRecord)
    requires filters.viewType == Soil
    requires Truthy(filterValue) && ',' !in filterValue
    requires BoundSet(filters.startDate) && BoundSet(filters.endDate)
    requires filters.startDate.value.asDay.Some? && filters.endDate.value.asDay.Some?
    requires s in t.soilTests
    ensures Views.SoilTestQuery(t, user, SoilQueryParams(filters, filterValue)).Ok?
    ensures s in Views.SoilTestQuery(t, user, SoilQueryParams(filters, filterValue)).value <==>
      && Views.OwnsField(t, user, s.field)
      && (if filters.filterType == Field then s.field else s.crop) == filterValue
      && filters.startDate.value.asDay.value <= s.testDate <= filters.endDate.value.asDay.value
  {
    var p := SoilQueryParams(filters, filterValue);
    SplitOfPiece(filterValue, ',');
    assert Views.SoilDated(p);
    assert Views.DayOf(p, "startDate") == filters.startDate.value.asDay;
    assert Views.DayOf(p, "endDate") == filters.endDate.value.asDay;
    if filters.filterType == Field {
      assert Views.Arg(p, "field") == filterValue && Views.Arg(p, "crop") == "";
    } else {
      assert Views.Arg(p, "crop") == filterValue && Views.Arg(p, "field") == "";
    }
  }

  // ---------------------------------------------------------------------------------------
  // The strict yield filter

  /** One yield as the browser receives it: ids as text, the date as `new Date` reads it
      (None for an invalid date), and the raw yield value. */
  datatype YieldRow = YieldRow(farmer: string, field: string, date: Option<Day>, yieldNumber: Value)

  /** `!bound || date >= new Date(bound)`: an unset bound admits every date; a set bound that
      is not a date admits none, since comparisons with an invalid date are false. */
  predicate AfterBound(d: Day, bound: Option<Param>) {
    !BoundSet(bound) || (bound.value.asDay.Some? && d >= bound.value.asDay.value)
  }

  predicate BeforeBound(d: Day, bound: Option<Param>) {
    !BoundSet(bound) || (bound.value.asDay.Some? && d <= bound.value.asDay.value)
  }

  /** The condition a yield must meet to be graphed. */
  predicate KeepYield(filters: Filters, filterValue: string, row: YieldRow) {
    && row.date.Some?
    && NotNullish(row.yieldNumber)
    && row.farmer == filters.farmer
    && row.field == filterValue
    && AfterBound(row.date.value, filters.startDate)
    && BeforeBound(row.date.value, filters.endDate)
  }

  /** `validData`: the yields of the response that meet the condition, in response order. */
  function KeptYields(rows: seq<YieldRow>, filters: Filters, filterValue: string): (r: seq<YieldRow>)
    ensures forall row :: row in r <==> row in rows && KeepYield(filters, filterValue, row)
    ensures forall row :: row in rows && KeepYield(filters, filterValue, row) ==> multiset(r)[row] == multiset(rows)[row]
    ensures IsSubsequence(r, rows)
  {
    FilterIsSubsequence(rows, (row: YieldRow) => KeepYield(filters, filterValue, row));
    FilterCounts(rows, (row: YieldRow) => KeepYield(filters, filterValue, row));
    Filter(rows, (row: YieldRow) => KeepYield(filters, filterValue, row))
  }

  /** Filtering is idempotent: what the filter kept, it keeps again. */
  lemma {:induction false} KeptYieldsIdempotent(rows: seq<YieldRow>, filters: Filters, filterValue: string)
    ensures KeptYields(KeptYields(rows, filters, filterValue), filters, filterValue) == KeptYields(rows, filters, filterValue)
  {
    if rows != [] {
      KeptYieldsIdempotent(rows[1..], filters, filterValue);
      var keep := (row: YieldRow) => KeepYield(filters, filterValue, row);
      var tail := Filter(rows[1..], keep);
      if keep(rows[0]) {
        assert Filter(rows, keep) == [rows[0]] + tail;
        assert ([rows[0]] + tail)[1..] == tail;
      }
    }
  }

  /** Every kept yield lies inside the chosen range when both bounds are dates. */
  lemma KeptYieldsInRange(rows: seq<YieldRow>, filters: Filters, filterValue: string, row: YieldRow)
    requires BoundSet(filters.startDate) && BoundSet(filters.endDate)
    requires row in KeptYields(rows, filters, filterValue)
    ensures filters.startDate.value.asDay.Some? && filters.endDate.value.asDay.Some?
    ensures row.date.Some?
    ensures filters.startDate.value.asDay.value <= row.date.value <= filters.endDate.value.asDay.value
  {
  }

  // ---------------------------------------------------------------------------------------
  // Series

  /** One soil test as the browser receives it: the raw `test_date` and the metric columns. */
  datatype SoilRow = SoilRow(testDate: Value, columns: map<string, Value>)

  /** `test[field]`: undefined for a column the test does not have. */
  function Column(test: SoilRow, field: string): Value {
    if field in test.columns then test.columns[field] else Undefined
  }

  /** An x-axis label: a yield's date (None prints as an invalid date) or a test's raw date. */
  datatype Label = DateLabel(date: Option<Day>) | RawLabel(raw: Value)

  datatype Dataset = Dataset(name: string, data: seq<Value>)

  /** One chart's data and the target it was fetched for. */
  datatype Series = Series(labels: seq<Label>, datasets: seq<Dataset>, filterValue: string)

  const LoadingName := "Loading..."

  /** `filterNames[filterValue] || 'Loading...'`. */
  function NameOr(names: map<string, string>, filterValue: string): (r: string)
    ensures Truthy(r)
    ensures filterValue in names && Truthy(names[filterValue]) ==> r == names[filterValue]
    ensures !(filterValue in names && Truthy(names[filterValue])) ==> r == LoadingName
  {
    if filterValue in names && Truthy(names[filterValue]) then names[filterValue] else LoadingName
  }

  /** The yields view: one dataset, one point and one date label per kept yield. */
  function YieldSeries(names: map<string, string>, filterValue: string, rows: seq<YieldRow>): (s: Series)
    ensures |s.datasets| == 1 && s.filterValue == filterValue
    ensures |s.labels| == |rows| && |s.datasets[0].data| == |rows|
    ensures s.datasets[0].name == "Yield for " + NameOr(names, filterValue)
    ensures forall i :: 0 <= i < |rows| ==>
      s.labels[i] == DateLabel(rows[i].date) && s.datasets[0].data[i] == rows[i].yieldNumber
  {
    Series(seq(|rows|, i requires 0 <= i < |rows| => DateLabel(rows[i].date)),
           [Dataset("Yield for " + NameOr(names, filterValue),
                    seq(|rows|, i requires 0 <= i < |rows| => rows[i].yieldNumber))],
           filterValue)
  }

  /** The soil view: one dataset per chosen metric, in order and named after it, holding
      that column of every test; the labels are the tests' raw dates. */
  function SoilSeries(fields: seq<string>, filterValue: string, tests: seq<SoilRow>): (s: Series)
    ensures |s.datasets| == |fields| && s.filterValue == filterValue
    ensures |s.labels| == |tests|
    ensures forall j :: 0 <= j < |tests| ==> s.labels[j] == RawLabel(tests[j].testDate)
    ensures forall i :: 0 <= i < |fields| ==>
      s.datasets[i].name == fields[i] && |s.datasets[i].data| == |tests|
    ensures forall i, j :: 0 <= i < |fields| && 0 <= j < |tests| ==>
      s.datasets[i].data[j] == Column(tests[j], fields[i])
  {
    Series(seq(|tests|, j requires 0 <= j < |tests| => RawLabel(tests[j].testDate)),
           seq(|fields|, i requires 0 <= i < |fields| =>
             Dataset(fields[i], seq(|tests|, j requires 0 <= j < |tests| => Column(tests[j], fields[i])))),
           filterValue)
  }

  /** What one per-target request returned: the yields endpoint's rows or the soil-test
      endpoint's rows. */
  datatype Fetched = YieldRows(rows: seq<YieldRow>) | SoilRows(tests: seq<SoilRow>)

  /** The endpoint the view asks: yields for the yields view, soil tests otherwise. */
  predicate FromViewEndpoint(filters: Filters, f: Fetched) {
    f.YieldRows? <==> filters.viewType == Yields
  }

  /** fetchGraphData followed by its entry of allGraphData: the yields are filtered strictly,
      soil tests pass through unfiltered. */
  function SeriesFor(filters: Filters, names: map<string, string>, filterValue: string, f: Fetched): (s: Series)
    requires FromViewEndpoint(filters, f)
    ensures s.filterValue == filterValue
    ensures filters.viewType == Yields ==> s == YieldSeries(names, filterValue, KeptYields(f.rows, filters, filterValue))
    ensures filters.viewType == Soil ==> s == SoilSeries(filters.selectedFields, filterValue, f.tests)
  {
    match f
    case YieldRows(rows) => YieldSeries(names, filterValue, KeptYields(rows, filters, filterValue))
    case SoilRows(tests) => SoilSeries(filters.selectedFields, filterValue, tests)
  }

  /** No client-side check touches soil tests: every test of the response is plotted, in
      order, whatever its date or target. */
  lemma SoilTestsPassThrough(filters: Filters, names: map<string, string>, filterValue: string, tests: seq<SoilRow>)
    requires filters.viewType == Soil
    ensures var s := SeriesFor(filters, names, filterValue, SoilRows(tests));
      |s.labels| == |tests| && forall j :: 0 <= j < |tests| ==> s.labels[j] == RawLabel(tests[j].testDate)
  {
  }

  /** Every point of a yield chart is a valid date inside the chosen range, for the chosen
      farmer and target, with a yield value. */
  lemma YieldPointsAreKept(filters: Filters, names: map<string, string>, filterValue: string,
                           rows: seq<YieldRow>, i: nat)
    requires filters.viewType == Yields
    requires i < |SeriesFor(filters, names, filterValue, YieldRows(rows)).labels|
    ensures var s := SeriesFor(filters, names, filterValue, YieldRows(rows));
      && s.labels[i].DateLabel? && s.labels[i].date.Some?
      && AfterBound(s.labels[i].date.value, filters.startDate)
      && BeforeBound(s.labels[i].date.value, filters.endDate)
      && NotNullish(s.datasets[0].data[i])
  {
    var kept := KeptYields(rows, filters, filterValue);
    assert kept[i] in kept;
  }

  /** fetchAllData: all targets' requests together; one rejection and nothing is built. */
  function AllSeries(filters: Filters, names: map<string, string>, values: seq<string>,
                     outcomes: seq<Option<Fetched>>): (r: Option<seq<Series>>)
    requires |values| == |outcomes|
    requires forall i :: 0 <= i < |outcomes| && outcomes[i].Some? ==> FromViewEndpoint(filters, outcomes[i].value)
    ensures r.None? <==> exists i :: 0 <= i < |outcomes| && outcomes[i].None?
    ensures r.Some? ==> |r.value| == |values|
    ensures r.Some? ==> forall i :: 0 <= i < |values| ==>
      outcomes[i].Some? && r.value[i] == SeriesFor(filters, names, values[i], outcomes[i].value)
  {
    if values == [] then Some([])
    else
      var rest := AllSeries(filters, names, values[1..], outcomes[1..]);
      if outcomes[0].None? then None
      else if rest.None? then
        var i :| 0 <= i < |outcomes[1..]| && outcomes[1..][i].None?;
        assert outcomes[i + 1].None?;
        None
      else
        Some([SeriesFor(filters, names, values[0], outcomes[0].value)] + rest.value)
  }

  /** The charts follow the targets: one per target, in the targets' order, each carrying its
      own target. */
  lemma {:induction false} SeriesFollowTargets(filters: Filters, names: map<string, string>,
                                               outcomes: seq<Option<Fetched>>, i: nat)
    requires |outcomes| == |filters.filterValues|
    requires forall k :: 0 <= k < |outcomes| && outcomes[k].Some? ==> FromViewEndpoint(filters, outcomes[k].value)
    requires AllSeries(filters, names, filters.filterValues, outcomes).Some?
    requires i < |filters.filterValues|
    ensures var all := AllSeries(filters, names, filters.filterValues, outcomes).value;
      |all| == |filters.filterValues| && all[i].filterValue == filters.filterValues[i]
  {
    var all := AllSeries(filters, names, filters.filterValues, outcomes).value;
    assert all[i] == SeriesFor(filters, names, filters.filterValues[i], outcomes[i].value);
  }

  // ---------------------------------------------------------------------------------------
  // The component's state

  class GraphPanel {
    var graphDataList: seq<Series>
    var farmerName: string
    var filterNames: map<string, string>

    constructor ()
      ensures graphDataList == [] && farmerName == "" && filterNames == map[]
    {
      graphDataList := [];
      farmerName := "";
      filterNames := map[];
    }

    /** fetchAllData with the request outcomes given: the list is replaced only when every
        request succeeded. The names are those the component held when the filters arrived. */
    method FetchAllData(filters: Filters, outcomes: seq<Option<Fetched>>)
      requires |outcomes| == |filters.filterValues|
      requires forall i :: 0 <= i < |outcomes| && outcomes[i].Some? ==> FromViewEndpoint(filters, outcomes[i].value)
      modifies this`graphDataList
      ensures var all := AllSeries(filters, old(filterNames), filters.filterValues, outcomes);
        && (all.None? ==> graphDataList == old(graphDataList))
        && (all.Some? ==> graphDataList == all.value)
    {
      var all := AllSeries(filters, filterNames, filters.filterValues, outcomes);
      if all.Some? {
        graphDataList := all.value;
      }
    }

    /** The farmer lookup's answer, the farmer object as the detail endpoint sends it. */
    method ReceiveFarmerName(farmer: JsonObject)
      modifies this`farmerName
      ensures farmerName == FarmerFullName(farmer)
      ensures Lookup(farmer, "farmer_fname").Scalar? && Lookup(farmer, "farmer_lname").Scalar? ==>
        farmerName == farmer["farmer_fname"].raw + " " + farmer["farmer_lname"].raw
    {
      farmerName := TemplateText(Lookup(farmer, "farmer_fname")) + " "
                    + TemplateText(Lookup(farmer, "farmer_lname"));
    }

    /** One field-name lookup's answer. */
    method ReceiveFieldName(filterValue: string, name: string)
      modifies this`filterNames
      ensures filterNames == old(filterNames)[filterValue := name]
    {
      filterNames := filterNames[filterValue := name];
    }
  }

  // ---------------------------------------------------------------------------------------
  // Rendering

  datatype Chart = Chart(kind: ChartKind, title: string, xTitle: string, yTitle: string, data: Series)

  datatype Screen = NoData | Charts(charts: seq<Chart>)

  const NoDataMessage := "No data to display. Adjust your filters and try again."

  function ChartTitle(viewType: ViewType, farmerName: string, names: map<string, string>, filterValue: string): string {
    (if viewType == Yields then "Yield Data for " else "Soil Test Data for ")
      + farmerName + " - " + NameOr(names, filterValue)
  }

  /** The rendered component: only the empty-state message without data, otherwise one chart
      of the chosen kind per series, in order. */
  function Render(filters: Filters, graphDataList: seq<Series>, farmerName: string,
                  names: map<string, string>): (v: Screen)
    ensures v.NoData? <==> graphDataList == []
    ensures v.Charts? ==> |v.charts| == |graphDataList|
    ensures v.Charts? ==> forall i :: 0 <= i < |graphDataList| ==>
      && v.charts[i].data == graphDataList[i]
      && v.charts[i].kind == filters.graphType
      && v.charts[i].title == ChartTitle(filters.viewType, farmerName, names, graphDataList[i].filterValue)
      && v.charts[i].xTitle == (if filters.viewType == Yields then "Date" else "Test Date")
      && v.charts[i].yTitle == (if filters.viewType == Yields then "Yield Amount" else "Values")
  {
    if graphDataList == [] then NoData
    else
      Charts(seq(|graphDataList|, i requires 0 <= i < |graphDataList| =>
        Chart(filters.graphType,
              ChartTitle(filters.viewType, farmerName, names, graphDataList[i].filterValue),
              if filters.viewType == Yields then "Date" else "Test Date",
              if filters.viewType == Yields then "Yield Amount" else "Values",
              graphDataList[i])))
  }

  /** The farmer detail response is a serialized farmer, which has no names: every chart
      title reads "… for undefined undefined - …", whoever the farmer is. */
  lemma SerializedFarmerTitle(viewType: ViewType, f: FarmerRecord, names: map<string, string>,
                              filterValue: string)
    ensures ChartTitle(viewType, FarmerFullName(Views.SerializeFarmer(f)), names, filterValue)
         == (if viewType == Yields then "Yield Data for " else "Soil Test Data for ")
            + "undefined undefined - " + NameOr(names, filterValue)
  {
    Views.SerializedFarmerUnnamed(f);
  }

  /** A farmer object that carries both names, as the client form posts them, is titled by
      the first name, a space and the last name. */
  lemma NamedFarmerTitle(viewType: ViewType, farmer: JsonObject, names: map<string, string>,
                         filterValue: string)
    requires Lookup(farmer, "farmer_fname").Scalar? && Lookup(farmer, "farmer_lname").Scalar?
    ensures ChartTitle(viewType, FarmerFullName(farmer), names, filterValue)
         == (if viewType == Yields then "Yield Data for " else "Soil Test Data for ")
            + farmer["farmer_fname"].raw + " " + farmer["farmer_lname"].raw + " - "
            + NameOr(names, filterValue)
  {
  }

  /** A failed request builds no series, so a component whose list is still empty, as a fresh
      one's is, shows the empty-state message. */
  lemma RejectedFetchBuildsNothing(filters: Filters, names: map<string, string>, farmerName: string,
                                 outcomes: seq<Option<Fetched>>, k: nat)
    requires |outcomes| == |filters.filterValues|
    requires forall i :: 0 <= i < |outcomes| && outcomes[i].Some? ==> FromViewEndpoint(filters, outcomes[i].value)
    requires k < |outcomes| && outcomes[k].None?
    ensures AllSeries(filters, names, filters.filterValues, outcomes).None?
    ensures Render(filters, [], farmerName, names) == NoData
  {
  }

  // ---------------------------------------------------------------------------------------
  // PDF export

  /** A4 in millimetres. */
  const PageWidth: real := 210.0
  const PageHeight: real := 297.0

  /** The image scaled to the page width, keeping the canvas's aspect ratio. */
  function ScaledHeight(canvasHeight: nat, canvasWidth: nat): (h: real)
    requires canvasWidth > 0
    ensures h >= 0.0
    ensures h * (canvasWidth as real) == (canvasHeight as real) * PageWidth
  {
    (canvasHeight as real) * PageWidth / (canvasWidth as real)
  }

  /** The least number of pages, at least one, whose total height covers `h`. */
  function PagesNeeded(h: real): (n: nat)
    ensures n >= 1
    decreases if h > PageHeight then h.Floor else 0
  {
    if h <= PageHeight then 1 else 1 + PagesNeeded(h - PageHeight)
  }

  /** PagesNeeded is max(1, ceil(h / PageHeight)): the pages cover the image, and one page
      fewer would not. */
  lemma {:induction false} PagesNeededCovers(h: real)
    ensures h <= (PagesNeeded(h) as real) * PageHeight
    ensures PagesNeeded(h) == 1 || ((PagesNeeded(h) - 1) as real) * PageHeight < h
    decreases if h > PageHeight then h.Floor else 0
  {
    if h > PageHeight {
      PagesNeededCovers(h - PageHeight);
    }
  }

  /** Any page count that covers the image with no page to spare is PagesNeeded. */
  lemma {:induction false} PageCountUnique(h: real, n: nat)
    requires n >= 1 && h <= (n as real) * PageHeight
    requires n == 1 || ((n - 1) as real) * PageHeight < h
    ensures n == PagesNeeded(h)
    decreases n
  {
    if n > 1 {
      PageCountUnique(h - PageHeight, n - 1);
    } else {
      assert h <= PageHeight;
    }
  }

  /** downloadPDF's page loop: the vertical offset at which each page shows the image. Page k
      shows the image moved up by k page heights, and there are as many pages as the image
      needs. */
  method PageOffsets(canvasHeight: nat, canvasWidth: nat) returns (positions: seq<real>)
    requires canvasWidth > 0
    ensures |positions| == PagesNeeded(ScaledHeight(canvasHeight, canvasWidth))
    ensures forall k :: 0 <= k < |positions| ==> positions[k] == -(k as real) * PageHeight
  {
    var imgHeight := (canvasHeight as real) * PageWidth / (canvasWidth as real);
    var heightLeft := imgHeight;
    var position: real := 0.0;
    positions := [position];
    heightLeft := heightLeft - PageHeight;
    while heightLeft > 0.0
      invariant |positions| >= 1
      invariant heightLeft == imgHeight - (|positions| as real) * PageHeight
      invariant |positions| == 1 || ((|positions| - 1) as real) * PageHeight < imgHeight
      invariant forall k :: 0 <= k < |positions| ==> positions[k] == -(k as real) * PageHeight
      decreases heightLeft.Floor
    {
      position := heightLeft - imgHeight;
      positions := positions + [position];
      heightLeft := heightLeft - PageHeight;
    }
    PageCountUnique(imgHeight, |positions|);
  }
}
