/** The analytics filter panel (frontend/src/components/FilterComponent.jsx): which view and
    scope are chosen, the ticked targets and metrics, and the snapshot handed to the graph. */
module FilterComponent {
  import opened Common

  datatype ViewType = Soil | Yields
  datatype FilterType = Field | Crop
  datatype ChartKind = Bar | Line

  /** The metrics a soil view can graph, in the order the panel lists them. */
  const SoilTestFields: seq<string> := [
    "ph", "salts", "chlorides", "sodium", "cec", "excess_lime", "organic_matter",
    "organic_n", "ammonium_n", "nitrate_n", "phosphorus", "potassium_ppm",
    "potassium_meq_per_100g", "calcium_ppm", "calcium_meq_per_100g",
    "magnesium_ppm", "magnesium_meq_per_100g", "sulfate", "zinc", "iron",
    "manganese", "copper", "boron", "recom_nitrogen", "recom_phos",
    "recom_potash", "recom_calcium", "recom_magnesium", "recom_sulphur",
    "recom_zinc", "recom_iron", "recom_manganese", "recom_copper", "recom_boron",
    "recom_gypsum", "recom_lime"
  ]

  /** The metric the yields view always graphs. */
  const YieldMetric := "yield_number"

  /** The metric list has 36 names and does not offer the yield metric. */
  lemma SoilTestFieldsShape()
    ensures |SoilTestFields| == 36
    ensures YieldMetric !in SoilTestFields
  {
  }

  /** What `onGenerateGraph` receives. A date is None while its input was never touched. */
  datatype Filters = Filters(
    farmer: string,
    filterType: FilterType,
    filterValues: seq<string>,
    startDate: Option<Param>,
    endDate: Option<Param>,
    graphType: ChartKind,
    viewType: ViewType,
    selectedFields: seq<string>)

  /** `s.filter(f => f !== v)`: every occurrence of `v` removed, the rest in order. */
  function Without(s: seq<string>, v: string): (r: seq<string>)
    ensures v !in r
    ensures forall x :: x != v ==> (x in r <==> x in s)
    ensures forall x :: x in s && x != v ==> multiset(r)[x] == multiset(s)[x]
    ensures IsSubsequence(r, s)
  {
    FilterIsSubsequence(s, (x: string) => x != v);
    FilterCounts(s, (x: string) => x != v);
    Filter(s, (x: string) => x != v)
  }

  /** A checkbox change: checking appends the value at the end, unchecking removes it. */
  function Toggled(s: seq<string>, v: string, isChecked: bool): (r: seq<string>)
    ensures isChecked ==> r == s + [v]
    ensures !isChecked ==> r == Without(s, v)
  {
    if isChecked then s + [v] else Without(s, v)
  }

  /** Removing a value that is not there changes nothing. */
  lemma {:induction false} WithoutAbsent(s: seq<string>, v: string)
    requires v !in s
    ensures Without(s, v) == s
  {
    if s != [] {
      WithoutAbsent(s[1..], v);
      assert [s[0]] + s[1..] == s;
    }
  }

  /** Removal distributes over concatenation. */
  lemma {:induction false} WithoutAppend(s: seq<string>, t: seq<string>, v: string)
    ensures Without(s + t, v) == Without(s, v) + Without(t, v)
  {
    FilterAppend(s, t, (x: string) => x != v);
  }

  /** Unchecking undoes checking: a box ticked and unticked again leaves the list as it was
      before, provided the value was not already ticked. */
  lemma CheckThenUncheck(s: seq<string>, v: string)
    requires v !in s
    ensures Toggled(Toggled(s, v, true), v, false) == s
  {
    WithoutAppend(s, [v], v);
    WithoutAbsent(s, v);
    assert Filter([v], (x: string) => x != v) == [];
  }

  /** Unchecking is idempotent. */
  lemma UncheckTwice(s: seq<string>, v: string)
    ensures Toggled(Toggled(s, v, false), v, false) == Toggled(s, v, false)
  {
    WithoutAbsent(Without(s, v), v);
  }

  /** handleGenerateGraph: the yields view always asks for field scope and the yield metric;
      the soil view passes the panel's choices through. */
  function Snapshot(farmer: string, filterType: FilterType, selectedFilters: seq<string>,
                    startDate: Option<Param>, endDate: Option<Param>, graphType: ChartKind,
                    viewType: ViewType, selectedFields: seq<string>): (f: Filters)
    ensures f.viewType == Yields ==> f.filterType == Field && f.selectedFields == [YieldMetric]
    ensures f.viewType == Soil ==> f.filterType == filterType && f.selectedFields == selectedFields
    ensures f.viewType == viewType && f.filterValues == selectedFilters && f.farmer == farmer
    ensures f.startDate == startDate && f.endDate == endDate && f.graphType == graphType
  {
    Filters(farmer, if viewType == Yields then Field else filterType, selectedFilters,
            startDate, endDate, graphType, viewType,
            if viewType == Yields then [YieldMetric] else selectedFields)
  }

  /** Which option list the panel loads for the chosen farmer: nothing until a farmer is
      chosen, then the farmer's fields or crops by scope. */
  datatype OptionsFetch = FieldsOf(farmer: string) | CropsOf(farmer: string)

  function OptionsToLoad(selectedFarmer: string, filterType: FilterType): (r: Option<OptionsFetch>)
    ensures r.None? <==> !Truthy(selectedFarmer)
    ensures r.Some? ==> r.value.farmer == selectedFarmer && (r.value.FieldsOf? <==> filterType == Field)
  {
    if !Truthy(selectedFarmer) then None
    else if filterType == Field then Some(FieldsOf(selectedFarmer))
    else Some(CropsOf(selectedFarmer))
  }

  /** The panel's state. */
  class FilterPanel {
    var selectedFarmer: string
    var filterType: FilterType
    var selectedFilters: seq<string>
    var startDate: Option<Param>
    var endDate: Option<Param>
    var graphType: ChartKind
    var selectedFields: seq<string>
    var viewType: ViewType

    /** The crop scope is offered only in the soil view. */
    predicate Valid()
      reads this
    {
      viewType == Yields ==> filterType == Field
    }

    constructor ()
      ensures Valid()
      ensures selectedFarmer == "" && filterType == Field && selectedFilters == []
      ensures startDate.None? && endDate.None? && graphType == Bar
      ensures selectedFields == [] && viewType == Soil
    {
      selectedFarmer := "";
      filterType := Field;
      selectedFilters := [];
      startDate := None;
      endDate := None;
      graphType := Bar;
      selectedFields := [];
      viewType := Soil;
    }

    /** The "Soil" button. Selections are kept. */
    method ShowSoil()
      modifies this`viewType, this`filterType
      ensures Valid()
      ensures viewType == Soil && filterType == Field
    {
      viewType := Soil;
      filterType := Field;
    }

    /** The "Yields" button. Selections are kept. */
    method ShowYields()
      modifies this`viewType, this`filterType
      ensures Valid()
      ensures viewType == Yields && filterType == Field
    {
      viewType := Yields;
      filterType := Field;
    }

    /** The "Field" scope button. */
    method ChooseField()
      requires Valid()
      modifies this`filterType
      ensures Valid() && filterType == Field
    {
      filterType := Field;
    }

    /** The "Crop" scope button, which only the soil view shows. */
    method ChooseCrop()
      requires Valid() && viewType == Soil
      modifies this`filterType
      ensures Valid() && filterType == Crop
    {
      filterType := Crop;
    }

    method SelectFarmer(farmer: string)
      requires Valid()
      modifies this`selectedFarmer
      ensures Valid() && selectedFarmer == farmer
    {
      selectedFarmer := farmer;
    }

    method SetStartDate(value: Param)
      requires Valid()
      modifies this`startDate
      ensures Valid() && startDate == Some(value)
    {
      startDate := Some(value);
    }

    method SetEndDate(value: Param)
      requires Valid()
      modifies this`endDate
      ensures Valid() && endDate == Some(value)
    {
      endDate := Some(value);
    }

    method SetGraphType(kind: ChartKind)
      requires Valid()
      modifies this`graphType
      ensures Valid() && graphType == kind
    {
      graphType := kind;
    }

    /** A target checkbox (a field or crop id as text). */
    method ToggleTarget(value: string, isChecked: bool)
      requires Valid()
      modifies this`selectedFilters
      ensures Valid()
      ensures selectedFilters == Toggled(old(selectedFilters), value, isChecked)
    {
      if isChecked {
        selectedFilters := selectedFilters + [value];
      } else {
        selectedFilters := Without(selectedFilters, value);
      }
    }

    /** A metric checkbox, which only the soil view shows. */
    method ToggleMetric(field: string, isChecked: bool)
      requires Valid() && viewType == Soil
      modifies this`selectedFields
      ensures Valid()
      ensures selectedFields == Toggled(old(selectedFields), field, isChecked)
    {
      if isChecked {
        selectedFields := selectedFields + [field];
      } else {
        selectedFields := Without(selectedFields, field);
      }
    }

    /** "Generate Graph": the snapshot of the current state. */
    method GenerateGraph() returns (f: Filters)
      requires Valid()
      ensures f == Snapshot(selectedFarmer, filterType, selectedFilters, startDate, endDate,
                            graphType, viewType, selectedFields)
      ensures f.filterType == filterType
    {
      f := Filters(selectedFarmer, if viewType == Yields then Field else filterType, selectedFilters,
                   startDate, endDate, graphType, viewType,
                   if viewType == Yields then [YieldMetric] else selectedFields);
    }
  }
}
