/** The REST views of the back end (backend/api/views.py): the user-scoped query sets with
    their optional filters, lab creation, the login identifier routing, farmer-account
    creation and the user-info company lookup. */
module Views {
  import opened Common
  import opened Models
  import Signals

  /** A request's query string, by parameter name. */
  type QueryParams = map<string, Param>

  /** `query_params.get(name)` as text: a missing parameter reads as "", which is just as falsy. */
  function Arg(params: QueryParams, name: string): string {
    if name in params then params[name].text else ""
  }

  /** Why a query set raises: a date parameter that is present but is not a date, or a
      lookup through a column the model does not declare. */
  datatype QueryError = InvalidDate(param: string) | UnknownField(field: string)

  // ---------------------------------------------------------------------------------------
  // Scoping by the requesting user

  /** The requesting user owns the farmer with this id. */
  ghost predicate OwnsFarmer(t: Tables, user: Id, farmer: Id) {
    exists f :: f in t.farmers && f.id == farmer && f.user == user
  }

  function FarmerIds(farmers: seq<FarmerRecord>): (r: set<Id>)
    ensures forall id :: id in r <==> exists f :: f in farmers && f.id == id
  {
    set f | f in farmers :: f.id
  }

  /** FarmerViewSet.get_queryset: the user's own farmers. */
  function FarmerQuery(t: Tables, user: Id): (r: seq<FarmerRecord>)
    ensures forall f :: f in r <==> f in t.farmers && f.user == user
    ensures forall f :: f in t.farmers && f.user == user ==> multiset(r)[f] == multiset(t.farmers)[f]
    ensures IsSubsequence(r, t.farmers)
  {
    FilterIsSubsequence(t.farmers, (f: FarmerRecord) => f.user == user);
    FilterCounts(t.farmers, (f: FarmerRecord) => f.user == user);
    Filter(t.farmers, (f: FarmerRecord) => f.user == user)
  }

  lemma UserFarmerIds(t: Tables, user: Id, id: Id)
    ensures id in FarmerIds(FarmerQuery(t, user)) <==> OwnsFarmer(t, user, id)
  {
    if OwnsFarmer(t, user, id) {
      var f :| f in t.farmers && f.id == id && f.user == user;
      assert f in FarmerQuery(t, user);
    }
  }

  /** FieldViewSet.get_queryset: fields of the user's farmers, narrowed to one farmer when the
      `farmer` parameter is given. */
  function FieldQuery(t: Tables, user: Id, params: QueryParams): (r: seq<FieldRecord>)
    ensures forall fl :: fl in r <==>
      fl in t.fields && OwnsFarmer(t, user, fl.farmer)
      && (Truthy(Arg(params, "farmer")) ==> fl.farmer == Arg(params, "farmer"))
    ensures IsSubsequence(r, t.fields)
  {
    var owned := FarmerIds(FarmerQuery(t, user));
    forall fl | fl in t.fields ensures fl.farmer in owned <==> OwnsFarmer(t, user, fl.farmer) {
      UserFarmerIds(t, user, fl.farmer);
    }
    var farmerId := Arg(params, "farmer");
    if Truthy(farmerId) then
      FilterIsSubsequence(t.fields, (fl: FieldRecord) => fl.farmer in owned && fl.farmer == farmerId);
      Filter(t.fields, (fl: FieldRecord) => fl.farmer in owned && fl.farmer == farmerId)
    else
      FilterIsSubsequence(t.fields, (fl: FieldRecord) => fl.farmer in owned);
      Filter(t.fields, (fl: FieldRecord) => fl.farmer in owned)
  }

  /** FarmerSerializer's output for one farmer: exactly the fields `id`, `user`, `company` and
      `name`. */
  function SerializeFarmer(f: FarmerRecord): (o: JsonObject)
    ensures o.Keys == {"id", "user", "company", "name"}
    ensures o["id"] == Scalar(f.id) && o["name"] == Scalar(f.name)
  {
    map["id" := Scalar(f.id), "user" := Scalar(f.user), "company" := Scalar(f.company),
        "name" := Scalar(f.name)]
  }

  /** The farmer list's response body: the user's farmers, serialized, in query order. */
  function FarmerListResponse(t: Tables, user: Id): (r: seq<JsonObject>)
    ensures |r| == |FarmerQuery(t, user)|
    ensures forall i :: 0 <= i < |r| ==> r[i] == SerializeFarmer(FarmerQuery(t, user)[i])
  {
    var farmers := FarmerQuery(t, user);
    seq(|farmers|, i requires 0 <= i < |farmers| => SerializeFarmer(farmers[i]))
  }

  /** A serialized farmer has no first or last name, so the front end names it
      "undefined undefined". */
  lemma SerializedFarmerUnnamed(f: FarmerRecord)
    ensures "farmer_fname" !in SerializeFarmer(f) && "farmer_lname" !in SerializeFarmer(f)
    ensures FarmerFullName(SerializeFarmer(f)) == "undefined undefined"
  {
  }

  /** Asking for the fields of a farmer the user does not own yields nothing. */
  lemma FieldsOfForeignFarmerEmpty(t: Tables, user: Id, params: QueryParams)
    requires Truthy(Arg(params, "farmer")) && !OwnsFarmer(t, user, Arg(params, "farmer"))
    ensures FieldQuery(t, user, params) == []
  {
    var r := FieldQuery(t, user, params);
    assert forall fl :: fl !in r;
  }

  /** The user's farmers, narrowed by the `farmer` parameter when given (shared by the lab and
      crop query sets). */
  function ScopedFarmers(t: Tables, user: Id, params: QueryParams): (r: set<Id>)
    ensures forall id :: id in r <==>
      OwnsFarmer(t, user, id) && (Truthy(Arg(params, "farmer")) ==> id == Arg(params, "farmer"))
  {
    var farmers := FarmerQuery(t, user);
    var farmerId := Arg(params, "farmer");
    var scoped := if Truthy(farmerId) then Filter(farmers, (f: FarmerRecord) => f.id == farmerId) else farmers;
    forall id ensures id in FarmerIds(scoped) <==>
      OwnsFarmer(t, user, id) && (Truthy(farmerId) ==> id == farmerId)
    {
      UserFarmerIds(t, user, id);
      if OwnsFarmer(t, user, id) && (Truthy(farmerId) ==> id == farmerId) {
        var f :| f in t.farmers && f.id == id && f.user == user;
        assert f in scoped;
      }
    }
    FarmerIds(scoped)
  }

  /** LabViewSet.get_queryset. */
  function LabQuery(t: Tables, user: Id, params: QueryParams): (r: seq<LabRecord>)
    ensures forall l :: l in r <==>
      l in t.labs && OwnsFarmer(t, user, l.farmer)
      && (Truthy(Arg(params, "farmer")) ==> l.farmer == Arg(params, "farmer"))
    ensures IsSubsequence(r, t.labs)
  {
    var scoped := ScopedFarmers(t, user, params);
    FilterIsSubsequence(t.labs, (l: LabRecord) => l.farmer in scoped);
    Filter(t.labs, (l: LabRecord) => l.farmer in scoped)
  }

  /** CropViewSet.get_queryset. */
  function CropQuery(t: Tables, user: Id, params: QueryParams): (r: seq<CropRecord>)
    ensures forall c :: c in r <==>
      c in t.crops && OwnsFarmer(t, user, c.farmer)
      && (Truthy(Arg(params, "farmer")) ==> c.farmer == Arg(params, "farmer"))
    ensures IsSubsequence(r, t.crops)
  {
    var scoped := ScopedFarmers(t, user, params);
    FilterIsSubsequence(t.crops, (c: CropRecord) => c.farmer in scoped);
    Filter(t.crops, (c: CropRecord) => c.farmer in scoped)
  }

  /** CropViewSet.get_queryset against the Crop model as models.py declares it (only
      `crop_id` and `crop_name`): the `farmer` lookup names no field, so every request fails. */
  function CropQueryAsWritten(t: Tables, user: Id, params: QueryParams): (r: Result<seq<CropRecord>, QueryError>)
    ensures r.Err? && r.error.UnknownField?
  {
    Err(UnknownField("farmer"))
  }

  /** A crop the user should see is listed by CropQuery, but as written the request fails. */
  lemma CropListingFailsAsWritten(t: Tables, user: Id, params: QueryParams, c: CropRecord)
    requires c in t.crops && OwnsFarmer(t, user, c.farmer) && !Truthy(Arg(params, "farmer"))
    ensures c in CropQuery(t, user, params)
    ensures CropQueryAsWritten(t, user, params) == Err(UnknownField("farmer"))
  {
  }

  // ---------------------------------------------------------------------------------------
  // Soil tests and yields

  /** The user owns the field with this id, through one of the user's farmers. */
  ghost predicate OwnsField(t: Tables, user: Id, field: Id) {
    exists fl :: fl in t.fields && fl.id == field && OwnsFarmer(t, user, fl.farmer)
  }

  /** Django's `date__gte` / `date__lte` / range lookups: a bound that is not a date matches
      nothing (the query fails instead; see the error cases). */
  predicate OnOrAfter(d: Day, bound: Option<Day>) {
    bound.Some? && bound.value <= d
  }

  predicate OnOrBefore(d: Day, bound: Option<Day>) {
    bound.Some? && d <= bound.value
  }

  function DayOf(params: QueryParams, name: string): Option<Day> {
    if name in params then params[name].asDay else None
  }

  /** The soil-test date range applies only when both of its bounds are given. */
  predicate SoilDated(params: QueryParams) {
    Truthy(Arg(params, "startDate")) && Truthy(Arg(params, "endDate"))
  }

  /** What a soil test must satisfy to be listed. */
  ghost predicate SoilTestSelected(t: Tables, user: Id, params: QueryParams, s: SoilTestRecord) {
    && OwnsField(t, user, s.field)
    && (Truthy(Arg(params, "field")) ==> s.field in Split(Arg(params, "field"), ','))
    && (Truthy(Arg(params, "crop")) ==> s.crop in Split(Arg(params, "crop"), ','))
    && (SoilDated(params) ==>
          OnOrAfter(s.testDate, DayOf(params, "startDate")) && OnOrBefore(s.testDate, DayOf(params, "endDate")))
  }

  /** The range lookup fails when it is applied and either bound is not a date. */
  function SoilDateError(params: QueryParams): Option<QueryError> {
    if !SoilDated(params) then None
    else if DayOf(params, "startDate").None? then Some(InvalidDate("startDate"))
    else if DayOf(params, "endDate").None? then Some(InvalidDate("endDate"))
    else None
  }

  /** The ids of the fields of the user's farmers. */
  function UserFieldIds(t: Tables, user: Id): (r: set<Id>)
    ensures forall id :: id in r <==> OwnsField(t, user, id)
  {
    var owned := FarmerIds(FarmerQuery(t, user));
    var r := set fl | fl in t.fields && fl.farmer in owned :: fl.id;
    forall id ensures id in r <==> OwnsField(t, user, id) {
      if OwnsField(t, user, id) {
        var fl :| fl in t.fields && fl.id == id && OwnsFarmer(t, user, fl.farmer);
        UserFarmerIds(t, user, fl.farmer);
      }
      if id in r {
        var fl :| fl in t.fields && fl.farmer in owned && fl.id == id;
        UserFarmerIds(t, user, fl.farmer);
      }
    }
    r
  }

  /** SoilTestViewSet.get_queryset: tests on the fields of the user's farmers; `field` and
      `crop` are comma-separated id lists matched by membership; the inclusive date range
      applies only when both `startDate` and `endDate` are given. */
  function SoilTestQuery(t: Tables, user: Id, params: QueryParams): (r: Result<seq<SoilTestRecord>, QueryError>)
    ensures r.Err? <==> SoilDateError(params).Some?
    ensures r.Err? ==> r.error == SoilDateError(params).value
    ensures r.Ok? ==> forall s :: s in r.value ==> s in t.soilTests && SoilTestSelected(t, user, params, s)
    ensures r.Ok? ==> forall s :: s in t.soilTests && SoilTestSelected(t, user, params, s) ==> s in r.value
    ensures r.Ok? ==> forall s :: s in t.soilTests && SoilTestSelected(t, user, params, s) ==>
      multiset(r.value)[s] == multiset(t.soilTests)[s]
    ensures r.Ok? ==> IsSubsequence(r.value, t.soilTests)
  {
    if SoilDateError(params).Some? then Err(SoilDateError(params).value)
    else
      var q := SoilTestChain(t, user, params);
      forall s | s in t.soilTests
        ensures s in q <==> SoilTestSelected(t, user, params, s)
        ensures SoilTestSelected(t, user, params, s) ==> multiset(q)[s] == multiset(t.soilTests)[s]
      {
        SoilTestChainKeeps(t, user, params, s);
      }
      Ok(q)
  }

  /** The filter calls of SoilTestViewSet.get_queryset, in order. */
  function SoilTestChain(t: Tables, user: Id, params: QueryParams): (r: seq<SoilTestRecord>)
    ensures IsSubsequence(r, t.soilTests)
  {
    var fieldIds := UserFieldIds(t, user);
    var field := Arg(params, "field");
    var crop := Arg(params, "crop");
    var start := DayOf(params, "startDate");
    var end := DayOf(params, "endDate");
    var q0 := Narrow(t.soilTests, true, (s: SoilTestRecord) => s.field in fieldIds);
    var q1 := Narrow(q0, Truthy(field), (s: SoilTestRecord) => s.field in Split(field, ','));
    var q2 := Narrow(q1, Truthy(crop), (s: SoilTestRecord) => s.crop in Split(crop, ','));
    var q3 := Narrow(q2, SoilDated(params),
                     (s: SoilTestRecord) => OnOrAfter(s.testDate, start) && OnOrBefore(s.testDate, end));
    SubsequenceTrans(q1, q0, t.soilTests);
    SubsequenceTrans(q2, q1, t.soilTests);
    SubsequenceTrans(q3, q2, t.soilTests);
    q3
  }

  lemma SoilTestChainKeeps(t: Tables, user: Id, params: QueryParams, s: SoilTestRecord)
    requires s in t.soilTests
    ensures s in SoilTestChain(t, user, params) <==> SoilTestSelected(t, user, params, s)
    ensures SoilTestSelected(t, user, params, s) ==>
      multiset(SoilTestChain(t, user, params))[s] == multiset(t.soilTests)[s]
  {
    var fieldIds := UserFieldIds(t, user);
    var field := Arg(params, "field");
    var crop := Arg(params, "crop");
    var start := DayOf(params, "startDate");
    var end := DayOf(params, "endDate");
    var k0 := (s: SoilTestRecord) => s.field in fieldIds;
    var k1 := (s: SoilTestRecord) => s.field in Split(field, ',');
    var k2 := (s: SoilTestRecord) => s.crop in Split(crop, ',');
    var k3 := (s: SoilTestRecord) => OnOrAfter(s.testDate, start) && OnOrBefore(s.testDate, end);
    var q0 := Narrow(t.soilTests, true, k0);
    var q1 := Narrow(q0, Truthy(field), k1);
    var q2 := Narrow(q1, Truthy(crop), k2);
    var q3 := Narrow(q2, SoilDated(params), k3);
    assert SoilTestChain(t, user, params) == q3;
    if SoilTestSelected(t, user, params, s) {
      NarrowCounts(t.soilTests, true, k0);
      NarrowCounts(q0, Truthy(field), k1);
      NarrowCounts(q1, Truthy(crop), k2);
      NarrowCounts(q2, SoilDated(params), k3);
    }
  }

  /** SoilTestViewSet.get_queryset against the SoilTest model as models.py declares it, which
      has no crop column: a `crop` parameter makes the query set fail before the date range
      is looked at; without one the query is SoilTestQuery. */
  function SoilTestQueryAsWritten(t: Tables, user: Id, params: QueryParams): (r: Result<seq<SoilTestRecord>, QueryError>)
    ensures Truthy(Arg(params, "crop")) ==> r == Err(UnknownField("crop"))
    ensures !Truthy(Arg(params, "crop")) ==> r == SoilTestQuery(t, user, params)
  {
    if Truthy(Arg(params, "crop")) then Err(UnknownField("crop")) else SoilTestQuery(t, user, params)
  }

  /** A crop-narrowed request that SoilTestQuery answers with a selected test fails as written. */
  lemma CropNarrowedSoilQueryFailsAsWritten(t: Tables, user: Id, params: QueryParams, s: SoilTestRecord)
    requires Truthy(Arg(params, "crop")) && SoilDateError(params).None?
    requires s in t.soilTests && SoilTestSelected(t, user, params, s)
    ensures SoilTestQuery(t, user, params).Ok? && s in SoilTestQuery(t, user, params).value
    ensures SoilTestQueryAsWritten(t, user, params).Err?
  {
  }

  /** Either date bound alone imposes no date filter. */
  lemma SoilOneDateBoundIgnored(t: Tables, user: Id, params: QueryParams, name: string, p: Param)
    requires name == "startDate" || name == "endDate"
    requires !Truthy(Arg(params, "startDate")) && !Truthy(Arg(params, "endDate"))
    ensures SoilTestQuery(t, user, params[name := p]) == SoilTestQuery(t, user, params)
  {
    var params' := params[name := p];
    assert Arg(params', "field") == Arg(params, "field");
    assert Arg(params', "crop") == Arg(params, "crop");
    assert !SoilDated(params') && !SoilDated(params);
  }

  /** What a yield must satisfy to be listed. */
  ghost predicate YieldSelected(t: Tables, user: Id, params: QueryParams, y: YieldRecord) {
    && OwnsFarmer(t, user, y.farmer)
    && (Truthy(Arg(params, "farmer")) ==> y.farmer == Arg(params, "farmer"))
    && (Truthy(Arg(params, "field")) ==> y.field == Arg(params, "field"))
    && (Truthy(Arg(params, "date_after")) ==> OnOrAfter(y.date, DayOf(params, "date_after")))
    && (Truthy(Arg(params, "date_before")) ==> OnOrBefore(y.date, DayOf(params, "date_before")))
  }

  /** A given date parameter that is not a date; `date_after` is looked up first. */
  function YieldDateError(params: QueryParams): Option<QueryError> {
    if Truthy(Arg(params, "date_after")) && DayOf(params, "date_after").None? then Some(InvalidDate("date_after"))
    else if Truthy(Arg(params, "date_before")) && DayOf(params, "date_before").None? then Some(InvalidDate("date_before"))
    else None
  }

  /** YieldViewSet.get_queryset: yields of the user's farmers, with each given parameter
      (farmer, field, date_after, date_before) as one more conjunct. */
  function YieldQuery(t: Tables, user: Id, params: QueryParams): (r: Result<seq<YieldRecord>, QueryError>)
    ensures r.Err? <==> YieldDateError(params).Some?
    ensures r.Err? ==> r.error == YieldDateError(params).value
    ensures r.Ok? ==> forall y :: y in r.value ==> y in t.yieldRecords && YieldSelected(t, user, params, y)
    ensures r.Ok? ==> forall y :: y in t.yieldRecords && YieldSelected(t, user, params, y) ==> y in r.value
    ensures r.Ok? ==> forall y :: y in t.yieldRecords && YieldSelected(t, user, params, y) ==>
      multiset(r.value)[y] == multiset(t.yieldRecords)[y]
    ensures r.Ok? ==> IsSubsequence(r.value, t.yieldRecords)
  {
    if YieldDateError(params).Some? then Err(YieldDateError(params).value)
    else
      var q := YieldChain(t, user, params);
      forall y | y in t.yieldRecords
        ensures y in q <==> YieldSelected(t, user, params, y)
        ensures YieldSelected(t, user, params, y) ==> multiset(q)[y] == multiset(t.yieldRecords)[y]
      {
        YieldChainKeeps(t, user, params, y);
      }
      Ok(q)
  }

  /** The filter calls of YieldViewSet.get_queryset, in order. */
  function YieldChain(t: Tables, user: Id, params: QueryParams): (r: seq<YieldRecord>)
    ensures IsSubsequence(r, t.yieldRecords)
  {
    var owned := FarmerIds(FarmerQuery(t, user));
    var farmer := Arg(params, "farmer");
    var field := Arg(params, "field");
    var after := DayOf(params, "date_after");
    var before := DayOf(params, "date_before");
    var q0 := Narrow(t.yieldRecords, true, (y: YieldRecord) => y.farmer in owned);
    var q1 := Narrow(q0, Truthy(farmer), (y: YieldRecord) => y.farmer == farmer);
    var q2 := Narrow(q1, Truthy(field), (y: YieldRecord) => y.field == field);
    var q3 := Narrow(q2, Truthy(Arg(params, "date_after")), (y: YieldRecord) => OnOrAfter(y.date, after));
    var q4 := Narrow(q3, Truthy(Arg(params, "date_before")), (y: YieldRecord) => OnOrBefore(y.date, before));
    SubsequenceTrans(q1, q0, t.yieldRecords);
    SubsequenceTrans(q2, q1, t.yieldRecords);
    SubsequenceTrans(q3, q2, t.yieldRecords);
    SubsequenceTrans(q4, q3, t.yieldRecords);
    q4
  }

  lemma YieldChainKeeps(t: Tables, user: Id, params: QueryParams, y: YieldRecord)
    requires y in t.yieldRecords
    ensures y in YieldChain(t, user, params) <==> YieldSelected(t, user, params, y)
    ensures YieldSelected(t, user, params, y) ==>
      multiset(YieldChain(t, user, params))[y] == multiset(t.yieldRecords)[y]
  {
    UserFarmerIds(t, user, y.farmer);
    var owned := FarmerIds(FarmerQuery(t, user));
    var farmer := Arg(params, "farmer");
    var field := Arg(params, "field");
    var after := DayOf(params, "date_after");
    var before := DayOf(params, "date_before");
    var k0 := (y: YieldRecord) => y.farmer in owned;
    var k1 := (y: YieldRecord) => y.farmer == farmer;
    var k2 := (y: YieldRecord) => y.field == field;
    var k3 := (y: YieldRecord) => OnOrAfter(y.date, after);
    var k4 := (y: YieldRecord) => OnOrBefore(y.date, before);
    var q0 := Narrow(t.yieldRecords, true, k0);
    var q1 := Narrow(q0, Truthy(farmer), k1);
    var q2 := Narrow(q1, Truthy(field), k2);
    var q3 := Narrow(q2, Truthy(Arg(params, "date_after")), k3);
    var q4 := Narrow(q3, Truthy(Arg(params, "date_before")), k4);
    assert YieldChain(t, user, params) == q4;
    if YieldSelected(t, user, params, y) {
      NarrowCounts(t.yieldRecords, true, k0);
      NarrowCounts(q0, Truthy(farmer), k1);
      NarrowCounts(q1, Truthy(field), k2);
      NarrowCounts(q2, Truthy(Arg(params, "date_after")), k3);
      NarrowCounts(q3, Truthy(Arg(params, "date_before")), k4);
    }
  }

  // ---------------------------------------------------------------------------------------
  // Lab creation

  const ForeignFarmerMessage := "You can only create labs for your own farmers."

  /** LabViewSet.perform_create: refuse a lab for another user's farmer, otherwise save it. */
  method PerformCreateLab(db: Database, requester: Id, farmer: FarmerRecord, labName: string, newId: Id)
    returns (r: Result<LabRecord, string>)
    modifies db
    ensures farmer.user != requester ==> r == Err(ForeignFarmerMessage) && db.tables == old(db.tables)
    ensures farmer.user == requester ==>
      r == Ok(LabRecord(newId, labName, farmer.id))
      && db.tables == old(db.tables).(labs := old(db.tables.labs) + [r.value])
  {
    if farmer.user != requester {
      return Err(ForeignFarmerMessage);
    }
    var lab := LabRecord(newId, labName, farmer.id);
    db.tables := db.tables.(labs := db.tables.labs + [lab]);
    r := Ok(lab);
  }

  // ---------------------------------------------------------------------------------------
  // get_user_info

  function FindCompany(companies: seq<CompanyRecord>, user: Id): (r: Option<CompanyRecord>)
    ensures r.Some? ==> r.value in companies && r.value.user == user
    ensures r.None? ==> forall c :: c in companies ==> c.user != user
  {
    if companies == [] then None
    else if companies[0].user == user then Some(companies[0])
    else FindCompany(companies[1..], user)
  }

  function FindAgronomist(agronomists: seq<AgronomistRecord>, user: Id): (r: Option<AgronomistRecord>)
    ensures r.Some? ==> r.value in agronomists && r.value.user == user
    ensures r.None? ==> forall a :: a in agronomists ==> a.user != user
  {
    if agronomists == [] then None
    else if agronomists[0].user == user then Some(agronomists[0])
    else FindAgronomist(agronomists[1..], user)
  }

  function FindFarmer(farmers: seq<FarmerRecord>, user: Id): (r: Option<FarmerRecord>)
    ensures r.Some? ==> r.value in farmers && r.value.user == user
    ensures r.None? ==> forall f :: f in farmers ==> f.user != user
  {
    if farmers == [] then None
    else if farmers[0].user == user then Some(farmers[0])
    else FindFarmer(farmers[1..], user)
  }

  /** The company a user works for: its own Company row's id for a company account, the
      profile's company for an agronomist or farmer, and none without a profile or role. */
  function CompanyIdFor(t: Tables, u: User): (r: Option<Id>)
    ensures u.role == Company ==>
      (r.Some? <==> exists c :: c in t.companies && c.user == u.id)
      && (r.Some? ==> exists c :: c in t.companies && c.user == u.id && c.id == r.value)
    ensures u.role == Agronomist ==>
      (r.Some? <==> exists a :: a in t.agronomists && a.user == u.id)
      && (r.Some? ==> exists a :: a in t.agronomists && a.user == u.id && a.company == r.value)
    ensures u.role == Farmer ==>
      (r.Some? <==> exists f :: f in t.farmers && f.user == u.id)
      && (r.Some? ==> exists f :: f in t.farmers && f.user == u.id && f.company == r.value)
    ensures u.role.Unlisted? ==> r.None?
  {
    match u.role
    case Company => (match FindCompany(t.companies, u.id) case Some(c) => Some(c.id) case None => None)
    case Agronomist => (match FindAgronomist(t.agronomists, u.id) case Some(a) => Some(a.company) case None => None)
    case Farmer => (match FindFarmer(t.farmers, u.id) case Some(f) => Some(f.company) case None => None)
    case Unlisted(_) => None
  }

  datatype UserInfo = UserInfo(id: Id, username: string, role: Role, company: Option<Id>, email: string)

  /** get_user_info's response body. */
  function GetUserInfo(t: Tables, u: User): (r: UserInfo)
    ensures r.id == u.id && r.username == u.username && r.role == u.role && r.email == u.email
    ensures r.company == CompanyIdFor(t, u)
  {
    UserInfo(u.id, u.username, u.role, CompanyIdFor(t, u), u.email)
  }

  /** After the post-save handler has given a new company account its Company row, the
      account's info names that row, provided the account had none before. */
  lemma {:induction false} NewCompanyAccountSeesItsCompany(t: Tables, u: User, newId: Id)
    requires u.role == Company
    requires forall c :: c in t.companies ==> c.user != u.id
    ensures CompanyIdFor(Signals.WithProfile(t, Signals.ProfileFor(u, None, true, newId)), u) == Some(newId)
  {
    var t' := Signals.WithProfile(t, Signals.ProfileFor(u, None, true, newId));
    assert t'.companies == t.companies + [CompanyRecord(newId, u.id, "")];
    FindAfterOthers(t.companies, CompanyRecord(newId, u.id, ""));
  }

  lemma {:induction false} FindAfterOthers(companies: seq<CompanyRecord>, c: CompanyRecord)
    requires forall d :: d in companies ==> d.user != c.user
    ensures FindCompany(companies + [c], c.user) == Some(c)
  {
    if companies != [] {
      assert (companies + [c])[1..] == companies[1..] + [c];
      FindAfterOthers(companies[1..], c);
    } else {
      assert [c][0] == c;
    }
  }

  // ---------------------------------------------------------------------------------------
  // Reports

  /** The database refuses an insert that breaks the (category, year) constraint. */
  datatype ReportError = IntegrityError

  /** `Report.objects.get_or_create(user=..., category=..., year=...)` in ReportView: the
      user's own row when there is one, otherwise a new empty row, which the table's
      constraint refuses when another user's row already holds that category and year.
      `year` is the current year read from the clock; `newId` is the id the database assigns.
      The result is the table afterwards and the index of the user's row. */
  function GetOrCreateReport(reports: seq<ReportRecord>, user: Id, category: string, year: nat, newId: Id)
    : (r: Result<(seq<ReportRecord>, nat), ReportError>)
    requires UniqueCategoryYear(reports)
    ensures r.Err? <==> FindReport(reports, user, category, year).None? && CategoryYearTaken(reports, category, year)
    ensures r.Ok? ==>
      && UniqueCategoryYear(r.value.0) && r.value.1 < |r.value.0|
      && r.value.0[r.value.1].user == user && r.value.0[r.value.1].category == category
      && r.value.0[r.value.1].year == year
    ensures r.Ok? && FindReport(reports, user, category, year).Some? ==>
      r.value == (reports, FindReport(reports, user, category, year).value)
    ensures r.Ok? && FindReport(reports, user, category, year).None? ==>
      r.value == (reports + [ReportRecord(newId, user, category, "", year)], |reports|)
  {
    match FindReport(reports, user, category, year)
    case Some(i) => Ok((reports, i))
    case None =>
      if CategoryYearTaken(reports, category, year) then Err(IntegrityError)
      else
        var row := ReportRecord(newId, user, category, "", year);
        assert forall i :: 0 <= i < |reports| ==> (reports[i].category, reports[i].year) != (category, year);
        Ok((reports + [row], |reports|))
  }

  /** Once one user keeps a report for a category this year, no other user can open one: the
      constraint leaves out the user, so the second get_or_create is refused. */
  lemma SecondUserRefused(reports: seq<ReportRecord>, first: Id, second: Id, category: string, year: nat,
                          id1: Id, id2: Id)
    requires UniqueCategoryYear(reports) && first != second
    requires GetOrCreateReport(reports, first, category, year, id1).Ok?
    ensures var (after, _) := GetOrCreateReport(reports, first, category, year, id1).value;
      UniqueCategoryYear(after) && GetOrCreateReport(after, second, category, year, id2) == Err(IntegrityError)
  {
    var (after, i) := GetOrCreateReport(reports, first, category, year, id1).value;
    assert CategoryYearTaken(after, category, year);
  }

  /** The category choices are not checked on this path: get_or_create saves a row for any
      category, listed or not. */
  lemma UnlistedCategoryAccepted(reports: seq<ReportRecord>, user: Id, category: string, year: nat, newId: Id)
    requires UniqueCategoryYear(reports) && !IsReportCategory(category)
    requires !CategoryYearTaken(reports, category, year)
    ensures GetOrCreateReport(reports, user, category, year, newId).Ok?
    ensures GetOrCreateReport(reports, user, category, year, newId).value.0
         == reports + [ReportRecord(newId, user, category, "", year)]
  {
  }

  /** ReportView.post with an entry the serializer accepted: the user's row for the category
      this year gains the entry, and nothing else changes. */
  function PostReportEntry(reports: seq<ReportRecord>, user: Id, category: string, year: nat, newId: Id,
                           entry: string): (r: Result<seq<ReportRecord>, ReportError>)
    requires UniqueCategoryYear(reports)
    ensures r.Err? <==> GetOrCreateReport(reports, user, category, year, newId).Err?
    ensures r.Ok? ==> UniqueCategoryYear(r.value)
    ensures r.Ok? ==>
      var (table, i) := GetOrCreateReport(reports, user, category, year, newId).value;
      r.value == WithEntryAt(table, i, entry)
  {
    match GetOrCreateReport(reports, user, category, year, newId)
    case Err(e) => Err(e)
    case Ok((table, i)) =>
      AddEntryKeepsUnique(table, i, entry);
      Ok(WithEntryAt(table, i, entry))
  }

  // ---------------------------------------------------------------------------------------
  // Login

  /** The request body, by key. */
  type RequestData = map<string, string>

  function Get(data: RequestData, key: string): string {
    if key in data then data[key] else ""
  }

  datatype LoginOutcome =
    | MissingCredentials          // 400: both identifier and password are required
    | UnknownUser                 // 400: no user found with these credentials
    | AmbiguousUser               // more than one account has that email: the lookup raises
    | Authenticate(data: RequestData)  // handed on to token issuance with this body

  /** The accounts the identifier names: by email when it contains '@', by username otherwise. */
  function MatchingUsers(users: seq<User>, identifier: string): (r: seq<User>)
    ensures forall u :: u in r <==> u in users && (if '@' in identifier then u.email == identifier else u.username == identifier)
  {
    if '@' in identifier then Filter(users, (u: User) => u.email == identifier)
    else Filter(users, (u: User) => u.username == identifier)
  }

  /** CustomTokenObtainPairView.post up to token issuance. */
  function LoginRoute(data: RequestData, users: seq<User>): (r: LoginOutcome)
    ensures !Truthy(Get(data, "identifier")) || !Truthy(Get(data, "password")) <==> r == MissingCredentials
    ensures r == UnknownUser <==>
      Truthy(Get(data, "identifier")) && Truthy(Get(data, "password"))
      && forall u :: u in users ==>
        (if '@' in Get(data, "identifier") then u.email else u.username) != Get(data, "identifier")
    ensures Truthy(Get(data, "identifier")) && Truthy(Get(data, "password")) ==>
      (r.Authenticate? <==> |MatchingUsers(users, Get(data, "identifier"))| == 1)
      && (r == AmbiguousUser <==> |MatchingUsers(users, Get(data, "identifier"))| > 1)
    ensures r.Authenticate? ==>
      var found := MatchingUsers(users, Get(data, "identifier"));
      |found| == 1 && found[0] in users && r.data == data["username" := found[0].username]
      && (if '@' in Get(data, "identifier") then found[0].email else found[0].username) == Get(data, "identifier")
  {
    var identifier := Get(data, "identifier");
    var password := Get(data, "password");
    if !Truthy(identifier) || !Truthy(password) then MissingCredentials
    else
      var found := MatchingUsers(users, identifier);
      if |found| == 0 then
        UnknownUser
      else if |found| > 1 then
        assert found[0] in found;
        AmbiguousUser
      else
        assert found[0] in found;
        Authenticate(data["username" := found[0].username])
  }

  /** A body that reached token issuance keeps every key it had and says who to authenticate. */
  lemma LoginKeepsRequestData(data: RequestData, users: seq<User>, key: string)
    requires LoginRoute(data, users).Authenticate?
    requires key != "username" && key in data
    ensures key in LoginRoute(data, users).data && LoginRoute(data, users).data[key] == data[key]
  {
  }

  // ---------------------------------------------------------------------------------------
  // create_farmer_user

  const RequiredFields: seq<string> := ["username", "email", "password", "company", "name"]

  /** The required fields that are absent or empty, in the order they are listed. */
  function MissingFields(data: RequestData): (r: seq<string>)
    ensures forall f :: f in r <==> f in RequiredFields && !Truthy(Get(data, f))
    ensures IsSubsequence(r, RequiredFields)
  {
    FilterIsSubsequence(RequiredFields, (f: string) => !Truthy(Get(data, f)));
    Filter(RequiredFields, (f: string) => !Truthy(Get(data, f)))
  }

  function MissingFieldsMessage(missing: seq<string>): string {
    "Missing required fields: " + Join(missing, ", ")
  }

  datatype CreateResponse = Created(user: User, farmer: FarmerRecord) | BadRequest(error: string)

  /** create_farmer_user. `userErrors` and `farmerErrors` are what the two serializers report
      (None when the data is valid); the new rows get the ids `newUserId` and `newFarmerId`.
      The user's username is its email, as the user serializer stores it. */
  method CreateFarmerUser(db: Database, data: RequestData, userErrors: Option<string>,
                          farmerErrors: Option<string>, newUserId: Id, newFarmerId: Id)
    returns (resp: CreateResponse)
    modifies db
    ensures |MissingFields(data)| > 0 ==> resp == BadRequest(MissingFieldsMessage(MissingFields(data)))
    ensures MissingFields(data) == [] && userErrors.Some? ==> resp == BadRequest(userErrors.value)
    ensures MissingFields(data) == [] && userErrors.None? && farmerErrors.Some? ==>
      resp == BadRequest(farmerErrors.value)
    ensures resp.Created? <==> MissingFields(data) == [] && userErrors.None? && farmerErrors.None?
    ensures resp.Created? ==>
      && resp.user == User(newUserId, Get(data, "email"), Get(data, "email"), Farmer)
      && resp.farmer == FarmerRecord(newFarmerId, newUserId, Get(data, "company"), Get(data, "name"))
      && db.tables == old(db.tables).(users := old(db.tables.users) + [resp.user],
                                      farmers := old(db.tables.farmers) + [resp.farmer])
    ensures !resp.Created? ==> db.tables == old(db.tables)
  {
    var missing := MissingFields(data);
    if |missing| > 0 {
      return BadRequest(MissingFieldsMessage(missing));
    }
    if userErrors.Some? {
      return BadRequest(userErrors.value);
    }
    var before := db.tables;
    var user := User(newUserId, Get(data, "email"), Get(data, "email"), Farmer);
    db.tables := db.tables.(users := db.tables.users + [user]);
    // Saving the user runs the post-save handler; the new account carries no company.
    Signals.CreateUserProfile(db, user, None, true, newFarmerId);
    if farmerErrors.Some? {
      // The transaction rolls back the user.
      db.tables := before;
      return BadRequest(farmerErrors.value);
    }
    var farmer := FarmerRecord(newFarmerId, newUserId, Get(data, "company"), Get(data, "name"));
    db.tables := db.tables.(farmers := db.tables.farmers + [farmer]);
    resp := Created(user, farmer);
  }
}
