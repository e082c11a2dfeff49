/** The back end's data model (backend/api/models.py): user roles, the record tables the
    views query, and the yearly per-category report whose text grows by appended entries. */
module Models {
  import opened Common

  /** CustomUser.Role. A role column holding any other text is `Unlisted`. */
  datatype Role = Company | Agronomist | Farmer | Unlisted(name: string)

  /** The role a user gets when none is given. */
  const DefaultRole: Role := Company

  datatype User = User(id: Id, username: string, email: string, role: Role)

  /** A user created without naming a role. */
  function NewUser(id: Id, username: string, email: string): (u: User)
    ensures IsCompany(u) && !IsAgronomist(u) && !IsFarmer(u)
    ensures u.id == id && u.username == username && u.email == email
  {
    User(id, username, email, DefaultRole)
  }

  predicate IsCompany(u: User) {
    u.role == Company
  }

  predicate IsAgronomist(u: User) {
    u.role == Agronomist
  }

  predicate IsFarmer(u: User) {
    u.role == Farmer
  }

  // The tables. Foreign keys hold the referenced row's id.
  datatype CompanyRecord = CompanyRecord(id: Id, user: Id, companyName: string)
  datatype AgronomistRecord = AgronomistRecord(id: Id, user: Id, company: Id, firstName: string, lastName: string)
  datatype FarmerRecord = FarmerRecord(id: Id, user: Id, company: Id, name: string)
  datatype FieldRecord = FieldRecord(id: Id, farmer: Id, fieldName: string)
  datatype LabRecord = LabRecord(id: Id, labName: string, farmer: Id)
  datatype CropRecord = CropRecord(id: Id, cropName: string, farmer: Id)
  datatype SoilTestRecord = SoilTestRecord(id: Id, testDate: Day, lab: Id, field: Id, crop: Id)
  datatype YieldRecord = YieldRecord(id: Id, farmer: Id, field: Id, date: Day, yieldNumber: string)
  datatype ReportRecord = ReportRecord(id: Id, user: Id, category: string, text: string, year: nat)

  datatype Tables = Tables(
    users: seq<User>,
    companies: seq<CompanyRecord>,
    agronomists: seq<AgronomistRecord>,
    farmers: seq<FarmerRecord>,
    fields: seq<FieldRecord>,
    labs: seq<LabRecord>,
    crops: seq<CropRecord>,
    soilTests: seq<SoilTestRecord>,
    yieldRecords: seq<YieldRecord>,
    reports: seq<ReportRecord>)

  /** The database the views and signal handlers read and write. */
  class Database {
    var tables: Tables

    constructor (initial: Tables)
      ensures tables == initial
    {
      tables := initial;
    }
  }

  /** Report.CATEGORY_CHOICES, by stored value. */
  const ReportCategories: seq<string> := [
    "fertilizer_application", "seeding_new_crop", "irrigation", "herbicide_application",
    "pesticide_application", "harvest", "mechanical_disturbance", "weather", "livestock",
    "management", "other"
  ]

  predicate IsReportCategory(c: string) {
    c in ReportCategories
  }

  /** The table constraint `unique_together = ('category', 'year')`: the user is not part of it. */
  predicate UniqueCategoryYear(reports: seq<ReportRecord>) {
    forall i, j :: 0 <= i < j < |reports| ==>
      (reports[i].category, reports[i].year) != (reports[j].category, reports[j].year)
  }

  /** Some row already holds this category and year. */
  predicate CategoryYearTaken(reports: seq<ReportRecord>, category: string, year: nat) {
    exists i :: 0 <= i < |reports| && reports[i].category == category && reports[i].year == year
  }

  /** The index of the user's row for a category and year, if there is one. */
  function FindReport(reports: seq<ReportRecord>, user: Id, category: string, year: nat): (r: Option<nat>)
    ensures r.Some? ==>
      && r.value < |reports|
      && reports[r.value].user == user && reports[r.value].category == category && reports[r.value].year == year
    ensures r.None? ==> forall i :: 0 <= i < |reports| ==>
      !(reports[i].user == user && reports[i].category == category && reports[i].year == year)
  {
    if reports == [] then None
    else if reports[0].user == user && reports[0].category == category && reports[0].year == year then Some(0)
    else match FindReport(reports[1..], user, category, year)
      case None => None
      case Some(k) => Some(k + 1)
  }

  /** A row's text after add_entry, with every other row and column left as it was. */
  function WithEntryAt(reports: seq<ReportRecord>, i: nat, entry: string): (r: seq<ReportRecord>)
    requires i < |reports|
    ensures |r| == |reports| && r[i].text == WithEntry(reports[i].text, entry)
    ensures r[i] == reports[i].(text := r[i].text)
    ensures forall j :: 0 <= j < |reports| && j != i ==> r[j] == reports[j]
  {
    reports[i := reports[i].(text := WithEntry(reports[i].text, entry))]
  }

  /** Adding an entry never breaks the (category, year) constraint. */
  lemma AddEntryKeepsUnique(reports: seq<ReportRecord>, i: nat, entry: string)
    requires i < |reports| && UniqueCategoryYear(reports)
    ensures UniqueCategoryYear(WithEntryAt(reports, i, entry))
  {
    var r := WithEntryAt(reports, i, entry);
    forall j, k | 0 <= j < k < |r|
      ensures (r[j].category, r[j].year) != (r[k].category, r[k].year)
    {
      assert r[j].category == reports[j].category && r[j].year == reports[j].year;
      assert r[k].category == reports[k].category && r[k].year == reports[k].year;
    }
  }

  /** The report text after one entry is added: the old text, a newline, the entry. */
  function WithEntry(text: string, entry: string): (r: string)
    ensures |r| == |text| + |entry| + 1
    ensures r[..|text|] == text && r[|text|] == '\n' && r[|text| + 1..] == entry
  {
    text + "\n" + entry
  }

  /** A report row, whose text is a log of entries. */
  class Report {
    var user: Id
    var category: string
    var text: string
    var year: nat

    constructor (user: Id, category: string, year: nat)
      ensures this.user == user && this.category == category && this.year == year
      ensures text == ""
    {
      this.user := user;
      this.category := category;
      this.year := year;
      text := "";
    }

    /** Report.add_entry: append the entry on a new line (saving the row is not modelled). */
    method AddEntry(entry: string)
      modifies this`text
      ensures text == WithEntry(old(text), entry)
    {
      text := text + "\n" + entry;
    }
  }

  /** The text of a fresh report after each entry has been added in turn. */
  function AddEntries(text: string, entries: seq<string>): (r: string)
    ensures |r| >= |text|
    ensures r[..|text|] == text
    decreases |entries|
  {
    if entries == [] then text
    else
      var next := WithEntry(text, entries[0]);
      assert next[..|text|] == text;
      var r := AddEntries(next, entries[1..]);
      assert r[..|text|] == r[..|next|][..|text|];
      r
  }

  /** Starting from one line, the lines after appending are that line and then the entries. */
  lemma {:induction false} SplitAfterEntries(text: string, entries: seq<string>)
    requires '\n' !in text
    requires forall k :: 0 <= k < |entries| ==> '\n' !in entries[k]
    ensures Split(AddEntries(text, entries), '\n') == [text] + entries
    decreases |entries|
  {
    if entries == [] {
      SplitOfPiece(text, '\n');
    } else {
      SplitAfterEntries(entries[0], entries[1..]);
      AddEntriesShift(text, entries[0], entries[1..]);
      SplitAfterPiece(text, '\n', AddEntries(entries[0], entries[1..]));
      assert [entries[0]] + entries[1..] == entries;
    }
  }

  /** Appending after a prefix commutes with the prefix. */
  lemma {:induction false} AddEntriesShift(prefix: string, text: string, entries: seq<string>)
    ensures AddEntries(prefix + "\n" + text, entries) == prefix + "\n" + AddEntries(text, entries)
    decreases |entries|
  {
    if entries != [] {
      calc {
        AddEntries(prefix + "\n" + text, entries);
        AddEntries(WithEntry(prefix + "\n" + text, entries[0]), entries[1..]);
        { assert WithEntry(prefix + "\n" + text, entries[0]) == prefix + "\n" + WithEntry(text, entries[0]); }
        AddEntries(prefix + "\n" + WithEntry(text, entries[0]), entries[1..]);
        { AddEntriesShift(prefix, WithEntry(text, entries[0]), entries[1..]); }
        prefix + "\n" + AddEntries(WithEntry(text, entries[0]), entries[1..]);
      }
    }
  }

  /** The report log loses nothing: a report that starts empty and receives entries without
      newlines splits back into an empty first line followed by exactly those entries. */
  lemma ReportLogRecoversEntries(entries: seq<string>)
    requires forall k :: 0 <= k < |entries| ==> '\n' !in entries[k]
    ensures Split(AddEntries("", entries), '\n') == [""] + entries
  {
    SplitAfterEntries("", entries);
  }
}
