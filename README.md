# Farm records: a verified model of the analytics, query and report logic

The farm-records application has two halves. A Django back end serves a company's farmers
together with their fields, labs, crops, soil tests, yields and yearly reports. A React front
end lets agronomists chart soil-test metrics and yields, search clients and keep report logs.
This project models in Dafny the parts of both halves that carry logic:

- **Common** holds the types shared by the modules: Option/Result, ids as text, days as
  integers, request parameters as text plus the day they denote, and JSON scalars (undefined,
  null or a value) and objects of them, with the name the front end shows for a farmer. It
  also holds `Array.filter` as `Filter`, order-preserving subsequences,
  and Python's `split`/`join` with their round trips.
- **Models** (`backend/api/models.py`) covers:
  - the user roles and the default role;
  - the tables;
  - the report's category list and its (category, year) uniqueness;
  - `Report.add_entry` as a method of a `Report` class.
- **Admin** (`backend/api/admin.py`) is the user-creation form's company check.
- **Signals** (`backend/api/signals.py`) is the post-save handler. It creates the profile row
  the role calls for, as a method on the `Database` class.
- **Views** (`backend/api/views.py`) covers:
  - every user-scoped `get_queryset`, written as a chain of optional filters;
  - the farmer serializer's output, which the front end reads names from;
  - lab creation;
  - the report view's `get_or_create` and entry post, under the table's (category, year)
    constraint;
  - the login identifier routing;
  - the required-field check and the two-step creation of `create_farmer_user`;
  - the company resolution of `get_user_info`.
- **FilterComponent** (`frontend/src/components/FilterComponent.jsx`) is the filter panel, a
  class whose methods are the panel's buttons and checkboxes. It also builds the snapshot
  handed to the graph.
- **GraphComponent** (`frontend/src/components/GraphComponent.jsx`) covers:
  - the per-target query string;
  - the strict client-side yield filter;
  - chart series construction;
  - the all-or-nothing update of the graph list;
  - rendering;
  - the page loop of the PDF export.
- **ClientList** (`frontend/src/components/ClientList.jsx`) is the case-insensitive client
  search, both over the farmer objects the list receives and over clients that carry their
  names.
- **Reports** (`frontend/src/pages/Reports.jsx`) covers the category labels, the load of
  every category's text, and the append of a new entry.

Network requests are not modelled. Their outcomes (data, or failure as `None`) are inputs of
the methods that receive them.

## Model

| member | source | states |
|---|---|---|
| Common.Split | backend/api/views.py:209-215 | `str.split`: at least one piece, and no piece contains the separator |
| Common.SplitJoin | backend/api/views.py:211 | pieces without the separator, joined and split again, come back unchanged |
| Common.JoinSplit | backend/api/views.py:211 | splitting a text and joining it back gives the text |
| Common.FilterCounts | frontend/src/components/GraphComponent.jsx:96 | `filter` keeps every copy of a kept element and none of a dropped one, so equal records are all kept |
| Models.NewUser | backend/api/models.py:13-17 | a user created without a role is a company account, and neither an agronomist nor a farmer |
| Models.FindReport | backend/api/views.py:228 | the index of a row of this user for this category and year, or none iff no row matches all three |
| Models.WithEntryAt | backend/api/models.py:220-222 | one row's text becomes WithEntry(old text, entry); its other columns and every other row are unchanged |
| Models.AddEntryKeepsUnique | backend/api/models.py:215-222 | adding an entry to a row keeps the table unique on (category, year) |
| Models.WithEntry | backend/api/models.py:220-221 | the new text is the old text, then a newline, then the entry: the old text is a prefix and the length grows by the entry's length plus one |
| Models.Report.AddEntry | backend/api/models.py:220-222 | the report's text becomes WithEntry(old text, entry), and nothing else changes |
| Models.ReportLogRecoversEntries | backend/api/models.py:209-221 | a report that starts empty and receives entries without newlines splits back into "" followed by exactly those entries |
| Admin.Clean | backend/api/admin.py:24-32 | an error iff the role is agronomist or farmer and no company is given, with the form's message; otherwise the cleaned data is returned unchanged |
| Admin.CompanyRoleAlwaysPasses | backend/api/admin.py:29 | a company account passes with or without a company |
| Signals.ProfileFor | backend/api/signals.py:5-17 | no profile unless the user was just created; a company user gets a Company row; an agronomist or farmer gets the matching row linked to its company iff it carries one; the row belongs to the user |
| Signals.WithProfile | backend/api/signals.py:8-17 | no profile leaves the tables as they were; a profile row is appended to the table of its kind, and the other two profile tables and every other table are unchanged |
| Signals.CreateUserProfile | backend/api/signals.py:5-17 | the tables after the handler are the old tables with ProfileFor's row added |
| Signals.AtMostOneProfilePerSave | backend/api/signals.py:7-17 | one save adds at most one profile row; a save that is not a creation adds none |
| Signals.AdminProfileAsWritten | backend/api/signals.py:11-16 | the handler as the admin drives it reads no company, so an agronomist or farmer gets no profile |
| Signals.AdminCheckedUserGetsNoProfile | backend/api/admin.py:24-32 | an agronomist or farmer that passed the company check still gets no profile as written |
| Signals.AdminProfile | backend/api/signals.py:10-17 | with the checked company handed on, an agronomist or farmer with a company gets a profile linked to that company |
| Signals.AdminCheckedUserGetsProfile | backend/api/admin.py:29-32 | with the company handed on, every user that passed the check as an agronomist or farmer gets a profile of its role, for itself, linked to the checked company |
| Views.FarmerQuery | backend/api/views.py:95-100 | exactly the user's own farmers, every copy, in table order |
| Views.SerializeFarmer | backend/api/serializers.py:25-28 | a farmer is sent as exactly the keys id, user, company and name, with its id and name |
| Views.FarmerListResponse | backend/api/views.py:91-100 | the farmer list's body has one serialized farmer per farmer of the query, in the same order |
| Views.SerializedFarmerUnnamed | backend/api/serializers.py:25-28 | a serialized farmer has no `farmer_fname` or `farmer_lname`, so the front end names it "undefined undefined" |
| Views.UserFarmerIds | backend/api/views.py:114 | an id is among the user's farmer ids iff the user owns a farmer with that id |
| Views.FieldQuery | backend/api/views.py:106-121 | a field is listed iff it belongs to one of the user's farmers and, when `farmer` is given, to that farmer; order is kept |
| Views.FieldsOfForeignFarmerEmpty | backend/api/views.py:114-118 | asking for a farmer the user does not own lists no fields |
| Views.ScopedFarmers | backend/api/views.py:134-139 | the user's farmers, narrowed to the `farmer` parameter when given |
| Views.LabQuery | backend/api/views.py:132-144 | a lab is listed iff its farmer is the user's and, when `farmer` is given, is that farmer |
| Views.CropQuery | backend/api/views.py:156-168 | with the crop table's farmer column (see Findings), a crop is listed iff its farmer is the user's and, when `farmer` is given, is that farmer |
| Views.CropQueryAsWritten | backend/api/views.py:166 | against the Crop model as declared in models.py:92-101, the `farmer` lookup names no field, so the query fails |
| Views.CropListingFailsAsWritten | backend/api/views.py:156-168 | a crop that CropQuery lists for the user makes the as-written request fail |
| Views.UserFieldIds | backend/api/views.py:195-198 | an id is listed iff it is a field of one of the user's farmers |
| Views.SoilTestQuery | backend/api/views.py:190-221 | with the soil-test crop column (see Findings): fails iff the date range applies and a bound is not a date. Otherwise a test is listed iff it is on a field of the user's farmers, its field and crop are in the given comma-separated lists, and, when both startDate and endDate are given, it falls inside the inclusive range; every copy of a listed test is kept, in order |
| Views.SoilTestChain | backend/api/views.py:201-219 | the chain of optional filters yields a subsequence of the tests |
| Views.SoilTestChainKeeps | backend/api/views.py:201-219 | a test survives the chain iff it meets every applied condition, and then every copy of it survives |
| Views.SoilOneDateBoundIgnored | backend/api/views.py:206-219 | adding only startDate, or only endDate, does not change the result |
| Views.SoilTestQueryAsWritten | backend/api/views.py:213-215 | against the SoilTest model as declared in models.py:142-189, a `crop` parameter makes the query fail; without one it is SoilTestQuery |
| Views.CropNarrowedSoilQueryFailsAsWritten | backend/api/views.py:213-215 | a crop-narrowed request that SoilTestQuery answers with a selected test fails as written |
| Views.YieldQuery | backend/api/views.py:247-279 | fails iff a given date parameter is not a date. Otherwise a yield is listed iff its farmer is the user's and it meets every given parameter (farmer, field, date ≥ date_after, date ≤ date_before); every copy of a listed yield is kept, in order |
| Views.YieldChain | backend/api/views.py:255-274 | the chain of optional filters yields a subsequence of the yields |
| Views.YieldChainKeeps | backend/api/views.py:255-274 | a yield survives the chain iff it meets every applied condition, and then every copy of it survives |
| Views.PerformCreateLab | backend/api/views.py:146-150 | a lab for another user's farmer is refused with the view's message and nothing is saved; otherwise exactly that lab is appended |
| Views.FindCompany | backend/api/views.py:52 | finds a company row of the user, or reports that there is none |
| Views.FindAgronomist | backend/api/views.py:62 | finds an agronomist row of the user, or reports that there is none |
| Views.FindFarmer | backend/api/views.py:65 | finds a farmer row of the user, or reports that there is none |
| Views.CompanyIdFor | backend/api/views.py:47-69 | a company account gets its Company row's id; an agronomist or farmer gets its profile's company; the result is none iff that row is missing; any other role gets none |
| Views.GetUserInfo | backend/api/views.py:74-80 | the response echoes id, username, role and email, with CompanyIdFor's company |
| Views.NewCompanyAccountSeesItsCompany | backend/api/views.py:50-55 | after the post-save handler runs for a new company account, its info names the row the handler created |
| Views.GetOrCreateReport | backend/api/views.py:226-234 | the user's own row for the category and year when there is one, the table unchanged; otherwise a new empty row appended, refused iff another row already holds that category and year; the table stays unique on (category, year) |
| Views.SecondUserRefused | backend/api/models.py:215 | once one user has a report for a category and year, any other user's get_or_create for them is refused |
| Views.UnlistedCategoryAccepted | backend/api/models.py:192-208 | a category outside the choice list is saved all the same, since get_or_create does not check the choices |
| Views.PostReportEntry | backend/api/views.py:232-241 | refused iff get_or_create is; otherwise the user's row gains the entry by WithEntryAt, and the table stays unique on (category, year) |
| Views.MatchingUsers | backend/api/views.py:323-326 | an identifier with '@' selects accounts by email, otherwise by username |
| Views.LoginRoute | backend/api/views.py:304-341 | missing credentials iff identifier or password is empty, before any lookup; otherwise unknown user iff no account matches, ambiguous iff several do, and authentication iff exactly one does, with the body's `username` set to that account's username |
| Views.LoginKeepsRequestData | backend/api/views.py:329-332 | the body passed on keeps every other key unchanged |
| Views.MissingFields | backend/api/views.py:350-351 | the required fields that are absent or empty, in the listed order |
| Views.CreateFarmerUser | backend/api/views.py:345-400 | with missing fields, a 400 lists them joined by ", " and nothing is created; otherwise a rejected user is answered with the user serializer's errors, and then a rejected farmer with the farmer serializer's. It returns Created iff no field is missing and both serializers accept; then exactly the user (username = email, role farmer) and its farmer row are added; on any error the tables are unchanged |
| FilterComponent.SoilTestFieldsShape | frontend/src/components/FilterComponent.jsx:19-28 | the metric list has 36 names and does not include the yield metric |
| FilterComponent.Without | frontend/src/components/FilterComponent.jsx:139 | the value is gone, every copy of every other value is kept, and order is kept |
| FilterComponent.Toggled | frontend/src/components/FilterComponent.jsx:136-140 | checking appends the value at the end; unchecking removes every occurrence |
| FilterComponent.WithoutAbsent | frontend/src/components/FilterComponent.jsx:139 | removing a value that is absent changes nothing |
| FilterComponent.WithoutAppend | frontend/src/components/FilterComponent.jsx:139 | removal distributes over concatenation |
| FilterComponent.CheckThenUncheck | frontend/src/components/FilterComponent.jsx:136-140 | checking and then unchecking a value that was not selected restores the list |
| FilterComponent.UncheckTwice | frontend/src/components/FilterComponent.jsx:139 | unchecking is idempotent |
| FilterComponent.Snapshot | frontend/src/components/FilterComponent.jsx:52-63 | the yields view forces field scope and the metric list ["yield_number"]; the soil view passes both through; filterValues is selectedFilters |
| FilterComponent.OptionsToLoad | frontend/src/components/FilterComponent.jsx:38-50 | nothing is loaded until a farmer is chosen; then the farmer's fields are loaded in field scope, its crops otherwise |
| FilterComponent.FilterPanel.constructor | frontend/src/components/FilterComponent.jsx:10-17 | initial state: no farmer, field scope, soil view, bar chart, empty selections, null dates |
| FilterComponent.FilterPanel.ShowSoil | frontend/src/components/FilterComponent.jsx:71-74 | soil view and field scope; the selections are outside its frame, so they stay unchanged |
| FilterComponent.FilterPanel.ShowYields | frontend/src/components/FilterComponent.jsx:80-83 | yields view and field scope; the selections stay unchanged; the invariant holds |
| FilterComponent.FilterPanel.ChooseField | frontend/src/components/FilterComponent.jsx:109 | field scope; the invariant is kept |
| FilterComponent.FilterPanel.ChooseCrop | frontend/src/components/FilterComponent.jsx:113-120 | crop scope, offered only in the soil view, so the yields view keeps field scope |
| FilterComponent.FilterPanel.SelectFarmer | frontend/src/components/FilterComponent.jsx:95 | the chosen farmer is stored |
| FilterComponent.FilterPanel.SetStartDate | frontend/src/components/FilterComponent.jsx:156 | the start date input's value is stored |
| FilterComponent.FilterPanel.SetEndDate | frontend/src/components/FilterComponent.jsx:166 | the end date input's value is stored |
| FilterComponent.FilterPanel.SetGraphType | frontend/src/components/FilterComponent.jsx:175 | the chosen chart kind is stored |
| FilterComponent.FilterPanel.ToggleTarget | frontend/src/components/FilterComponent.jsx:132-141 | selectedFilters becomes Toggled(old list, value, checked) |
| FilterComponent.FilterPanel.ToggleMetric | frontend/src/components/FilterComponent.jsx:192-198 | selectedFields becomes Toggled(old list, field, checked) |
| FilterComponent.FilterPanel.GenerateGraph | frontend/src/components/FilterComponent.jsx:52-63 | the snapshot of the current state; under the invariant its scope is the panel's own |
| GraphComponent.GraphQueryParams | frontend/src/components/GraphComponent.jsx:84-89 | farmer, the target under `field`, and date_after/date_before exactly when the dates are set; never `crop`, `startDate` or `endDate` |
| GraphComponent.SoilQueryIgnoresChosenDates | frontend/src/components/GraphComponent.jsx:84-89 | as sent, every test on the chosen field is listed, whatever dates were chosen |
| GraphComponent.CropScopeQueriesFields | frontend/src/components/GraphComponent.jsx:84-89 | as sent, a crop-scoped query omits a test of that crop that sits on a field with another id |
| GraphComponent.SoilQueryParams | frontend/src/components/GraphComponent.jsx:84-89 | corrected query: the target goes under the key of the chosen scope, and the dates go under the names the soil-test view reads |
| GraphComponent.CorrectedSoilQuerySelects | frontend/src/components/GraphComponent.jsx:84-89 | with the corrected query, a test is listed iff it is the user's, matches the target in the chosen scope, and lies in the chosen range |
| GraphComponent.KeptYields | frontend/src/components/GraphComponent.jsx:96-106 | a yield is kept iff its date is valid, its value is not null or undefined, its farmer and field match, and it lies inside each set bound; every copy of a kept yield is kept, in response order |
| GraphComponent.KeptYieldsIdempotent | frontend/src/components/GraphComponent.jsx:96-106 | filtering the kept yields again keeps all of them |
| GraphComponent.KeptYieldsInRange | frontend/src/components/GraphComponent.jsx:103-104 | with both bounds set, every kept yield's date lies between them, and both bounds are valid dates |
| GraphComponent.NameOr | frontend/src/components/GraphComponent.jsx:135 | the loaded name when it is non-empty, otherwise "Loading..."; never empty |
| GraphComponent.YieldSeries | frontend/src/components/GraphComponent.jsx:132-142 | one dataset named "Yield for …"; one label and one value per yield, in order |
| GraphComponent.SoilSeries | frontend/src/components/GraphComponent.jsx:146-165 | one dataset per selected metric, in order and named after it; value j is test j's column, undefined when it is missing; labels are the raw test dates |
| GraphComponent.SeriesFor | frontend/src/components/GraphComponent.jsx:91-166 | the yields view plots the strictly filtered yields; the soil view plots the response as is; the series carries its target |
| GraphComponent.SoilTestsPassThrough | frontend/src/components/GraphComponent.jsx:114-120 | every soil test of the response is plotted, in order, without any client-side check |
| GraphComponent.YieldPointsAreKept | frontend/src/components/GraphComponent.jsx:96-136 | every point of a yield chart has a valid date inside the set bounds and a non-null value |
| GraphComponent.AllSeries | frontend/src/components/GraphComponent.jsx:124-167 | no result iff some request failed; otherwise one series per target, in target order |
| GraphComponent.SeriesFollowTargets | frontend/src/components/GraphComponent.jsx:125-142 | series i carries target i, and there are as many series as targets |
| GraphComponent.GraphPanel.constructor | frontend/src/components/GraphComponent.jsx:31-33 | empty graph list, empty farmer name, no field names |
| GraphComponent.GraphPanel.FetchAllData | frontend/src/components/GraphComponent.jsx:124-169 | the graph list is replaced by AllSeries when every request succeeded, and is otherwise unchanged |
| GraphComponent.GraphPanel.ReceiveFarmerName | frontend/src/components/GraphComponent.jsx:175-177 | the farmer name is `${farmer_fname} ${farmer_lname}` of the received object: first name, a space and last name when both are present |
| GraphComponent.SerializedFarmerTitle | frontend/src/components/GraphComponent.jsx:176 | with the farmer object the back end sends, every chart title reads "… for undefined undefined - …" |
| GraphComponent.NamedFarmerTitle | frontend/src/components/GraphComponent.jsx:176 | with both names present, the chart title names the farmer by first and last name |
| GraphComponent.GraphPanel.ReceiveFieldName | frontend/src/components/GraphComponent.jsx:180-186 | the field name is stored under its target; the other names are kept |
| GraphComponent.Render | frontend/src/components/GraphComponent.jsx:191-263 | only the empty-state message iff the list is empty; otherwise one chart per series, in order, of the chosen kind, with the view's title and axis titles |
| GraphComponent.RejectedFetchBuildsNothing | frontend/src/components/GraphComponent.jsx:169-193 | one failed request means no series are built, and an empty list, such as a fresh component's, renders the empty-state message |
| GraphComponent.ScaledHeight | frontend/src/components/GraphComponent.jsx:54-56 | the image height scaled to the page width keeps the canvas's aspect ratio |
| GraphComponent.PagesNeededCovers | frontend/src/components/GraphComponent.jsx:57-70 | the page count covers the image, and one page fewer would not (max(1, ⌈H/297⌉)) |
| GraphComponent.PageCountUnique | frontend/src/components/GraphComponent.jsx:57-70 | any count that covers the image with no page to spare is PagesNeeded |
| GraphComponent.PageOffsets | frontend/src/components/GraphComponent.jsx:54-70 | the loop ends; it adds PagesNeeded(H) pages; page k shows the image at offset −k·297 |
| ClientList.LowerChar | frontend/src/components/ClientList.jsx:24 | capitals map to their small letters and nothing else changes; the result is never a capital |
| ClientList.Lower | frontend/src/components/ClientList.jsx:24 | lower-cases character by character, keeping the length |
| ClientList.LowerIdempotent | frontend/src/components/ClientList.jsx:24 | lower-casing twice is lower-casing once |
| ClientList.Contains | frontend/src/components/ClientList.jsx:24 | `includes` holds iff the text occurs at some offset |
| ClientList.MissingCharNotContained | frontend/src/components/ClientList.jsx:24 | a query with a character the text lacks is not included in it |
| Common.FarmerFullName | frontend/src/components/ClientList.jsx:24 | `${f.farmer_fname} ${f.farmer_lname}`: first name, a space and last name when both keys are present; "undefined undefined" when both are missing |
| ClientList.ShownAsWritten | frontend/src/components/ClientList.jsx:21-25 | as written, over farmer objects: an object is shown iff its lower-cased name text contains the lower-cased query; every copy is kept, in order |
| ClientList.SerializedClientsAllOrNothing | frontend/src/components/ClientList.jsx:24 | over the farmer list the back end sends, a query contained in "undefined undefined" shows every client and any other query shows none |
| ClientList.ForeignLetterFindsNobody | frontend/src/components/ClientList.jsx:24 | a query with a letter that "undefined undefined" lacks shows no client |
| ClientList.SmithFindsNobody | frontend/src/components/ClientList.jsx:24 | searching "Smith" shows no client, whatever the farmers are called |
| ClientList.UndefFindsEveryone | frontend/src/components/ClientList.jsx:24 | searching "undef" shows every client |
| ClientList.NamedClientMatches | frontend/src/components/ClientList.jsx:24 | a farmer object carrying both names matches a query exactly when the client with those names does |
| ClientList.Shown | frontend/src/components/ClientList.jsx:21-25 | a client is shown iff its lower-cased "first last" contains the lower-cased query; every copy of a shown client is kept, in order |
| ClientList.EmptyQueryShowsAll | frontend/src/components/ClientList.jsx:24 | an empty query shows every client |
| ClientList.QueryCaseIgnored | frontend/src/components/ClientList.jsx:24 | queries that differ only in letter case show the same clients |
| ClientList.QueryLowered | frontend/src/components/ClientList.jsx:24 | lower-casing the query does not change the result |
| ClientList.Render | frontend/src/components/ClientList.jsx:17-25 | the "No clients found" message iff there are no clients; otherwise the matches |
| ClientList.NoClientsWhateverQuery | frontend/src/components/ClientList.jsx:17-18 | with no clients the message shows, whatever the query |
| Reports.CategoriesAreReportCategories | frontend/src/pages/Reports.jsx:6-18 | the page's categories are the back end's report categories, in the same order, no two alike |
| Reports.FirstIndex | frontend/src/pages/Reports.jsx:75 | the position of the first occurrence, or none iff the character is absent |
| Reports.UpperChar | frontend/src/pages/Reports.jsx:75 | small letters map to capitals and nothing else changes |
| Reports.Capitalize | frontend/src/pages/Reports.jsx:75 | the first character is upper-cased and the rest kept |
| Reports.ReplaceFirstUnderscore | frontend/src/pages/Reports.jsx:75 | only the first underscore becomes a space, and every other character is kept |
| Reports.FormatLabel | frontend/src/pages/Reports.jsx:75 | same length; the first underscore becomes a space, the first character is upper-cased, and every other character is kept |
| Reports.LaterUnderscoreKept | frontend/src/pages/Reports.jsx:75 | any underscore after the first stays in the label |
| Reports.FormatLabelOfWords | frontend/src/pages/Reports.jsx:75 | a category "w_rest" with no underscore in w is labelled w capitalised, a space, then rest unchanged |
| Reports.SeedingLabelKeepsUnderscore | frontend/src/pages/Reports.jsx:75 | "seeding_new_crop" is labelled exactly "Seeding new_crop", which still contains an underscore |
| Reports.SpacedWords | frontend/src/pages/Reports.jsx:75 | every underscore becomes a space, and everything else is kept |
| Reports.FormatLabelAll | frontend/src/pages/Reports.jsx:75 | corrected label: no underscore after the first character, and none at all unless the category starts with one |
| Reports.SeedingLabelAllSpaced | frontend/src/pages/Reports.jsx:75 | the corrected label of "seeding_new_crop" is "Seeding new crop" |
| Reports.LabelsAgreeWithOneUnderscore | frontend/src/pages/Reports.jsx:75 | for categories with at most one underscore, the as-written and corrected labels agree |
| Reports.BuildEntries | frontend/src/pages/Reports.jsx:26-32 | no map iff some request failed; otherwise every category, and only those, maps to its text |
| Reports.AfterSubmit | frontend/src/pages/Reports.jsx:46-49 | the page's copy of the selected category's text becomes WithEntry(previous text, entry), "undefined" standing for a category never loaded; other categories are unchanged |
| Reports.SubmitAddsOneLine | frontend/src/pages/Reports.jsx:48 | an entry without newlines shows as one more line after the previous lines |
| Reports.ReportsPage.constructor | frontend/src/pages/Reports.jsx:20-22 | no category, no text, no entries |
| Reports.ReportsPage.SelectCategory | frontend/src/pages/Reports.jsx:71 | the clicked category is selected |
| Reports.ReportsPage.EditText | frontend/src/pages/Reports.jsx:102 | the text area's value is stored |
| Reports.ReportsPage.FetchEntries | frontend/src/pages/Reports.jsx:24-38 | after a full load, the entries map every category to its text; any failure leaves the entries unchanged |
| Reports.ReportsPage.HandleSubmit | frontend/src/pages/Reports.jsx:40-55 | nothing changes without a category and an entry, or when the post fails; otherwise the entries become AfterSubmit and the text area is cleared |
| Reports.ShownText | frontend/src/pages/Reports.jsx:93 | the category's text when it is non-empty, otherwise "No entries yet for this report." |

## Left out

- REST calls, `Promise.all`, `async`/`await` and the React effect scheduling are not modelled. Each request's outcome (its data, or failure) is an input of the method that receives it.
- html2canvas, jsPDF, Chart.js options, the DOM style save/restore around the export (the restore runs only when the capture succeeds) and the random dataset colours are left out. Only the page arithmetic of the export is modelled.
- Date parsing (`new Date`, Django's date lookups) and `toLocaleDateString` are browser- or server-specific. A date is the day it denotes, or None when the text is not a date.
- Yield values are kept as the raw JSON scalar. `parseFloat` and floating point are not modelled.
- The Django ORM, JWT issuance, password hashing, `backend/api/authentication.py`, logging, the debug prints and the transaction machinery are left out. A rolled-back transaction is modelled as restoring the tables.
- The crop table's `farmer` column and the soil-test table's `crop` column come from the serializers (CropSerializer and SoilTestSerializer in backend/api/serializers.py). models.py declares neither, so as written the two lookups fail; CropQueryAsWritten and SoilTestQueryAsWritten model that, and the rest of the model uses the columns. SoilTestSerializer also lists `recom_sulphur`, while the model declares `recom_sulfur`; Django REST framework refuses a listed name the model lacks when it serializes a row, so as written every non-empty soil-test response fails and the soil view charts nothing. The soil view's behaviour in this model, including the two GraphComponent.jsx rows under "## Findings", is the behaviour under the serializer's schema.
- The exclusivity of `is_company`, `is_agronomist` and `is_farmer` is not stated as a lemma: each compares the role with a different constructor of `Role`, so at most one holds by construction.
- Ids are compared as text. A non-numeric id parameter, which makes Django raise, is not modelled.
- Views.CompanyIdFor: takes the first profile row of the user. The source's `.get` raises when there are several, which the one-to-one profile columns rule out.
- The `api_report` table is not created by the application (the Report model is unmanaged), so Views.GetOrCreateReport and Views.SecondUserRefused assume that the existing table carries the (category, year) uniqueness constraint; `save()` itself does not check it.
- FilterComponent's farmer drop-down and the other farmer pickers label each farmer with the same `${farmer_fname} ${farmer_lname}` text, which reads "undefined undefined" as the list is sent. The option labels are not modelled.
- Views.CreateFarmerUser: the two serializers' validation is given as the error each reports (None when valid). An exception's conversion to a validation error is modelled as the farmer serializer's error.
- Views.LoginRoute: stops where token issuance begins. Several accounts sharing the identifier make `.get` raise; this is modelled as `AmbiguousUser`.
- FilterComponent.OptionsToLoad: names the list the panel requests. The farmer, field and crop option lists themselves are data from the server and are not stored.
- FilterComponent.SoilTestFieldsShape: does not state that the 36 names are pairwise distinct. The 630 pairwise comparisons are too costly to check.
- GraphComponent.GraphPanel.FetchAllData: uses the field names held when the filters arrived, as the effect's closure does. The effect's `if (filters)` guard is left to the caller.
- GraphComponent.PageOffsets: uses exact real arithmetic. Floating-point rounding of the scaled height, which could matter only at exact page multiples, is not modelled.
- ClientList.Lower and Reports.UpperChar: map only ASCII letters. Unicode case mapping is not modelled.
- Reports.AfterSubmit: the page's copy can differ from the text the server stores. The server's entry field trims surrounding whitespace, so " x" shows as " x" but is stored as "x". A category the page never loaded shows "undefined" followed by the entry, while the server appends to its own stored text.
- Views.PostReportEntry: takes the entry as the serializer accepted it. The trimming and the rejection of an empty entry by the entry field are not modelled, and the year is an input in place of the clock.
- GraphComponent.ScaledHeight and GraphComponent.PageOffsets: require a canvas of positive width. With width 0 and positive height the source's image height is Infinity, `heightLeft -= pageHeight` leaves it Infinity, and the page loop never ends (GraphComponent.jsx:56-70); with both 0 the height is NaN and one page is added. Neither case is modelled.
- Reports.ReportsPage: the fixed "2024 Report" heading and the category-list highlighting are not modelled.
- The create-user and field-history endpoints, the CRUD modals, routing and the serializers are outside the modelled core. Of the report endpoint, the lookup-or-create and the posted entry are modelled (Views.GetOrCreateReport, Views.PostReportEntry); the serialized response is not.

## Findings

| source | as written | input that shows it | evidently intended | confidence | as-written member | corrected member |
|---|---|---|---|---|---|---|
| frontend/src/components/GraphComponent.jsx:84-89 | the soil view sends its dates as `date_after`/`date_before`, but the soil-test view reads `startDate`/`endDate` | soil view, dates 2024-06-01 to 2024-06-30, and a test on the chosen field dated 2024-01-01: under the serializer's schema, the test is still charted | the soil query carries the chosen range under the names the soil-test view reads (see `CorrectedSoilQuerySelects`) | medium, not executed | GraphComponent.SoilQueryIgnoresChosenDates | GraphComponent.SoilQueryParams |
| frontend/src/components/GraphComponent.jsx:84-86 | in crop scope the crop id is still sent as `field` | soil view, crop scope, crop 7 chosen, a test of crop 7 on field 3: under the serializer's schema, not listed | a crop-scoped query sends `crop` | high, not executed | GraphComponent.CropScopeQueriesFields | GraphComponent.SoilQueryParams |
| frontend/src/pages/Reports.jsx:75 | `replace("_", " ")` replaces only the first underscore | "seeding_new_crop" is labelled "Seeding new_crop" | every underscore becomes a space ("Seeding new crop") | high, not executed | Reports.SeedingLabelKeepsUnderscore | Reports.FormatLabelAll |
| backend/api/signals.py:11-16 | the admin form checks a company for agronomists and farmers, but only the user's own columns are saved, so the handler finds no company on the instance | admin creates a farmer with company Acme: no Farmer row is created | the checked company reaches the handler, which then creates the profile (see `AdminCheckedUserGetsProfile`) | medium, not executed | Signals.AdminCheckedUserGetsNoProfile | Signals.AdminProfile |
| backend/api/views.py:166 | the crop query filters on `farmer`, which the Crop model in models.py:92-101 does not declare | any GET of the crop list: Django cannot resolve the `farmer` lookup and the request fails | the crop table has the farmer column the serializer lists, and the user's crops are listed | high, not executed | Views.CropListingFailsAsWritten | Views.CropQuery |
| backend/api/views.py:213-215 | the soil-test query filters on `crop`, which the SoilTest model in models.py:142-189 does not declare | a soil-test request with `crop=7`: the lookup cannot be resolved and the request fails | the soil-test table has the crop column the serializer lists, and the tests of the listed crops are returned | high, not executed | Views.CropNarrowedSoilQueryFailsAsWritten | Views.SoilTestQuery |
| frontend/src/components/ClientList.jsx:24 | the search reads `farmer_fname` and `farmer_lname`, which the farmer list does not send (FarmerSerializer sends id, user, company and name), so every client is searched by "undefined undefined" | farmers Ann Smith and Bo Lee, query "Smith": nobody is listed; query "undef": both are | each client is searched by its first and last name, the keys the client form posts | high, not executed | ClientList.SerializedClientsAllOrNothing | ClientList.Shown |
| frontend/src/components/GraphComponent.jsx:176 | the chart title reads `farmer_fname` and `farmer_lname` off the farmer detail response, which carries neither | any farmer chosen in the panel: the title reads "Yield Data for undefined undefined - …" | the title names the farmer by first and last name | high, not executed | GraphComponent.SerializedFarmerTitle | GraphComponent.NamedFarmerTitle |
