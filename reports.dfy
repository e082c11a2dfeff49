/** The reports page (frontend/src/pages/Reports.jsx): the category labels, the load of every
    category's report text, and the append of a new entry. */
module Reports {
  import opened Common
  import Models

  /** The page's category list. */
  const Categories: seq<string> := [
    "fertilizer_application", "seeding_new_crop", "irrigation", "herbicide_application",
    "pesticide_application", "harvest", "mechanical_disturbance", "weather", "livestock",
    "management", "other"
  ]

  /** The page lists exactly the report categories the back end accepts, no two alike. */
  lemma CategoriesAreReportCategories()
    ensures Categories == Models.ReportCategories
    ensures forall i, j :: 0 <= i < j < |Categories| ==> Categories[i] != Categories[j]
  {
  }

  // ---------------------------------------------------------------------------------------
  // Labels

  /** The index of the first `c` in `s`, if any. */
  function FirstIndex(s: string, c: char): (r: Option<nat>)
    ensures r.None? <==> c !in s
    ensures r.Some? ==> r.value < |s| && s[r.value] == c && c !in s[..r.value]
  {
    if s == [] then None
    else if s[0] == c then Some(0)
    else match FirstIndex(s[1..], c)
      case None => None
      case Some(k) =>
        assert s[..k + 1] == [s[0]] + s[1..][..k];
        Some(k + 1)
  }

  /** `toUpperCase` on one character; only the ASCII small letters are mapped. */
  function UpperChar(c: char): (r: char)
    ensures 'a' <= c <= 'z' ==> r as int == c as int - 32
    ensures !('a' <= c <= 'z') ==> r == c
  {
    if 'a' <= c <= 'z' then (c as int - 32) as char else c
  }

  /** `s.charAt(0).toUpperCase() + s.slice(1)`. */
  function Capitalize(s: string): (r: string)
    ensures |r| == |s|
    ensures s != [] ==> r[0] == UpperChar(s[0]) && r[1..] == s[1..]
  {
    if s == [] then [] else [UpperChar(s[0])] + s[1..]
  }

  /** `s.replace("_", " ")`: a string pattern replaces its first occurrence only. */
  function ReplaceFirstUnderscore(s: string): (r: string)
    ensures |r| == |s|
    ensures FirstIndex(s, '_').None? ==> r == s
    ensures FirstIndex(s, '_').Some? ==>
      var k := FirstIndex(s, '_').value;
      r[k] == ' ' && forall i :: 0 <= i < |s| && i != k ==> r[i] == s[i]
  {
    match FirstIndex(s, '_')
    case None => s
    case Some(k) => s[..k] + " " + s[k + 1..]
  }

  /** The label shown for a category, in the list and in the report heading: the first
      underscore becomes a space and the first character a capital; everything else stays. */
  function FormatLabel(category: string): (r: string)
    ensures |r| == |category|
    ensures category != [] ==> r[0] == (if category[0] == '_' then ' ' else UpperChar(category[0]))
    ensures forall i :: 0 < i < |category| ==>
      r[i] == (if FirstIndex(category, '_') == Some(i as nat) then ' ' else category[i])
  {
    Capitalize(ReplaceFirstUnderscore(category))
  }

  /** As written, every underscore after the first stays in the label. */
  lemma {:induction false} LaterUnderscoreKept(category: string, k: nat, j: nat)
    requires k < j < |category| && category[k] == '_' && category[j] == '_'
    ensures FormatLabel(category)[j] == '_'
  {
    var first := FirstIndex(category, '_');
    assert first.Some? && first.value <= k;
  }

  /** A label of two words joined by the first underscore: the first word capitalised, a
      space, and the rest as it stands. */
  lemma FormatLabelOfWords(first: string, rest: string)
    requires first != [] && '_' !in first
    ensures FormatLabel(first + "_" + rest) == Capitalize(first) + " " + rest
  {
    var c := first + "_" + rest;
    var k := |first|;
    FirstUnderscoreAfterWord(first, rest);
    assert c[..k] == first && c[k + 1..] == rest;
    assert ReplaceFirstUnderscore(c) == first + " " + rest;
    assert (first + " " + rest)[0] == first[0];
    assert (first + " " + rest)[1..] == first[1..] + " " + rest;
  }

  lemma FirstUnderscoreAfterWord(first: string, rest: string)
    requires '_' !in first
    ensures FirstIndex(first + "_" + rest, '_') == Some(|first|)
  {
    var c := first + "_" + rest;
    assert c[|first|] == '_';
    assert c[..|first|] == first;
  }

  /** So "seeding_new_crop" is labelled "Seeding new_crop", with an underscore left in. */
  lemma SeedingLabelKeepsUnderscore()
    ensures FormatLabel("seeding_new_crop") == "Seeding new_crop"
    ensures '_' in FormatLabel("seeding_new_crop")
  {
    SeedingWords();
    FormatLabelOfWords("seeding", "new_crop");
  }

  /** The text steps of the example above. */
  lemma SeedingWords()
    ensures "seeding" + "_" + "new_crop" == "seeding_new_crop"
    ensures Capitalize("seeding") + " " + "new_crop" == "Seeding new_crop"
    ensures "Seeding new_crop"[11] == '_'
  {
  }

  /** Every underscore made a space (`replaceAll`). */
  function SpacedWords(s: string): (r: string)
    ensures |r| == |s| && '_' !in r
    ensures forall i :: 0 <= i < |s| ==> r[i] == (if s[i] == '_' then ' ' else s[i])
  {
    seq(|s|, i requires 0 <= i < |s| => if s[i] == '_' then ' ' else s[i])
  }

  /** The label the page evidently means: every underscore a space, the first letter a
      capital. */
  function FormatLabelAll(category: string): (r: string)
    ensures |r| == |category|
    ensures category != [] ==> '_' !in r[1..]
    ensures category != [] && category[0] != '_' ==> '_' !in r
  {
    Capitalize(SpacedWords(category))
  }

  /** The corrected label of "seeding_new_crop" is "Seeding new crop". */
  lemma SeedingLabelAllSpaced()
    ensures FormatLabelAll("seeding_new_crop") == "Seeding new crop"
  {
    var s := SpacedWords("seeding_new_crop");
    assert s == "seeding new crop";
  }

  /** The two labels differ only for categories with more than one underscore: among the
      page's categories, only "seeding_new_crop". */
  lemma {:induction false} LabelsAgreeWithOneUnderscore(category: string)
    requires forall i, j :: 0 <= i < j < |category| && category[i] == '_' ==> category[j] != '_'
    ensures FormatLabel(category) == FormatLabelAll(category)
  {
    var a := ReplaceFirstUnderscore(category);
    var b := SpacedWords(category);
    assert a == b by {
      match FirstIndex(category, '_')
      case None =>
      case Some(k) =>
        assert forall i :: 0 <= i < |category| ==> a[i] == b[i];
    }
  }

  // ---------------------------------------------------------------------------------------
  // Loading the entries

  /** fetchEntries: each category's report text in turn; the first failed request ends the
      load with nothing to show, otherwise every category maps to its text. */
  method BuildEntries(categories: seq<string>, responses: seq<Option<string>>)
    returns (r: Option<map<string, string>>)
    requires |responses| == |categories|
    requires forall i, j :: 0 <= i < j < |categories| ==> categories[i] != categories[j]
    ensures r.None? <==> exists i :: 0 <= i < |responses| && responses[i].None?
    ensures r.Some? ==> forall c :: c in r.value <==> c in categories
    ensures r.Some? ==> forall i :: 0 <= i < |categories| ==>
      responses[i].Some? && r.value[categories[i]] == responses[i].value
  {
    var fetched: map<string, string> := map[];
    var i := 0;
    while i < |categories|
      invariant 0 <= i <= |categories|
      invariant forall k :: 0 <= k < i ==> responses[k].Some?
      invariant forall c :: c in fetched <==> c in categories[..i]
      invariant forall k :: 0 <= k < i ==> fetched[categories[k]] == responses[k].value
    {
      if responses[i].None? {
        return None;
      }
      assert categories[..i + 1] == categories[..i] + [categories[i]];
      fetched := fetched[categories[i] := responses[i].value];
      i := i + 1;
    }
    assert categories[..i] == categories;
    return Some(fetched);
  }

  // ---------------------------------------------------------------------------------------
  // Submitting an entry

  /** `prevEntries[category]` inside a template: a category never loaded reads "undefined". */
  function PreviousText(entries: map<string, string>, category: string): string {
    if category in entries then entries[category] else "undefined"
  }

  /** The page's entries after a submit the server accepted: its copy of the category's text
      gains the entry on a new line. */
  function AfterSubmit(entries: map<string, string>, category: string, entry: string): (r: map<string, string>)
    ensures r.Keys == entries.Keys + {category}
    ensures r[category] == Models.WithEntry(PreviousText(entries, category), entry)
    ensures forall c :: c in entries && c != category ==> r[c] == entries[c]
  {
    entries[category := PreviousText(entries, category) + "\n" + entry]
  }

  /** An accepted entry without newlines shows up as one more line of the category's text,
      after the lines it had. */
  lemma SubmitAddsOneLine(entries: map<string, string>, category: string, entry: string)
    requires '\n' !in entry
    ensures Split(AfterSubmit(entries, category, entry)[category], '\n')
         == Split(PreviousText(entries, category), '\n') + [entry]
  {
    SplitAppend(PreviousText(entries, category), '\n', entry);
    SplitOfPiece(entry, '\n');
  }

  /** The page's state. */
  class ReportsPage {
    var selectedCategory: string
    var textEntry: string
    var entries: map<string, string>

    constructor ()
      ensures selectedCategory == "" && textEntry == "" && entries == map[]
    {
      selectedCategory := "";
      textEntry := "";
      entries := map[];
    }

    method SelectCategory(category: string)
      modifies this`selectedCategory
      ensures selectedCategory == category
    {
      selectedCategory := category;
    }

    method EditText(text: string)
      modifies this`textEntry
      ensures textEntry == text
    {
      textEntry := text;
    }

    /** The load with each request's outcome given: the map is set only when all succeed. */
    method FetchEntries(responses: seq<Option<string>>)
      requires |responses| == |Categories|
      modifies this`entries
      ensures (exists i :: 0 <= i < |responses| && responses[i].None?) ==> entries == old(entries)
      ensures (forall i :: 0 <= i < |responses| ==> responses[i].Some?) ==>
        entries.Keys == set c | c in Categories
        && forall i :: 0 <= i < |Categories| ==> Categories[i] in entries && entries[Categories[i]] == responses[i].value
    {
      CategoriesAreReportCategories();
      var r := BuildEntries(Categories, responses);
      if r.Some? {
        entries := r.value;
      }
    }

    /** handleSubmit with the post's outcome given: nothing happens without a category and a
        non-empty entry, or when the post fails; otherwise the entry is appended to the
        category's text and the input is cleared. */
    method HandleSubmit(postSucceeded: bool)
      modifies this`entries, this`textEntry
      ensures !(Truthy(selectedCategory) && Truthy(old(textEntry)) && postSucceeded) ==>
        entries == old(entries) && textEntry == old(textEntry)
      ensures Truthy(selectedCategory) && Truthy(old(textEntry)) && postSucceeded ==>
        entries == AfterSubmit(old(entries), selectedCategory, old(textEntry)) && textEntry == ""
    {
      if Truthy(selectedCategory) && Truthy(textEntry) {
        if postSucceeded {
          entries := entries[selectedCategory := PreviousText(entries, selectedCategory) + "\n" + textEntry];
          textEntry := "";
        }
      }
    }
  }

  const NoEntriesMessage := "No entries yet for this report."

  /** `entries[selectedCategory] || "No entries yet for this report."`. */
  function ShownText(entries: map<string, string>, category: string): (r: string)
    ensures Truthy(r)
    ensures category in entries && Truthy(entries[category]) ==> r == entries[category]
    ensures !(category in entries && Truthy(entries[category])) ==> r == NoEntriesMessage
  {
    if category in entries && Truthy(entries[category]) then entries[category] else NoEntriesMessage
  }
}
