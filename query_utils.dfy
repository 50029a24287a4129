// seoman/utils/query_utils.py: turning the answers of the interactive
// query builder into the saved query, and the ".toml" suffix rule of the
// query deleter and lister.

module QueryUtils {
  import opened Wrappers
  import opened Strings
  import opened Json

  /** The dimensions answer: one of the preset choices, or the list picked
      from the check box after choosing "custom". */
  datatype Dimensions = Preset(choice: string) | Custom(picked: seq<string>)

  /** The prompt answers `query_builder` works from. */
  datatype Answers = Answers(
    url: string,
    startDate: string,
    endDate: string,
    dimensions: Dimensions,
    filters: string,
    startRow: string,
    rowLimit: string,
    searchType: string,
    exportType: string)

  /** `process_date(dt, which_date)`: the day a human-readable date text
      names, or the exit it ends in. */
  type DateParser = (string, string) -> Result<Day>

  // The preset choices offered for the dimensions.
  const AllChoice := "all [date, query, page, device, country]"
  const PagesChoice := "keywords & pages [date, query, page]"
  const DevicesChoice := "by devices [date, device]"
  const CountriesChoice := "by countries [date, countries]"

  /** The text the country preset is compared with, which is not the text
      offered for it. */
  const CountryMatch := "by country [date, country]"

  /** The keys of the saved query, in the order `query_builder` stores them. */
  const QueryKeys: seq<string> :=
    ["url", "start-date", "end-date", "dimensions", "filters", "start-row", "row-limit", "search-type", "export-type"]

  /** The row limit of the Search Analytics API. */
  const MaxRowLimit := 25000

  // ---------------------------------------------------------------------
  // What each answer stores
  // ---------------------------------------------------------------------

  /** The url is kept only when it is longer than five characters. */
  function UrlSlot(url: string): (r: Option<Json>)
    ensures r.Some? <==> |url| > 5
    ensures r.Some? ==> r.value == Str(url)
  {
    if |url| > 5 then Some(Str(url)) else None
  }

  /** A date answer is stored, as the day `process_date` makes of it, only
      when it is not blank; the exit of `process_date` ends the builder. */
  function DateSlot(text: string, which: string, processDate: DateParser): (r: Result<Option<Json>>)
    ensures Strip(text) == "" ==> r == Ok(None)
    ensures Strip(text) != "" && processDate(text, which).Ok? ==> r == Ok(Some(DateValue(processDate(text, which).value)))
    ensures Strip(text) != "" && processDate(text, which).Raised? ==> r == Raised(processDate(text, which).failure)
  {
    if Strip(text) == "" then Ok(None)
    else match processDate(text, which)
      case Raised(f) => Raised(f)
      case Ok(d) => Ok(Some(DateValue(d)))
  }

  /** The dimensions a preset stands for; the country preset never matches. */
  function PresetDimensions(choice: string): (r: Option<seq<string>>)
    ensures r.Some? ==> |r.value| >= 2 && r.value[0] == "date"
    ensures r.Some? ==> forall i :: 0 <= i < |r.value| ==> r.value[i] in ["date", "query", "page", "device", "country"]
    ensures r.Some? <==> choice in {AllChoice, PagesChoice, DevicesChoice, CountryMatch}
  {
    if choice == AllChoice then Some(["date", "query", "page", "device", "country"])
    else if choice == PagesChoice then Some(["date", "query", "page"])
    else if choice == DevicesChoice then Some(["date", "device"])
    else if choice == CountryMatch then Some(["date", "country"])
    else None
  }

  /** Offered "by countries [date, countries]", a user stores no dimensions. */
  lemma CountriesPresetStoresNothing()
    ensures PresetDimensions(CountriesChoice) == None
    ensures DimensionsSlot(Preset(CountriesChoice)) == None
  {
    assert CountriesChoice[10] != CountryMatch[10];
    assert CountriesChoice != AllChoice && CountriesChoice != PagesChoice && CountriesChoice != DevicesChoice by {
      assert CountriesChoice[3] != AllChoice[3];
      assert CountriesChoice[0] != PagesChoice[0];
      assert CountriesChoice[3] != DevicesChoice[3];
    }
  }

  /** A preset stores its fixed list; a custom pick is stored as picked. */
  function DimensionsSlot(d: Dimensions): (r: Option<Json>)
    ensures d.Custom? ==> r == Some(Arr(Texts(d.picked)))
    ensures d.Preset? ==> (r.Some? <==> PresetDimensions(d.choice).Some?)
    ensures d.Preset? && r.Some? ==> r.value == Arr(Texts(PresetDimensions(d.choice).value))
  {
    match d
    case Custom(picked) => Some(Arr(Texts(picked)))
    case Preset(choice) =>
      match PresetDimensions(choice)
      case None => None
      case Some(dims) => Some(Arr(Texts(dims)))
  }

  /** Non-blank filters are stored as the pieces between commas, untrimmed,
      so that joining them with "," gives the answer back. */
  function FiltersSlot(filters: string): (r: Option<Json>)
    ensures r.Some? <==> Strip(filters) != ""
    ensures r.Some? ==> r.value.Arr? && exists pieces ::
      r.value.items == Texts(pieces) && Join(pieces, ",") == filters && forall i :: 0 <= i < |pieces| ==> ',' !in pieces[i]
  {
    if Strip(filters) != "" then
      var pieces := SplitOn(filters, ',');
      assert Join(pieces, ",") == filters;
      Some(Arr(Texts(pieces)))
    else None
  }

  /** The start row is stored, as typed, exactly when it is a run of digits. */
  function StartRowSlot(startRow: string): (r: Option<Json>)
    ensures r.Some? <==> IsNumeric(startRow)
    ensures r.Some? ==> r.value == Str(startRow)
  {
    if Strip(startRow) != "" && IsNumeric(startRow) then Some(Str(startRow)) else None
  }

  /** The row limit is stored exactly when it is a run of digits, clamped. */
  function RowLimitSlot(rowLimit: string): (r: Option<Json>)
    ensures r.Some? <==> IsNumeric(rowLimit)
    ensures r.Some? ==> r.value == Str(Limited(rowLimit))
  {
    if Strip(rowLimit) != "" && IsNumeric(rowLimit) then
      var limited := Limited(rowLimit);
      StripUnchanged(limited);
      Some(Str(Strip(limited)))
    else None
  }

  /** `row_limit` after the clamp: the digits of the smaller of its value
      and 25000. */
  function Limited(rowLimit: string): (r: string)
    requires IsNumeric(rowLimit)
    ensures IsNumeric(r)
    ensures DecimalValue(r) == if DecimalValue(rowLimit) >= MaxRowLimit then MaxRowLimit else DecimalValue(rowLimit)
    ensures r != [] ==> !IsSpace(r[0]) && !IsSpace(r[|r| - 1])
  {
    if DecimalValue(rowLimit) >= MaxRowLimit then
      MaxRowLimitText()
    else rowLimit
  }

  /** The text "25000" and its value. */
  function MaxRowLimitText(): (r: string)
    ensures r == "25000" && IsNumeric(r) && DecimalValue(r) == MaxRowLimit
  {
    assert "2"[..0] == "" && DecimalValue("2") == 2;
    assert "25"[..1] == "2" && DecimalValue("25") == 25;
    assert "250"[..2] == "25" && DecimalValue("250") == 250;
    assert "2500"[..3] == "250" && DecimalValue("2500") == 2500;
    assert "25000"[..4] == "2500";
    "25000"
  }

  /** A non-blank search type is stored stripped and lower-cased. */
  function SearchTypeSlot(searchType: string): (r: Option<Json>)
    ensures r.Some? <==> Strip(searchType) != ""
    ensures r.Some? ==> r.value == Str(Lower(Strip(searchType)))
  {
    var t := Strip(searchType);
    if t != "" then Some(Str(Lower(t))) else None
  }

  /** The stored search type has no surrounding whitespace and no upper-case
      letter. */
  lemma SearchTypeNormalised(searchType: string)
    ensures var r := SearchTypeSlot(searchType);
      r.Some? ==> var s := r.value.scalar.s; Strip(s) == s && forall c :: c in s ==> !IsUpper(c)
  {
    var t := Strip(searchType);
    if t != "" {
      var s := Lower(t);
      assert s[0] == LowerChar(t[0]) && s[|s| - 1] == LowerChar(t[|t| - 1]);
      StripUnchanged(s);
      LowerHasNoUpper(t);
    }
  }

  /** A non-blank export type is stored as typed. */
  function ExportSlot(exportType: string): (r: Option<Json>)
    ensures r.Some? <==> Strip(exportType) != ""
    ensures r.Some? ==> r.value == Str(exportType)
  {
    if Strip(exportType) != "" then Some(Str(exportType)) else None
  }

  /** What `query_builder` stores under each of `QueryKeys`, or the exit of
      `process_date`. */
  function Slots(a: Answers, processDate: DateParser): (r: Result<seq<Option<Json>>>)
    ensures r.Ok? ==> |r.value| == |QueryKeys|
    ensures r.Raised? <==> DateSlot(a.startDate, "start", processDate).Raised? || DateSlot(a.endDate, "end", processDate).Raised?
  {
    match DateSlot(a.startDate, "start", processDate)
    case Raised(f) => Raised(f)
    case Ok(_) =>
      match DateSlot(a.endDate, "end", processDate)
      case Raised(f) => Raised(f)
      case Ok(_) => Ok(SlotsStored(a, processDate))
  }

  /** The slots when neither date answer ends the builder. */
  function SlotsStored(a: Answers, processDate: DateParser): (r: seq<Option<Json>>)
    ensures |r| == |QueryKeys|
  {
    var start := DateSlot(a.startDate, "start", processDate);
    var end := DateSlot(a.endDate, "end", processDate);
    [UrlSlot(a.url), if start.Ok? then start.value else None, if end.Ok? then end.value else None,
     DimensionsSlot(a.dimensions), FiltersSlot(a.filters), StartRowSlot(a.startRow),
     RowLimitSlot(a.rowLimit), SearchTypeSlot(a.searchType), ExportSlot(a.exportType)]
  }

  /** The field for one slot, if it holds a value. */
  function Entry(key: string, slot: Option<Json>): seq<Field>
  {
    if slot.Some? then [Field(key, slot.value)] else []
  }

  /** The fields for the slots that hold a value, in order. */
  function Present(keys: seq<string>, slots: seq<Option<Json>>): seq<Field>
    requires |keys| == |slots|
    decreases |keys|
  {
    if |keys| == 0 then [] else Entry(keys[0], slots[0]) + Present(keys[1..], slots[1..])
  }

  /** Only the given keys occur in the fields. */
  lemma {:induction false} PresentKeys(keys: seq<string>, slots: seq<Option<Json>>)
    requires |keys| == |slots|
    ensures forall i :: 0 <= i < |Present(keys, slots)| ==> Present(keys, slots)[i].key in keys
    decreases |keys|
  {
    if |keys| > 0 {
      PresentKeys(keys[1..], slots[1..]);
      var rest := Present(keys[1..], slots[1..]);
      var all := Entry(keys[0], slots[0]) + rest;
      forall i | 0 <= i < |all| ensures all[i].key in keys {
        if i >= |Entry(keys[0], slots[0])| {
          assert all[i] == rest[i - |Entry(keys[0], slots[0])|];
          assert forall k :: k in keys[1..] ==> k in keys;
        }
      }
    }
  }

  /** The contents of `query["query"]`. */
  function SavedQuery(a: Answers, processDate: DateParser): Result<seq<Field>>
  {
    match Slots(a, processDate)
    case Raised(f) => Raised(f)
    case Ok(slots) => Ok(Present(QueryKeys, slots))
  }

  /** Lines 135-181 of `query_builder`: the query built from the answers,
      one `query["query"].update(...)` after the other. */
  method BuildQuery(a: Answers, processDate: DateParser) returns (r: Result<seq<Field>>)
    ensures r == SavedQuery(a, processDate)
  {
    var query: seq<Field> := [];
    query := StoreUrl(query, a.url);
    var dated := StoreDate(query, "start-date", a.startDate, "start", processDate);
    if dated.Raised? {
      return Raised(dated.failure);
    }
    dated := StoreDate(dated.value, "end-date", a.endDate, "end", processDate);
    if dated.Raised? {
      return Raised(dated.failure);
    }
    query := StoreDimensions(dated.value, a.dimensions);
    query := StoreFilters(query, a.filters);
    query := StoreStartRow(query, a.startRow);
    query := StoreRowLimit(query, a.rowLimit);
    query := StoreSearchType(query, a.searchType);
    query := StoreExportType(query, a.exportType);
    r := Ok(query);
    SavedQueryEntries(a, processDate);
  }

  method StoreUrl(query: seq<Field>, url: string) returns (q: seq<Field>)
    ensures q == query + Entry("url", UrlSlot(url))
  {
    q := query;
    if |url| > 5 {
      q := q + [Field("url", Str(url))];
    }
  }

  method StoreDate(query: seq<Field>, key: string, text: string, which: string, processDate: DateParser)
    returns (r: Result<seq<Field>>)
    ensures DateSlot(text, which, processDate).Raised? ==> r == Raised(DateSlot(text, which, processDate).failure)
    ensures DateSlot(text, which, processDate).Ok? ==> r == Ok(query + Entry(key, DateSlot(text, which, processDate).value))
  {
    r := Ok(query);
    assert query + [] == query;
    if Strip(text) != "" {
      var d := processDate(text, which);
      if d.Raised? {
        return Raised(d.failure);
      }
      r := Ok(query + [Field(key, DateValue(d.value))]);
    }
  }

  method StoreDimensions(query: seq<Field>, dimensions: Dimensions) returns (q: seq<Field>)
    ensures q == query + Entry("dimensions", DimensionsSlot(dimensions))
  {
    q := query;
    match dimensions {
      case Preset(choice) =>
        if choice == AllChoice {
          q := q + [Field("dimensions", Arr(Texts(["date", "query", "page", "device", "country"])))];
        } else if choice == PagesChoice {
          q := q + [Field("dimensions", Arr(Texts(["date", "query", "page"])))];
        } else if choice == DevicesChoice {
          q := q + [Field("dimensions", Arr(Texts(["date", "device"])))];
        } else if choice == CountryMatch {
          q := q + [Field("dimensions", Arr(Texts(["date", "country"])))];
        }
      case Custom(picked) =>
        q := q + [Field("dimensions", Arr(Texts(picked)))];
    }
  }

  method StoreFilters(query: seq<Field>, filters: string) returns (q: seq<Field>)
    ensures q == query + Entry("filters", FiltersSlot(filters))
  {
    q := query;
    if Strip(filters) != "" {
      q := q + [Field("filters", Arr(Texts(SplitOn(filters, ','))))];
    }
  }

  method StoreStartRow(query: seq<Field>, startRow: string) returns (q: seq<Field>)
    ensures q == query + Entry("start-row", StartRowSlot(startRow))
  {
    q := query;
    if Strip(startRow) != "" && IsNumeric(startRow) {
      q := q + [Field("start-row", Str(startRow))];
    }
  }

  method StoreRowLimit(query: seq<Field>, rowLimit: string) returns (q: seq<Field>)
    ensures q == query + Entry("row-limit", RowLimitSlot(rowLimit))
  {
    q := query;
    var limit := rowLimit;
    if Strip(limit) != "" && IsNumeric(limit) {
      if DecimalValue(limit) >= MaxRowLimit {
        limit := "25000";
      }
      q := q + [Field("row-limit", Str(Strip(limit)))];
    }
  }

  method StoreSearchType(query: seq<Field>, searchType: string) returns (q: seq<Field>)
    ensures q == query + Entry("search-type", SearchTypeSlot(searchType))
  {
    q := query;
    if Strip(searchType) != "" {
      q := q + [Field("search-type", Str(Lower(Strip(searchType))))];
    }
  }

  method StoreExportType(query: seq<Field>, exportType: string) returns (q: seq<Field>)
    ensures q == query + Entry("export-type", ExportSlot(exportType))
  {
    q := query;
    if Strip(exportType) != "" {
      q := q + [Field("export-type", Str(exportType))];
    }
  }

  /** The saved query is the fields of the nine slots, one after the other. */
  lemma SavedQueryEntries(a: Answers, processDate: DateParser)
    requires Slots(a, processDate).Ok?
    ensures SavedQuery(a, processDate) == Ok(
      [] + Entry("url", UrlSlot(a.url))
      + Entry("start-date", DateSlot(a.startDate, "start", processDate).value)
      + Entry("end-date", DateSlot(a.endDate, "end", processDate).value)
      + Entry("dimensions", DimensionsSlot(a.dimensions))
      + Entry("filters", FiltersSlot(a.filters))
      + Entry("start-row", StartRowSlot(a.startRow))
      + Entry("row-limit", RowLimitSlot(a.rowLimit))
      + Entry("search-type", SearchTypeSlot(a.searchType))
      + Entry("export-type", ExportSlot(a.exportType)))
  {
    var all := SlotsStored(a, processDate);
    PresentNine(QueryKeys, all);
  }

  /** Nine slots give the fields of each in turn. */
  lemma PresentNine(keys: seq<string>, slots: seq<Option<Json>>)
    requires |keys| == |slots| == 9
    ensures Present(keys, slots) ==
      [] + Entry(keys[0], slots[0]) + Entry(keys[1], slots[1]) + Entry(keys[2], slots[2])
      + Entry(keys[3], slots[3]) + Entry(keys[4], slots[4]) + Entry(keys[5], slots[5])
      + Entry(keys[6], slots[6]) + Entry(keys[7], slots[7]) + Entry(keys[8], slots[8])
  {
    PresentFour(keys, slots);
    PresentSnoc(keys, slots, 4);
    PresentSnoc(keys, slots, 5);
    PresentSnoc(keys, slots, 6);
    PresentSnoc(keys, slots, 7);
    PresentSnoc(keys, slots, 8);
    assert keys[..9] == keys && slots[..9] == slots;
  }

  lemma PresentFour(keys: seq<string>, slots: seq<Option<Json>>)
    requires |keys| == |slots| && 4 <= |keys|
    ensures Present(keys[..4], slots[..4]) ==
      [] + Entry(keys[0], slots[0]) + Entry(keys[1], slots[1]) + Entry(keys[2], slots[2])
      + Entry(keys[3], slots[3])
  {
    assert keys[..0] == [] && slots[..0] == [];
    PresentSnoc(keys, slots, 0);
    PresentSnoc(keys, slots, 1);
    PresentSnoc(keys, slots, 2);
    PresentSnoc(keys, slots, 3);
  }

  /** The fields of one more slot come after those of the slots before it. */
  lemma {:induction false} PresentSnoc(keys: seq<string>, slots: seq<Option<Json>>, n: nat)
    requires |keys| == |slots| && n < |keys|
    ensures Present(keys[..n + 1], slots[..n + 1]) == Present(keys[..n], slots[..n]) + Entry(keys[n], slots[n])
    decreases n
  {
    if n == 0 {
      assert keys[..1][1..] == [] && slots[..1][1..] == [];
      assert keys[..0] == [] && slots[..0] == [];
    } else {
      PresentSnoc(keys[1..], slots[1..], n - 1);
      assert keys[..n + 1][1..] == keys[1..][..n] && slots[..n + 1][1..] == slots[1..][..n];
      assert keys[..n][1..] == keys[1..][..n - 1] && slots[..n][1..] == slots[1..][..n - 1];
      var first := Entry(keys[0], slots[0]);
      assert (first + Present(keys[1..][..n - 1], slots[1..][..n - 1])) + Entry(keys[n], slots[n]) == first + (Present(keys[1..][..n - 1], slots[1..][..n - 1]) + Entry(keys[n], slots[n]));
    }
  }

  // ---------------------------------------------------------------------
  // Properties of the saved query
  // ---------------------------------------------------------------------

  /** Keys that were all different give fields with all different keys. */
  lemma {:induction false} PresentDistinct(keys: seq<string>, slots: seq<Option<Json>>)
    requires |keys| == |slots| && NoDuplicates(keys)
    ensures DistinctKeys(Present(keys, slots))
    decreases |keys|
  {
    if |keys| > 0 {
      NoDuplicatesTail(keys);
      PresentDistinct(keys[1..], slots[1..]);
      PresentKeys(keys[1..], slots[1..]);
      var rest := Present(keys[1..], slots[1..]);
      forall i | 0 <= i < |rest| ensures rest[i].key != keys[0] {
        var j :| 0 <= j < |keys[1..]| && keys[1..][j] == rest[i].key;
        assert keys[j + 1] == rest[i].key;
      }
    }
  }

  lemma NoDuplicatesTail(keys: seq<string>)
    requires |keys| > 0 && NoDuplicates(keys)
    ensures NoDuplicates(keys[1..])
  {
    forall i, j | 0 <= i < j < |keys[1..]| ensures keys[1..][i] != keys[1..][j] {
      assert keys[1..][i] == keys[i + 1] && keys[1..][j] == keys[j + 1];
    }
  }

  /** Looking a key up in the fields finds its slot. */
  lemma {:induction false} PresentLookup(keys: seq<string>, slots: seq<Option<Json>>, i: nat)
    requires |keys| == |slots| && NoDuplicates(keys) && i < |keys|
    ensures Get(Present(keys, slots), keys[i]) == slots[i]
    decreases |keys|
  {
    var rest := Present(keys[1..], slots[1..]);
    var first := Entry(keys[0], slots[0]);
    assert Present(keys, slots) == first + rest;
    if i == 0 {
      if slots[0].Some? {
        assert (first + rest)[0] == Field(keys[0], slots[0].value);
      } else {
        assert first + rest == rest;
        PresentKeys(keys[1..], slots[1..]);
        forall j | 0 <= j < |rest| ensures rest[j].key != keys[0] {
          var m :| 0 <= m < |keys[1..]| && keys[1..][m] == rest[j].key;
          assert keys[m + 1] == rest[j].key;
        }
      }
    } else {
      NoDuplicatesTail(keys);
      PresentLookup(keys[1..], slots[1..], i - 1);
      assert keys[i] !in KeysOf(first) by {
        assert keys[i] != keys[0];
      }
      GetPrefix(first, rest, keys[i]);
    }
  }

  lemma QueryKeysDistinct()
    ensures NoDuplicates(QueryKeys)
  {
    var k := QueryKeys;
    forall i, j | 0 <= i < j < |k| ensures k[i] != k[j] {
      assert |k[i]| != |k[j]| || k[i][0] != k[j][0];
    }
  }

  /** The saved query holds each key once, only keys of `QueryKeys`, and
      under each key what its answer stores. */
  lemma SavedQueryLookup(a: Answers, processDate: DateParser)
    requires SavedQuery(a, processDate).Ok?
    ensures DistinctKeys(SavedQuery(a, processDate).value)
    ensures forall i :: 0 <= i < |SavedQuery(a, processDate).value| ==> SavedQuery(a, processDate).value[i].key in QueryKeys
    ensures forall i :: 0 <= i < |QueryKeys| ==> Get(SavedQuery(a, processDate).value, QueryKeys[i]) == SlotsStored(a, processDate)[i]
  {
    var slots := SlotsStored(a, processDate);
    assert SavedQuery(a, processDate).value == Present(QueryKeys, slots);
    QueryKeysDistinct();
    PresentDistinct(QueryKeys, slots);
    PresentKeys(QueryKeys, slots);
    forall i | 0 <= i < |QueryKeys| ensures Get(Present(QueryKeys, slots), QueryKeys[i]) == slots[i] {
      PresentLookup(QueryKeys, slots, i);
    }
  }

  // ---------------------------------------------------------------------
  // `query_deleter` and `query_lister`
  // ---------------------------------------------------------------------

  /** The file name of a saved query: ".toml" is added unless the name
      already ends with it. */
  function QueryFileName(filename: string): (r: string)
    ensures EndsWith(r, ".toml")
    ensures EndsWith(filename, ".toml") ==> r == filename
    ensures !EndsWith(filename, ".toml") ==> r == filename + ".toml"
  {
    if EndsWith(filename, ".toml") then filename
    else
      var r := filename + ".toml";
      assert r[|r| - 5..] == ".toml";
      r
  }

  lemma QueryFileNameIdempotent(filename: string)
    ensures QueryFileName(QueryFileName(filename)) == QueryFileName(filename)
  {
  }
}
