# seoman core in Dafny

seoman is a command-line client for the Google Search Console API. A user
describes a Search Analytics query: a site, a date range, a granularity,
dimensions, filters, a row limit, a search type and an export format. The
query may come from the command line or from a saved `.toml` query.
seoman then splits the date range into one request body per window. It
sends the bodies one after another, with one retry after an HTTP error and
a second pass for answers that hit the 25000-row page limit. Finally it
flattens the nested answer into columns and writes them as a table, CSV,
TSV or Excel sheet.

This project models that core and proves properties of the model. There is
one module per source file:

- `Dates` (`dates.dfy`) models `seoman/utils/date_utils.py`: the weekday and
  interval names, `granularity_days` and `create_date_range`. A date is a
  day number (`Day`), and day 0 is a Monday.
- `ServiceUtils` (`service_utils.dfy`) models `create_body_list`. It
  updates the caller's dict in place and appends to the shared default
  `new_body` list, which is a class. It also models the
  `regenerate_credentials` decorator.
- `Service` (`service.dfy`) models the class `SearchAnalytics` of
  `seoman/service.py`:
  - the query loop: `con_query`, `main` and the two passes of
    `concurrent_query_asyncio`, with the remote service given as an oracle;
  - `update_body`;
  - the `process_toml` loop that loads a saved query into the body;
  - `__clean_url`;
  - the `export` dispatch.
- `ExportUtils` (`export_utils.dfy`) models the class `Export` of
  `seoman/utils/export_utils.py`: `_flatten` (into an `OrderedDict`
  class), `_split_to_kv` (on the shared default header and value lists),
  `__preprocess`, and the row chunking of the writers.
- `QueryUtils` (`query_utils.dfy`) models `query_builder`: how the prompt
  answers become the saved query, one `update` after the other. It also
  models the `.toml` suffix rule of `query_deleter` and `query_lister`.
- `Wrappers`, `Json` and `Strings` support the others:
  - `Option` and `Result`, and the exceptions and exits the core raises;
  - JSON-like values whose dicts keep insertion order;
  - the ASCII parts of `lower`, `strip`, `split`, `join`, `replace` and
    `isnumeric`.

How the model stands in for things it cannot run:

- The remote service is a function `remote(k)` that gives the answer to the
  k-th request of a session: rows, no rows, an `HttpError`, or expired
  credentials (`RefreshError`).
- The clock is a parameter `today`.
- The user's answers to the confirmation prompts are boolean parameters.
- `process_date` is a parameter, because it calls the `dateparser`
  library.
- Requests and sleeps are recorded as a list of events.

Behaviour of the code that the model keeps, and that the proofs bring out:

- `con_query` runs `self.data.setdefault("rows", [])` before it reads
  `data["rows"]`. A body whose attempts all fail still creates an empty
  "rows" list. That is why a run whose every request fails ends in the
  "Results are empty" exit (`Service.AllRequestsFailed`).
- `create_date_range` with a start, an end and no granularity reads
  `day_interval` before it is assigned: `UnboundLocalError`.
- With granularity "weekends", a range whose last weekend day is a
  Saturday gets one more day put in front of the list, so the list stops
  ascending (`Dates.WeekendRule`).
- Without a start and an end date, `create_date_range` passes the
  length from `get_day_granularity` to `granularity_days` as if it were a
  weekday number. "daily" and every unknown name (length 1) give the
  Mondays since 2020-01-01. "twodaily" through "sixdaily" give Tuesdays
  through Saturdays, and "weekly" gives Sundays. The lengths 14, 21, 30,
  60, 90 and 365 have no branch, so `granularity_days` returns `None`.
  `create_body_list` then fails with `TypeError` in `len(dates)`
  (`Dates.NoRangeGranularity`).
- `_flatten` can produce two paths that give the same key. The
  `OrderedDict` then keeps the first position and the last value
  (`ExportUtils.FlattenCollision`).
- `export_to_csv` with no headers writes the empty header line, and then
  `range` with step 0 raises `ValueError`.
- `command == ("sites" or "sitemaps")` compares with "sites" only. So the
  sitemaps command with no export type goes to Excel.
- The default lists `new_body=[]`, `keys=[]` and `values=[]` are shared by
  every call. A second run in the same session (the retry after
  `RefreshError`) therefore sends the earlier bodies again too. It also
  starts from the window the first run left in `self.body`.
- An empty parent key drops the separator in `_flatten`: key "" and child
  "a" give "a".
- The preset offered as "by countries [date, countries]" is compared with
  "by country [date, country]". It never matches, so no dimensions are
  stored (`QueryUtils.CountriesPresetStoresNothing`).

## Model

| member | source | states |
|---|---|---|
| Wrappers.MapResult | seoman/service.py:353-365 | A list comprehension whose element may raise: every result, in order, when no item raises; otherwise the exception of the first item that raises, with all items before it parsed. |
| Dates.DateText | seoman/utils/date_utils.py:60-64 | `strftime("%Y-%m-%d")`: ten characters, digits with '-' at positions 4 and 7. |
| Dates.FirstOf2020Text | seoman/utils/date_utils.py:181 | The start day without a range renders as "2020-01-01". |
| Dates.WeekdayByName | seoman/utils/date_utils.py:217-228 | The seven day names map to 1-7 in order, "weekends" to 67 and "weekdays" to 12345; any other name maps to 10. |
| Dates.DayGranularity | seoman/utils/date_utils.py:199-214 | Each interval name maps to its listed length and any other name to 1; the result is always at least 1. |
| Dates.CreateDate | seoman/utils/date_utils.py:33-44 | The text is year, month and "01" joined by '-'. A missing (zero) year becomes the current year and a missing month becomes "01". |
| Dates.DatePartsSplit | seoman/utils/date_utils.py:37-44 | A "Y-M-01" text splits on '-' back into its three parts. |
| Dates.MatchingMembers | seoman/utils/date_utils.py:60-64 | The comprehension over `range((end - start).days + 1)` keeps exactly the days of [start, end] that the rule accepts. |
| Dates.MatchingAscending | seoman/utils/date_utils.py:60-64 | That list is strictly ascending. |
| Dates.MatchingEveryDay | seoman/utils/date_utils.py:115-118 | With no filter there are end - start + 1 days, and day i is start + i. |
| Dates.GranularityDays | seoman/utils/date_utils.py:47-118 | `granularity_days`: ValueError for a text that is not a date. For a value that is not a text, the subtraction fails: AttributeError for two numbers, TypeError otherwise; a code without a branch gives `None` first. Codes 1-7 give exactly the days of that ISO weekday, ascending. Code 10 gives every day. Any other code gives `None`. Otherwise the result equals `GranularitySpec`. |
| Dates.GranularityArgsFacts | seoman/utils/date_utils.py:47-118 | An unparsable text gives ValueError. For parsed dates: codes 1-7 give exactly that weekday's days, ascending, and code 10 gives every day. A code without a branch gives `None` or ValueError. A value that is not a text gives the arithmetic failure when the code has a branch, `None` otherwise. |
| Dates.WeekendRule | seoman/utils/date_utils.py:66-93 | For "weekends": IndexError exactly when the range has no weekend day. Otherwise the list ends with every weekend day of the range in order. A leading Sunday gets the Saturday before it. A trailing Saturday puts one more day first, and then the list is not ascending; without one it is. |
| Dates.WeekendFixShape | seoman/utils/date_utils.py:73-92 | The two boundary inserts on an ascending list: the length grows by one per fix, the original list is the suffix, and order holds exactly when no trailing Saturday occurs. |
| Dates.LeadShape | seoman/utils/date_utils.py:73-82 | After the leading-Sunday insert, the list is ascending, ends as before and starts with a Saturday. |
| Dates.TrailingSaturday | seoman/utils/date_utils.py:83-92 | Putting the day after the first entry in front makes the list non-ascending and keeps the old tail. |
| Dates.WeekdayRule | seoman/utils/date_utils.py:95-112 | For "weekdays": IndexError exactly when the range holds no Monday or Friday. Otherwise the list is every Monday and Friday ascending; a leading Friday gets the Monday four days earlier; the list stays ascending. |
| Dates.EveryDayRule | seoman/utils/date_utils.py:114-118 | Code 10 lists end - start + 1 days from start to end, ascending. |
| Dates.GridShape | seoman/utils/date_utils.py:169-174 | `range(0, count, step)` from start: first entry start, consecutive gaps of step, the last entry within the final step of the range. |
| Dates.IntervalShape | seoman/utils/date_utils.py:169-178 | Interval boundaries start at start and end at end, ascend, and have gaps of the interval except the last, which is 1 to the interval. |
| Dates.CreateDateRange | seoman/utils/date_utils.py:121-196 | `create_date_range` equals `DateRangeSpec` on every path: weekday names, intervals, no granularity, the default range from 2020-01-01, the `days` path and `None`. With the end before the start and no weekday name, it exits or raises. |
| Dates.IntervalChecks | seoman/utils/date_utils.py:147-168 | For an interval granularity: "problem with your dates" exactly when end + 1 < start; "smaller than your frequency" exactly when the interval exceeds the inclusive day count; a list exactly when neither applies. |
| Dates.NoRangeGranularity | seoman/utils/date_utils.py:181-188 | Without a range, an interval of length 1-7 selects that ISO weekday from 2020-01-01 to today, and a longer one gives `None`. |
| Dates.RecentDays | seoman/utils/date_utils.py:190-196 | The `days` path lists the `days` most recent days ending today, oldest first. |
| ServiceUtils.BodyList.constructor | seoman/utils/service_utils.py:12 | The default `new_body` list starts empty. |
| ServiceUtils.DateArgOf | seoman/utils/service_utils.py:17-19 | `body.get(key)` as `strptime` sees it: `None` exactly when absent or null; a date text is parsed; another text does not parse; a number, list or dict is not a text, and only a number can be subtracted. |
| ServiceUtils.WithDatesTwice | seoman/utils/service_utils.py:37-38 | A second `update` of both dates overrides the first. |
| ServiceUtils.SingleDayBodiesAt | seoman/utils/service_utils.py:31-40 | One copy per date, the i-th with start and end both dates[i]. |
| ServiceUtils.IntervalBodiesAt | seoman/utils/service_utils.py:43-60 | len(dates) - 1 copies. Copy i runs from dates[i] to the day before dates[i + 1]. The last index is dropped by the caught IndexError. |
| ServiceUtils.SingleDayWindows | seoman/utils/service_utils.py:31-40 | Each single-weekday body asks for exactly its day, in date order. |
| ServiceUtils.IntervalWindows | seoman/utils/service_utils.py:43-60 | Interval windows follow the dates, each ends the day before the next starts, and for ascending dates none is empty. |
| ServiceUtils.IntervalsMissLastDate | seoman/utils/service_utils.py:43-60 | No interval window reaches the last date of the range. |
| ServiceUtils.BodiesKeepOtherKeys | seoman/utils/service_utils.py:31-64 | Every body made agrees with the input on every key but the two dates, and has exactly the input's keys plus the two dates. |
| ServiceUtils.LastWindow | seoman/utils/service_utils.py:31-64 | The caller's dict is left with the last window (or unchanged when no body was made). |
| ServiceUtils.CreateBodyList | seoman/utils/service_utils.py:11-66 | A failing date range raises and changes nothing; otherwise the bodies for the granularity are appended to the shared list, which is returned, and the dict ends on the last window. |
| ServiceUtils.AppendIntervalBodies | seoman/utils/service_utils.py:43-60 | The interval loop appends exactly the interval bodies and leaves the dict on the last one. |
| ServiceUtils.AppendSingleDayBodies | seoman/utils/service_utils.py:31-64 | The single-day loops append one body per date and leave the dict on the last one. |
| ServiceUtils.RegenerateCredentials | seoman/utils/service_utils.py:78-108 | Without a `RefreshError` the first outcome is returned after one call. After one, the user is asked. Yes gives the steps call, ask, re-authenticate, call, and the second call's outcome. No gives call, ask, abort, and the exit. |
| Service.FetchBody | seoman/service.py:50-66 | One request, or after an HttpError a two-second sleep and a second request. Rows are used when the last answer has them; RefreshError stops; otherwise nothing is used. |
| Service.Overflowed | seoman/service.py:72-73 | The copy has startRow 24999 and every other key of the body. |
| Service.ConQueryProgress | seoman/service.py:49-77 | One body costs one or two requests, each recorded. Events, row lists and overflow bodies only grow; at most one row list is added; "rows" never disappears. |
| Service.PassProgress | seoman/service.py:79-90 | Over a pass: requests recorded equal requests made, one or two per body (at least one per body unless stopped), history is kept, and a stopped pass changes nothing. |
| Service.PassCreatesRows | seoman/service.py:68-69 | A pass with at least one body that is not stopped leaves a "rows" key, even with no rows fetched. |
| Service.PassRowsFlag | seoman/service.py:68-69 | Once "rows" exists it stays. |
| Service.PassExtras | seoman/service.py:71-74 | Overflow bodies come only from the "first" pass, each the copy of one of its bodies. |
| Service.PassAllAnswered | seoman/service.py:79-90 | When every request returns rows: one request per body in order, the row lists appended in body order, and exactly the bodies with more than 24999 rows queued, on the first pass. |
| Service.ConQueryAnswered | seoman/service.py:49-77 | One answered body: one request, its rows appended, and the body queued exactly when it overflows on the first pass. |
| Service.ConQueryDropped | seoman/service.py:57-77 | A body whose attempts end with no "rows" key or two HttpErrors records only its requests and creates "rows"; it adds no row list and queues nothing. |
| Service.ConQueryStep | seoman/service.py:49-77 | One body in terms of its fetch: its requests are recorded, the pass stops exactly on a RefreshError, a row list is added only when rows came back, and an overflow body only when more than 24999 came back on the first pass. |
| Service.PassRows | seoman/service.py:49-90 | For any answers: a pass appends exactly the row lists that were fetched, one per body that got rows, in body order, up to the first RefreshError. |
| Service.PassOverflows | seoman/service.py:71-90 | For any answers: a pass queues exactly the bodies with more than 24999 rows on the first pass, in body order, up to the first RefreshError. |
| Service.MixedPass | seoman/service.py:49-90 | Answers HttpError, rows r1, no rows, rows r3 for three bodies: four requests, and "rows" is [r1, r3]. |
| Service.PassAllFailed | seoman/service.py:57-66 | When every request fails: each body is tried twice with a sleep between, nothing is fetched or queued, and "rows" is still created. |
| Service.SecondPassGate | seoman/service.py:92-106 | The "more rows?" question comes exactly when the first pass ends normally with overflow bodies. Any later request needs a yes and at most two per overflow body; the second pass queues nothing; RefreshError exactly when a pass stopped. |
| Service.AllRequestsFailed | seoman/service.py:46-106 | With every request failing, a fresh object ends with `self.data == {"rows": []}`. |
| Service.QueryRunState | seoman/service.py:46-47 | After a run the shared list holds the bodies made and the body is the last window; when the date range fails, nothing changes and the run raises. |
| Service.SearchAnalytics.constructor | seoman/service.py:19-27 | The new object has body {startRow: 0, rowLimit: 25000}, empty data and empty settings. |
| Service.SearchAnalytics.Data | seoman/service.py:22 | `self.data` holds "rows" exactly when `setdefault("rows", [])` has run, which every `con_query` that does not end in a RefreshError does, even when it fetches nothing. It holds no other key. |
| Service.SearchAnalytics.UpdateBody | seoman/service.py:29-34 | The body becomes the old body overridden by the given fields; nothing else changes. |
| Service.SearchAnalytics.ConQuery | seoman/service.py:49-77 | `con_query` changes the data and the pass state as `ConQuerySpec` says, and leaves body and settings alone. |
| Service.SearchAnalytics.RunBodies | seoman/service.py:79-90 | `main` runs `con_query` on each body in turn until a RefreshError, as `RunPass` says. |
| Service.SearchAnalytics.QueryOnce | seoman/service.py:37-106 | One run: body list creation, then both passes, as `QueryRun` says, for the outcome, body, shared list, data and events. |
| Service.SearchAnalytics.FetchAll | seoman/service.py:92-106 | The first pass, the question, and the second pass only on a yes, as `BothPasses` says. |
| Service.SearchAnalytics.ConcurrentQueryAsyncio | seoman/service.py:36-106 | Behind the decorator: after RefreshError and a yes, the second run starts from the state the first left behind. |
| Service.SearchAnalytics.ApplySetting | seoman/service.py:339-393 | One saved field updates body or settings as `TomlField` says; on an exception nothing changes. |
| Service.SearchAnalytics.ProcessToml | seoman/service.py:337-393 | The fields are applied in order. A missing "query" table is a KeyError. On an exception the earlier fields stay applied. |
| Service.Iterated | seoman/service.py:347 | `for x in value`: a list's items, a table's keys in order, and a text's characters one by one. A date is its ten-character `YYYY-MM-DD` text. Any other scalar cannot be iterated. |
| Service.HasAll | seoman/service.py:340 | `"all" in value`: list membership, a key of a table, a substring of a text. A date text never holds "all". TypeError exactly where iteration fails. |
| Service.DateHasNoAll | seoman/service.py:340 | A date text holds only digits and '-', so "all" is never a substring of it. |
| Service.FilterList | seoman/service.py:354-365 | The filter list of a saved query. For a list: parsed exactly when every item parses, and then item by item. A non-empty text or a date text raises IndexError at its first character, and an empty text gives no filters. Any other scalar raises TypeError. |
| Service.ParseFilter | seoman/service.py:355-363 | A non-text filter raises AttributeError; a text with fewer than two words raises IndexError. |
| Service.ParseFilterWords | seoman/service.py:357-362 | A filter of two or more words becomes dimension, operator, and the rest joined by single spaces. |
| Service.FilterRoundTrip | seoman/service.py:355-363 | Words joined by single spaces parse back to the first word, the second word and the rest. |
| Service.TomlTouchesOnlyItsKeys | seoman/service.py:337-393 | Loading a saved query changes only the seven body keys it can set, and only "export-type" and "url" of the settings; no key disappears. |
| Service.FieldTouchesOnlyItsKeys | seoman/service.py:339-393 | The same for a single field. |
| Service.TomlAllDimensions | seoman/service.py:337-344 | A "dimensions" list holding "all", at any position of the table and with no later "dimensions" field, leaves the five fixed dimensions in the body once the load succeeds. |
| Service.TomlKeepsDimensions | seoman/service.py:337-393 | Fields other than "dimensions" keep the stored dimensions. |
| Service.FieldKeepsDimensions | seoman/service.py:349-393 | Only a "dimensions" field writes the body's "dimensions" key. |
| Service.TomlFieldsSnoc | seoman/service.py:337 | Applying fields and then one more is applying the longer list. |
| Service.TomlFileName | seoman/service.py:329-331 | ".toml" is added only to a name with no dot that does not already end in ".toml". |
| Service.TomlFileNameIdempotent | seoman/service.py:329-331 | Applying the rule twice gives the same name as once. |
| Service.CleanUrl | seoman/service.py:264-279 | The url lower-cased and replaced rule by rule, or "query" when absent or empty. The result is non-empty with no upper case, '/', '.', ',' or ':'. |
| Service.StaysAbsent | seoman/service.py:265-277 | A removed non-letter never comes back, provided no later rule writes it. |
| Service.CleanedChars | seoman/service.py:264-277 | The cleaned url is lower-case and free of ':', '/', '.' and ','. |
| Service.ExportChoice | seoman/service.py:197-255 | The "Results are empty" exit exactly for data {"rows": []}. With no type, a table for "sites" and Excel otherwise. Upper-case names are only lower-cased. csv, json, tsv and table each get their writer; any other type gets Excel. |
| ExportUtils.Put | seoman/utils/export_utils.py:39 | `obj[key] = value` on an `OrderedDict`: the keys gain `key`. A new key is appended. For an existing key every position keeps its key, and only an entry for `key` changes, to the new value. |
| ExportUtils.PutGet | seoman/utils/export_utils.py:39 | After the write the key gives the new value, and every other key is unchanged. |
| ExportUtils.PutDistinct | seoman/utils/export_utils.py:39 | Writes keep the keys distinct. |
| ExportUtils.PutAllDistinct | seoman/utils/export_utils.py:23-39 | Writes to distinct new keys are appended in order. |
| ExportUtils.PutAllKeepsPlaces | seoman/utils/export_utils.py:39 | Later writes never move a key already in the dict. |
| ExportUtils.PutAllKeepsDistinct | seoman/utils/export_utils.py:39 | A run of writes never makes a second entry for a key. |
| ExportUtils.PutAllOther | seoman/utils/export_utils.py:39 | Writes to other keys leave a key's value alone. |
| ExportUtils.PutAllLast | seoman/utils/export_utils.py:39 | A key holds the value of its last write. |
| ExportUtils.OrderedDict.constructor | seoman/utils/export_utils.py:23 | The dict starts empty. |
| ExportUtils.OrderedDict.Set | seoman/utils/export_utils.py:39 | The entries after `obj[key] = value` are `Put` of the old ones. |
| ExportUtils.Leaves | seoman/utils/export_utils.py:25-39 | Every leaf `recurse` reaches is a scalar, and its path extends the path of the subtree. |
| ExportUtils.Recurse | seoman/utils/export_utils.py:25-39 | `recurse(temp, parent_key)` writes each scalar leaf, depth first, in list and insertion order, under its key. |
| ExportUtils.Flatten | seoman/utils/export_utils.py:21-42 | `_flatten` gives the writes of all leaves of the data, from an empty dict. |
| ExportUtils.KeyIsJoinedPath | seoman/utils/export_utils.py:30-37 | When the first segment is not empty, a leaf's key is its path joined by the separator. |
| ExportUtils.FlattenOnePerLeaf | seoman/utils/export_utils.py:21-42 | When the leaves' keys are distinct, there is one cell per leaf, in order. |
| ExportUtils.FlattenLastValue | seoman/utils/export_utils.py:21-42 | The flattened dict has one entry per key, and a key shared by several scalars holds the value of the last of them. |
| ExportUtils.FlattenCollision | seoman/utils/export_utils.py:39 | An instance: {"a_b": 1, "a": {"b": 2}} flattens to the one cell "a_b" = 2, with the first position and the last value. |
| ExportUtils.SiteHeader | seoman/utils/export_utils.py:62-75 | The site or sitemap header of a key. A key without '_' is kept. A sitemap key raises IndexError exactly with fewer than three parts or exactly four (it reads parts[4]). Three parts give parts[2]; five or more give parts 2, 4 (blank when "0") and 3 joined by spaces. A non-sitemap key raises IndexError exactly when it has fewer than three parts. |
| ExportUtils.SiteHeaderOfSegments | seoman/utils/export_utils.py:74-75 | A non-sitemap key of three or more '_'-free parts gives parts 0, 2 and 1 joined by spaces. |
| ExportUtils.ReportHeader | seoman/utils/export_utils.py:85-97 | `None` exactly for "responseAggregationType" keys. Otherwise "keys" plus the last part when the part before last is "keys", else the last part. |
| ExportUtils.ReportHeaderOfSegments | seoman/utils/export_utils.py:90-97 | For `Join(parts, "_")`, the header is computed from the parts themselves. |
| ExportUtils.SplitWithValues | seoman/utils/export_utils.py:60-102 | For any renaming, a loop that ends without an exception has appended the values of exactly the renamed cells, in order. |
| ExportUtils.SplitWithOk | seoman/utils/export_utils.py:60-102 | A loop that ends without an exception renamed or skipped every cell. |
| ExportUtils.KeptWithAll | seoman/utils/export_utils.py:80 | When no cell is skipped, every value is kept. |
| ExportUtils.ReportColumns | seoman/utils/export_utils.py:84-102 | For a report: no failure, headers stay distinct and only grow, and the values become the old values followed by the values of the cells that are not skipped, in order. |
| ExportUtils.ReportHeadersCovered | seoman/utils/export_utils.py:97-100 | Every header of a cell that is not skipped is among the headers. |
| ExportUtils.ReportHeadersFrom | seoman/utils/export_utils.py:97-100 | Every header is an old one or the header of some cell. |
| ExportUtils.ReportKeysKept | seoman/utils/export_utils.py:99-100 | Old headers are kept, in order. |
| ExportUtils.SiteColumns | seoman/utils/export_utils.py:60-80 | For sites and sitemaps: IndexError exactly when some key cannot be renamed. Headers stay distinct and only grow. |
| ExportUtils.SiteValues | seoman/utils/export_utils.py:60-80 | For sites and sitemaps without an exception, the values become the old values followed by every cell's value, in order. |
| ExportUtils.ColumnLists.constructor | seoman/utils/export_utils.py:15 | The shared default lists start empty. |
| ExportUtils.ColumnLists.SplitToKv | seoman/utils/export_utils.py:44-102 | `_split_to_kv` extends the shared lists as `SplitCells` says, with the branch chosen by "path", "permissionLevel" or "sitemap_0_path" among the keys. |
| ExportUtils.ChunksConcat | seoman/utils/export_utils.py:128-130 | The rows of width `sub`, put back together, are the values. |
| ExportUtils.ChunksWidths | seoman/utils/export_utils.py:128-130 | Every row but the last is full, and the last holds 1 to `sub` values: just enough rows. |
| Json.Texts | seoman/utils/export_utils.py:166 | The header row of the csv and Excel writers (and a stored list of texts) has one text cell per key, in order. |
| ExportUtils.Export.constructor | seoman/utils/export_utils.py:14-19 | `Export(data)` keeps the data and the shared lists. |
| ExportUtils.Export.Preprocess | seoman/utils/export_utils.py:104-109 | `__preprocess` is `_split_to_kv(_flatten(data))` on the shared lists. |
| ExportUtils.Export.ExportToTable | seoman/utils/export_utils.py:111-139 | The headers and the values in rows of len(keys), or the "An error occured" exit with no headers. The same holds for `export_to_tsv` (lines 209-237). |
| ExportUtils.Export.ExportToExcel | seoman/utils/export_utils.py:174-207 | The header row, then the rows of values, or the exit with no headers. |
| ExportUtils.Export.ExportToCsv | seoman/utils/export_utils.py:152-172 | The header line, then one line per slice. With no headers, the empty header line and then ValueError. |
| ExportUtils.WriteChunks | seoman/utils/export_utils.py:166-168 | The csv loop writes the header row, then exactly the rows of `Chunks`. |
| ExportUtils.ChunkStep | seoman/utils/export_utils.py:167-168 | The slice at `ctr` is the first row of what is left. |
| QueryUtils.UrlSlot | seoman/utils/query_utils.py:138-139 | The url is stored exactly when it has more than five characters. |
| QueryUtils.DateSlot | seoman/utils/query_utils.py:141-147 | A non-blank date answer is stored as the day `process_date` gives, or ends the builder with its exit; a blank one stores nothing. |
| QueryUtils.PresetDimensions | seoman/utils/query_utils.py:149-162 | Exactly the four compared texts give lists, each starting with "date" and drawn from the five dimensions. |
| QueryUtils.CountriesPresetStoresNothing | seoman/utils/query_utils.py:161-162 | The offered "by countries" choice stores no dimensions. |
| QueryUtils.DimensionsSlot | seoman/utils/query_utils.py:149-164 | A preset stores its list, or nothing; a custom pick is stored as picked. |
| QueryUtils.FiltersSlot | seoman/utils/query_utils.py:166-167 | Non-blank filters are stored as comma-free pieces that join back to the answer with ",". |
| QueryUtils.StartRowSlot | seoman/utils/query_utils.py:169-170 | The start row is stored, as typed, exactly when it is numeric. |
| QueryUtils.RowLimitSlot | seoman/utils/query_utils.py:172-175 | The row limit is stored exactly when it is numeric, as `Limited`. |
| QueryUtils.Limited | seoman/utils/query_utils.py:173-174 | The stored row limit is numeric with value min(value, 25000) and no surrounding whitespace. |
| QueryUtils.SearchTypeSlot | seoman/utils/query_utils.py:177-178 | A non-blank search type is stored stripped and lower-cased. |
| QueryUtils.SearchTypeNormalised | seoman/utils/query_utils.py:177-178 | The stored search type has no surrounding whitespace and no upper-case letter. |
| QueryUtils.ExportSlot | seoman/utils/query_utils.py:180-181 | A non-blank export type is stored as typed. |
| QueryUtils.Slots | seoman/utils/query_utils.py:141-147 | The builder ends with an exit exactly when `process_date` exits on a stored date. |
| QueryUtils.SlotsStored | seoman/utils/query_utils.py:135-181 | There is one slot per saved-query key. |
| QueryUtils.PresentKeys | seoman/utils/query_utils.py:135-181 | Only the given keys occur in the saved query. |
| QueryUtils.BuildQuery | seoman/utils/query_utils.py:135-181 | The successive `update` calls build exactly `SavedQuery`. |
| QueryUtils.StoreUrl | seoman/utils/query_utils.py:138-139 | The url update adds its field or nothing. |
| QueryUtils.StoreDate | seoman/utils/query_utils.py:141-147 | A date update adds its field or nothing, or ends with the exit of `process_date`. |
| QueryUtils.StoreDimensions | seoman/utils/query_utils.py:149-164 | The dimensions update adds its field or nothing. |
| QueryUtils.StoreFilters | seoman/utils/query_utils.py:166-167 | The filters update adds its field or nothing. |
| QueryUtils.StoreStartRow | seoman/utils/query_utils.py:169-170 | The start-row update adds its field or nothing. |
| QueryUtils.StoreRowLimit | seoman/utils/query_utils.py:172-175 | The row-limit update adds its field or nothing. |
| QueryUtils.StoreSearchType | seoman/utils/query_utils.py:177-178 | The search-type update adds its field or nothing. |
| QueryUtils.StoreExportType | seoman/utils/query_utils.py:180-181 | The export-type update adds its field or nothing. |
| QueryUtils.SavedQueryEntries | seoman/utils/query_utils.py:135-181 | The saved query is the fields of the nine slots, in order. |
| QueryUtils.SavedQueryLookup | seoman/utils/query_utils.py:135-181 | The saved query holds each key at most once and only the nine keys, and each key looks up its answer's slot. |
| QueryUtils.QueryFileName | seoman/utils/query_utils.py:214-215 | The name ends in ".toml": unchanged if it already did, else with ".toml" appended. |
| QueryUtils.QueryFileNameIdempotent | seoman/utils/query_utils.py:234-235 | Applying the rule twice gives the same name as once. |

## Left out

- Network, authentication (`seoman/auth.py`), terminal output, prompts, spinners and progress bars. The remote service, the clock and the user's answers are parameters; requests and sleeps are recorded as events.
- `SearchAnalytics.sites`, `get_traffic` and `sitemaps` (`seoman/service.py:108-195`). They only copy API answers into `self.data` and are outside the modelled core.
- `_create_filename`'s `__create_name` and its `path_exists` checks (`seoman/service.py:281-309`). They depend on the clock, `randint` and the file system; `__clean_url` is modelled.
- `export_to_json` (`seoman/utils/export_utils.py:141-150`): it only dumps `self.data` to a file.
- The file writing of every writer. The writer methods return the sheet, rows or lines they would write.
- `query_builder`'s prompts (`seoman/utils/query_utils.py:1-134`) and the naming and writing of the query file (lines 183-206). The answers are the input of `QueryUtils.BuildQuery`.
- `query_deleter`'s `unlink` and `query_lister`'s table (`seoman/utils/query_utils.py:217-250`). Only the suffix rule is modelled.
- `process_date` (`seoman/utils/date_utils.py:231-276`): it wraps the `dateparser` library and prompts for retries. It is a parameter that returns a day or an exit.
- `get_start_date`, `get_today` and `days_last_util`: they read the clock, which is the parameter `today`.
- The `toml` library. A saved file is given as its parsed tables, and reading the file and the missing-folder warning are not modelled.
- Dates are day numbers, rendered by `Dates.DateText`. The model does not prove that this rendering and `strptime` with "%Y-%m-%d" are inverse. A text is either a canonical date (`Date`) or unparsable (`Text`), and every unparsable text raises `ValueError`. A value that is not a text raises `TypeError` in `strptime`, or fails in the date arithmetic of `granularity_days`.
- ServiceUtils.DateArgOf: texts that `strptime` accepts without zero padding, such as "2020-3-5", are treated as unparsable. Python parses them. `create_date_range` compares its padded dates with such texts, finds them different, and inserts the original start text in front; it also appends the original end text even when the padded end is already last. The model does not capture these extra entries.
- Dates.DateText: Python dates lie between years 1 and 9999. Days outside that range are rendered with the last four digits of their year.
- String operations cover ASCII only. `lower`, `strip`, `split()` and `isnumeric` do not handle non-ASCII letters, spaces (such as U+0085 or U+00A0) or digits. Their ASCII whitespace is complete: 9-13, 28-31 and the space.
- Service.SearchAnalytics.Data: `self.data` is recorded only through its "rows" list, the only key the query path writes.
- The `asyncio` event loop. `main` awaits each `con_query` in turn, so the model runs the bodies one after another.
