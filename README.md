# Scotland COVID-19 data — a Dafny model of the data layer

This project models the data layer of the Scotland COVID-19 data site: the loaders that read
the published CSV files into date-keyed tables, the table builders that turn those tables into
ordered rows, the CSV downloads, the data shaping inside the plotter, and the older
self-contained update script. It then proves what each of them promises: which rows are kept,
what every cell holds, which date range a table covers, and when an operation raises.

The modules follow the program's files:

- `Common` (common.dfy): results, optional values, dates as day numbers, Float division, and
  keyed merges that the loaders share.
- `Strings` (strings.dfy): `String#to_i`, which skips leading white space, reads an optional sign
  and then digits with single underscores between them, and Ruby's string order.
- `Dates` (dates.dfy): sorting date keys, their minimum and maximum, and day ranges.
- `HealthBoards` (health_boards.dfy): the board list, the population scale table and the figure
  converters.
- `ScotlandData` (scotland_data.dfy): `ScotlandCovid19Data`. The class keeps the board list,
  scale, cases, deaths, intensive-care, deceased and tests tables, and the last fetched revision
  (scotland_covid19_data.rb).
- `UkData` (uk_data.dfy): `UkCovid19Data`, the national loader with its per-nation scales
  (uk_covid19_data.rb).
- `Mobility` (mobility.dfy): `GoogleMobilityData`. It selects, groups and averages the mobility
  report and reads the report's version (google_mobility_data.rb).
- `Tables` (tables.dfy): every table builder of make/data.rb.
- `CsvTables` (csv_tables.dfy): `CsvTable` and every writer of make/csv.rb.
- `PlotSeries` (plot_series.dfy): the series that make/plot.rb computes before drawing, and its
  name and target checks.
- `LegacyUpdate` (legacy_update.dfy): update.rb, a refresh gated on the data repository's
  commit.

The classes update their fields in place, as the Ruby classes update their class variables.
The loops that build tables are methods proved against specification functions. The table
builders themselves are functions.

Inputs and modelling choices:

- A CSV file is a header plus rows of fields, already split; an empty field is `None`.
- The date parser `Date.parse` and the `Integer()`/`Float()` reading of the `:numeric` converter are
  parameters (`DateParser`, and `NumReader` or `NumberParser`). A field that neither reads stays
  text, as the converter leaves it.
- The remote commit sha, the mobility page text, the set of files on disk and the current time
  are parameters of the methods that use them.
- A Ruby exception is an `Err` result.
- Scaled figures and ratios are reals.
- A Float division by zero is `DivByZero` instead of Infinity or NaN.

## Model

| member | source | states |
|---|---|---|
| Common.Divide | make/data.rb:65-66 | Float division gives a finite quotient exactly when the divisor is non-zero |
| Common.DivideExact | make/data.rb:65-66 | a finite quotient times its divisor gives back the dividend |
| Common.SumPresentAppend | scotland_covid19_data.rb:149 | the sum of the present values of two runs of figures is the sum of the two sums |
| Common.SumPresentAllNil | scotland_covid19_data.rb:149 | nil figures add nothing: a run of nils sums to 0 |
| Common.Overwrite | scotland_covid19_data.rb:148-151 | storing keys on top of a table leaves exactly its old keys plus the stored ones |
| Common.StoreEach | scotland_covid19_data.rb:148-151 | the loop of `h[k] = v` leaves the table Overwrite describes |
| Common.OverwriteAt | scotland_covid19_data.rb:148-151 | a stored key holds the value of its last occurrence; a key never stored keeps its old value |
| Common.LastIndex | scotland_covid19_data.rb:142-143 | the position of the last occurrence of a key, -1 exactly when it is absent, with no later occurrence |
| Common.FirstIndex | scotland_covid19_data.rb:142 | `CSV::Row#[]` finds the first header of that name; -1 exactly when there is none |
| Common.ZipToMap | scotland_covid19_data.rb:142-143 | `zip(...).to_h` has exactly the listed keys |
| Common.ZipToMapAt | scotland_covid19_data.rb:142-143 | with distinct keys every key maps to the value at its own position |
| Common.MapResult | make/data.rb:9-11 | a `map` whose block may raise succeeds exactly when every element does, and then holds each element's result in order |
| Common.Filter | scotland_covid19_data.rb:147 | `reject`/`select` keeps only passing elements of the input and keeps every passing one |
| Common.FilterAppend | scotland_covid19_data.rb:147 | filtering keeps the order: filtering a concatenation concatenates the filtered parts |
| Common.FilterCounts | scotland_covid19_data.rb:147 | a passing element is kept exactly as often as it occurs, a failing one never |
| Common.FilterSplit | scotland_covid19_data.rb:147 | around a kept element the result is the filtered prefix, the element, then the filtered suffix |
| Common.ConvertDate | scotland_covid19_data.rb:136 | 'NA' and an empty field give nil, other text is Date.parse'd, and an unparsable text raises |
| Common.StrictDate | update.rb:29 | the legacy converter has no 'NA' rule: any text that does not parse raises |
| Common.ParseDate | scotland_covid19_data.rb:184 | `Date.parse` on a field succeeds exactly when the field is present and parses |
| Common.FetchPlanMembers | scotland_covid19_data.rb:67-80 | a listed file is fetched exactly when it is missing or the download is forced |
| Common.FetchPlanForcedIsAll | scotland_covid19_data.rb:73 | a forced download fetches every listed file, in order |
| HealthBoards.Dedupe | scotland_covid19_data.rb:121 | `push unless include?` keeps each name once and loses none |
| HealthBoards.Without | scotland_covid19_data.rb:124 | `delete 'Grand Total'` removes every occurrence and nothing else |
| HealthBoards.BoardListSpec | scotland_covid19_data.rb:118-125 | the board list is strictly ascending and holds exactly the record names other than 'Grand Total' |
| HealthBoards.BoardListUnique | scotland_covid19_data.rb:118-125 | any strictly sorted list of those names is the board list |
| HealthBoards.BoardListWellFormed | scotland_covid19_data.rb:124-125 | the board list has no duplicates and no 'Grand Total' |
| HealthBoards.ScaleTableKeys | scotland_covid19_data.rb:119-123 | the scale table has an entry for 'Grand Total' and for each record name, and no other |
| HealthBoards.ScaleOfBoard | scotland_covid19_data.rb:122 | a board's scale is the scaled population of the last record carrying its name |
| HealthBoards.ScaleOfGrandTotal | scotland_covid19_data.rb:119-123 | 'Grand Total' is the second pass's value (0 unless a 'Grand Total' record overwrote it) plus the sum of every record's scaled population |
| HealthBoards.ReadPopulations | scotland_covid19_data.rb:118-126 | the three passes over the records give the board list and the scale table specified above |
| HealthBoards.ReadBoardList | scotland_covid19_data.rb:121-125 | the first pass, delete and sort give BoardList |
| HealthBoards.ReadScaleTable | scotland_covid19_data.rb:122-123 | the second and third passes give ScaleTable |
| HealthBoards.CollectNames | scotland_covid19_data.rb:121 | the first pass as a loop keeps each name once in order of first appearance |
| HealthBoards.AssignScales | scotland_covid19_data.rb:122 | the second pass as a loop stores each record's scale over `{'Grand Total' => 0}` |
| HealthBoards.AddToGrandTotal | scotland_covid19_data.rb:123 | the third pass adds every record's scaled population to 'Grand Total' and changes nothing else |
| HealthBoards.ScaledFigure | scotland_covid19_data.rb:137 | `value.to_i / scale.fetch(header)` succeeds exactly when the header has a non-zero scale |
| HealthBoards.ScaledCountExact | scotland_covid19_data.rb:137 | a scaled figure, ScaledCount of the field's `to_i`, times its board's scale is the count in the file |
| HealthBoards.CaseFigure | scotland_covid19_data.rb:137 | 'X', '*' and 'NA' give nil (never 0); anything else, an empty field included, is scaled or raises |
| HealthBoards.BoardFigure | update.rb:30 | only 'X' gives nil; a field with no header raises KeyError; otherwise the figure is scaled |
| HealthBoards.AllMatchNilSymbolIffEmpty | scotland_covid19_data.rb:147 | `all?(:nil?)` compares each figure with a Symbol, so it holds only for a record with no boards |
| HealthBoards.BoardRecord | scotland_covid19_data.rb:142 | a record is keyed by exactly the boards and 'Grand Total' |
| HealthBoards.BoardRecordAt | scotland_covid19_data.rb:142 | each board reads the figure at its position and 'Grand Total' the one after the boards |
| HealthBoards.ConvertRow | update.rb:32 | the converters run on every field and the first failure aborts the read; otherwise each field holds its converted value |
| HealthBoards.RecordFigures | update.rb:33 | `values_at(*names)` gives one value per requested name |
| HealthBoards.ReadRecord | update.rb:33 | a record reads exactly when all of its fields convert |
| HealthBoards.RecordFigureOfBoard | update.rb:30-33 | looking up a board in a converted record gives the figure converter's result on the first field under that header |
| ScotlandData.CaseFigures | scotland_covid19_data.rb:137-140 | the figures of a case row convert exactly when every board column does, one value per column in order |
| ScotlandData.ReadCaseRow | scotland_covid19_data.rb:136-140 | a case row reads exactly when its date and its figures convert, and then holds both |
| ScotlandData.KeepNewCaseIff | scotland_covid19_data.rb:147 | because `all?(:nil?)` never matches a figure, a new row is dropped exactly when its date is nil (or there are no boards) |
| ScotlandData.NewCaseRecordAt | scotland_covid19_data.rb:149-150 | a new record keeps each board's figure and its 'Grand Total' is the sum of the present board figures |
| ScotlandData.OldCaseAt | scotland_covid19_data.rb:139-143 | a date is in the old table exactly when some row has it; it holds the last such row, with the file's own 'Grand Total' |
| ScotlandData.MergedCaseAt | scotland_covid19_data.rb:145-151 | after the new file a date holds the last kept new row's record (with the recomputed total), else its old record |
| ScotlandData.KeptDeaths | scotland_covid19_data.rb:166 | the reject filter leaves only dated records |
| ScotlandData.DeathsTableAt | scotland_covid19_data.rb:165-168 | every dated deaths record's date is in the table, and each entry is the record of the last kept row with that date (no later kept row has it), as `to_h` keeps the last pair, with each board's figure and the file's own total |
| ScotlandData.IcuFigure | scotland_covid19_data.rb:178 | 'X' and '*' become nil, anything else `to_i` |
| ScotlandData.IcuRecord | scotland_covid19_data.rb:187-192 | an intensive-care record has exactly the file's figure columns |
| ScotlandData.IcuRecordAt | scotland_covid19_data.rb:187-190 | each board column holds its own converted field of the row, nil past the row's end, as the headers pair with the fields |
| ScotlandData.IcuRecordTotal | scotland_covid19_data.rb:191 | the stored 'Grand Total' is the `to_i` sum of every field after the date, the file's own total included |
| ScotlandData.StoreIcuAgrees | scotland_covid19_data.rb:190-194 | the loop keeps the aggregate series equal to the per-board table's 'Grand Total' at every date |
| ScotlandData.StoreIcuFails | scotland_covid19_data.rb:192 | the loop fails exactly when some row's date does not parse |
| ScotlandData.OldIcu | scotland_covid19_data.rb:182-185 | the old file reads exactly when every date parses |
| ScotlandData.NumericCell | scotland_covid19_data.rb:209 | the `:numeric` converter leaves an empty field nil, turns text that `Integer()` or `Float()` reads into that number, and leaves any other text, a sentinel such as 'NA' among it, as text (never 0) |
| ScotlandData.Sub | scotland_covid19_data.rb:246-247 | `b - a` on two numbers is their difference, an Integer exactly when both are |
| ScotlandData.Add | scotland_covid19_data.rb:248 | `a + b` on two numbers is their sum, an Integer exactly when both are |
| ScotlandData.FieldSub | scotland_covid19_data.rb:246-247 | `b - a` on two converted fields succeeds exactly when both are numbers (a String has no `-`, a number cannot subtract a String), and is then their difference |
| ScotlandData.StoredLastKept | scotland_covid19_data.rb:211-217 | storing the kept rows' counts by date leaves a kept row's own count under its date when no later kept row shares that date |
| ScotlandData.DeceasedSeedAt | scotland_covid19_data.rb:209-213 | the old file's table has no nil date, has a date exactly when some old row carries it, and holds there the converted count of the last old row carrying it |
| ScotlandData.DeceasedAt | scotland_covid19_data.rb:215-217 | after the new file a date holds the converted count of the last new row with that date and a count; a date no counted new row mentions keeps its entry from the old file, or stays absent |
| ScotlandData.StoreByDateKeys | scotland_covid19_data.rb:234-238 | every stored test record sits under its own date, and a date is present exactly when the seed or some record has it |
| ScotlandData.WithDelta | scotland_covid19_data.rb:244-248 | the step succeeds exactly when all four cumulative figures are numbers; the daily figures are then the differences of consecutive cumulative figures and the rest of the record is kept |
| ScotlandData.WithDeltaRate | scotland_covid19_data.rb:248 | the positive rate is the day's positives over the day's tests, finite exactly when some test was reported |
| ScotlandData.DeltaPassFirstErr | scotland_covid19_data.rb:243-249 | the pass raises with the error of its first failing step |
| ScotlandData.DeltaPassFails | scotland_covid19_data.rb:243-249 | the pass raises exactly when two consecutive records both have their cumulative figures and one of those four figures is text |
| ScotlandData.EmittedIff | scotland_covid19_data.rb:244-250 | a new record is stored exactly when it and its predecessor both have cumulative figures; the first never is |
| ScotlandData.ComputeDeltas | scotland_covid19_data.rb:243-249 | the in-place each_cons loop gives DeltaPass: each record after a record with both totals gains its daily figures, and the loop raises at the first text figure |
| ScotlandData.StoreIcuRows | scotland_covid19_data.rb:188-194 | the loop over the new intensive-care rows gives StoreIcu |
| ScotlandData.StoreTests | scotland_covid19_data.rb:251 | the loop storing tests by date gives StoreByDate |
| ScotlandData.ScotlandCovid19Data.constructor | scotland_covid19_data.rb:21 | the stored revision starts empty, as do all tables |
| ScotlandData.ScotlandCovid19Data.Download | scotland_covid19_data.rb:63-83 | fetches FetchPlan of the listed files, forced when the remote revision differs; a full download records the remote revision, so no update is then available; tables untouched |
| ScotlandData.ScotlandCovid19Data.LoadHealthBoards | scotland_covid19_data.rb:112-128 | stores BoardList and ScaleTable; the list is duplicate-free without 'Grand Total' |
| ScotlandData.ScotlandCovid19Data.LoadCases | scotland_covid19_data.rb:130-154 | the table and outcome CaseLoad gives, and nothing else changes: the old table overwritten by every kept new record; each conversion error leaves what was stored before it; the closing log fails exactly when a nil date sits beside other dates |
| ScotlandData.LoadCaseTable | scotland_covid19_data.rb:130-154 | the record loop over the old then the new file, on values, ends in CaseLoad's table and outcome |
| ScotlandData.ScotlandCovid19Data.LoadDeaths | scotland_covid19_data.rb:156-170 | the deaths table is DeathsTable of the converted file, or unchanged with an error |
| ScotlandData.ScotlandCovid19Data.LoadIntensiveCare | scotland_covid19_data.rb:172-197 | the tables and outcome IcuLoad gives, and nothing else changes: the per-board table is cleared, the old series read, then StoreIcu's result stored; it fails exactly when some date does not parse |
| ScotlandData.LoadIcuTables | scotland_covid19_data.rb:172-197 | the intensive-care loop, on values, ends in IcuLoad's tables and outcome |
| ScotlandData.ScotlandCovid19Data.LoadDeceased | scotland_covid19_data.rb:199-222 | the table and outcome DeceasedLoad gives, and nothing else changes: the dated old rows' converted counts (numbers or text), overwritten by each new row whose count is present; errors leave the earlier state; the log fails on a nil key beside others |
| ScotlandData.LoadDeceasedTable | scotland_covid19_data.rb:199-222 | the deceased loop, on values, ends in DeceasedLoad's table and outcome, whose entries DeceasedSeedAt and DeceasedAt state |
| ScotlandData.ScotlandCovid19Data.LoadTests | scotland_covid19_data.rb:224-254 | the old records by date; when the new file reads and its each_cons pass does not raise on a text figure, overwritten by the records that gained both daily figures; a conversion error or a raising pass leaves the old file's records and an error; every record sits under its own date |
| Dates.Earliest | make/data.rb:36 | `keys.min` is a key no later than any other |
| Dates.Latest | make/data.rb:37 | `keys.max` is a key no earlier than any other |
| Dates.SortedDates | make/data.rb:9 | `keys.sort` lists every key once, in ascending order |
| Dates.DateKeys | make/data.rb:9 | the keys can be sorted exactly when none is nil, and then are the present dates |
| Dates.DayRange | make/data.rb:39 | `(lo..hi)` is every day from lo to hi once, in order; empty when lo > hi |
| Dates.DayRangeMembers | make/data.rb:39 | a day is in the range exactly when it lies between the ends |
| Dates.EarliestOfAll | make/data.rb:101 | the minimum of the series' minima is no later than any date of any series and is one series' minimum |
| Dates.LatestOfAll | make/data.rb:102 | the maximum of the maxima is no earlier than any date and is one series' maximum |
| Dates.LatestStart | make/data.rb:78 | the maximum of the minima is at least every series' start and is one of them |
| Dates.EarliestEnd | make/data.rb:79 | the minimum of the maxima is at most every series' end and is one of them |
| Dates.UnionRange | make/data.rb:101-104 | the span of several series exists exactly when none is empty |
| Dates.IntersectionRange | make/data.rb:78-81 | the common span exists exactly when none is empty |
| Dates.UnionRangeSpans | make/data.rb:101-104 | the days run without a gap from the earliest date of any series to the latest |
| Dates.IntersectionRangeSpans | make/data.rb:78-81 | the days run without a gap over exactly the days inside every series' span |
| Strings.ToIOfDigits | scotland_covid19_data.rb:137 | `to_i` reads back the decimal spelling of any integer, signed or not |
| Strings.ToISkipsSpace | scotland_covid19_data.rb:137 | leading white space does not change what `to_i` reads |
| Strings.ToIReadsPastUnderscore | scotland_covid19_data.rb:137 | `to_i` reads past a single underscore between two runs of digits, as if it were absent |
| Strings.SentinelsReadAsZero | scotland_covid19_data.rb:137 | 'X', '*', 'NA' and the empty string all read as 0 under `to_i`, which is why the converter must catch them first |
| Strings.LexLessIrreflexive | scotland_covid19_data.rb:125 | String order is irreflexive |
| Strings.LexLessTransitive | scotland_covid19_data.rb:125 | String order is transitive |
| Strings.LexLessTotal | scotland_covid19_data.rb:125 | String order is total on distinct strings |
| Strings.StrictlySortedUnique | scotland_covid19_data.rb:125 | two strictly sorted lists of the same names are equal |
| Strings.InsertSorted | scotland_covid19_data.rb:125 | inserting a new name into a sorted list keeps it sorted and adds exactly that name |
| Strings.SortSpec | scotland_covid19_data.rb:125 | `sort` of distinct names is strictly ascending and a permutation of its input |
| UkData.Scale | uk_covid19_data.rb:17-21 | a nation's scale is positive and equals its population over NUMBERS_PER |
| UkData.ScaleValues | uk_covid19_data.rb:17-21 | the scales are 540, 20, 55, 31 and 646, the UK's the largest |
| UkData.ConvertValue | uk_covid19_data.rb:124-126 | a field fails only when it is neither a number nor a parsable date under 'Date'; dates appear only under 'Date'; text stays text elsewhere |
| UkData.ConvertRow | uk_covid19_data.rb:126 | a row converts exactly when every field does, each field holding its converted value |
| UkData.ScaledValue | uk_covid19_data.rb:129-131 | `x ? x / scale : nil` succeeds exactly on nil or a number, nil giving nil; 0 is truthy and stays 0.0 |
| UkData.ScaledValueExact | uk_covid19_data.rb:129-131 | a scaled figure times the scale gives back the figure in the file |
| UkData.RecordKey | uk_covid19_data.rb:127 | a record is keyed by its date or nil; any other value is an error in the model |
| UkData.ReadRecordFields | uk_covid19_data.rb:126-132 | a row reads exactly when its fields convert, its key is valid and its three figures scale; the record then holds those |
| UkData.NationTable | uk_covid19_data.rb:125-135 | a table is produced only when every row reads and the keys can be sorted for the closing log |
| UkData.NationTableKeys | uk_covid19_data.rb:127 | the keys are exactly the rows' dates and each record lies under its own date |
| UkData.NationTableLastWins | uk_covid19_data.rb:127 | a row whose date no later row repeats is the record stored under that date |
| UkData.ReadNationFile | uk_covid19_data.rb:118-136 | the loop over the records gives NationTable |
| UkData.UkCovid19Data.constructor | uk_covid19_data.rb:23 | the revision starts empty and every table empty |
| UkData.UkCovid19Data.Download | uk_covid19_data.rb:50-70 | fetches FetchPlan of the listed files, forced on a new remote revision; a full download records the revision; tables untouched |
| UkData.UkCovid19Data.Load | uk_covid19_data.rb:98-116 | a nation's load stores NationTable for that nation only; a failure leaves every table as it was |
| UkData.UkCovid19Data.SetTable | uk_covid19_data.rb:98-116 | exactly the named nation's table is replaced; the other tables and the revision stay |
| Mobility.GroupNamesAreNotRegions | google_mobility_data.rb:7-42 | neither 'UK' nor 'Scotland' is a council area, so a line is never stored twice under one key |
| Mobility.CategoryValues | google_mobility_data.rb:114 | `line[9..14].map { &.to_i }` exists exactly for a line of at least nine fields, keeps nil as nil and reads each other field with `to_i` |
| Mobility.ReadLine | google_mobility_data.rb:110-116 | an unselected line is skipped; a selected one reads exactly when it has the categories and its date parses, giving its sub-region, its group ('UK' or 'Scotland'), its date and its values |
| Mobility.PushDaySpec | google_mobility_data.rb:106 | pushing onto a date's rows keeps each date once and appends the row to exactly that date |
| Mobility.PushRowWellFormed | google_mobility_data.rb:106 | the default blocks keep every key once, each date once within its key, and no date empty |
| Mobility.PushRowAt | google_mobility_data.rb:117-118 | pushing appends the row under its own key and date and changes no other rows |
| Mobility.PushRowKeys | google_mobility_data.rb:106 | pushing adds its key and only its key |
| Mobility.Store | google_mobility_data.rb:117-118 | storing a reading under its group and its sub-region keeps the table well formed |
| Mobility.Grouped | google_mobility_data.rb:109-119 | the grouping pass produces a well-formed table |
| Mobility.AnyContributesIff | google_mobility_data.rb:117-118 | a key is contributed to exactly when some reading's group or sub-region is that key |
| Mobility.StoreRows | google_mobility_data.rb:117-118 | storing a reading appends its contribution under each key and date |
| Mobility.GroupedOk | google_mobility_data.rb:109-119 | the grouping fails exactly when reading the selected lines fails |
| Mobility.GroupedRows | google_mobility_data.rb:109-119 | under each key and date the table holds exactly the matching selected rows, in file order |
| Mobility.GroupedKeys | google_mobility_data.rb:109-119 | the table's keys are exactly the groups and sub-regions of the selected lines |
| Mobility.StoreKeys | google_mobility_data.rb:117-118 | storing a reading adds its group and its sub-region as keys, and no other |
| Mobility.GroupedAnyKeys | google_mobility_data.rb:109-119 | the same, stated through AnyContributes |
| Mobility.Averages | google_mobility_data.rb:127 | one average per category |
| Mobility.AveragesFloor | google_mobility_data.rb:127 | each average is the floor of the column sum over the row count |
| Mobility.ColumnSumBounds | google_mobility_data.rb:127 | a column sum lies between count times the least and count times the largest value |
| Mobility.AveragesBounds | google_mobility_data.rb:127 | when every row holds a value in [lo, hi] the average lies in [lo, hi] |
| Mobility.NilCountsInDivisor | google_mobility_data.rb:127 | a nil still counts in `values.count`: 10 and nil average to 5 |
| Mobility.SumColumns | google_mobility_data.rb:127 | the `reduce` over a six-slot buffer leaves each slot the sum of the present values of its column |
| Mobility.AverageDay | google_mobility_data.rb:125-128 | one entry computed with the sums buffer is the date with its Averages |
| Mobility.GroupLines | google_mobility_data.rb:109-119 | the `File.foreach` loop succeeds exactly when Grouped does and then gives its table |
| Mobility.GroupedErrPropagates | google_mobility_data.rb:109-119 | a failure on a prefix of the file fails the whole pass |
| Mobility.AverageGroups | google_mobility_data.rb:123-130 | the averaging loop gives Averaged |
| Mobility.FindVersion | google_mobility_data.rb:67 | the leftmost position at or after a start where the pattern matches, or none |
| Mobility.ExtractVersion | google_mobility_data.rb:65-67 | the version is the date after the leftmost match; a page without a match raises |
| Mobility.ExtractVersionOfPrefix | google_mobility_data.rb:67 | a page starting with 'Reports created ' and a date yields that date |
| Mobility.GoogleMobilityData.constructor | google_mobility_data.rb:49-50 | nothing accessed and nothing loaded yet |
| Mobility.GoogleMobilityData.UpdateAvailable | google_mobility_data.rb:76-88 | fails exactly when the page has no version; otherwise true exactly when it differs from the stored one |
| Mobility.GoogleMobilityData.Download | google_mobility_data.rb:53-69 | the report is always fetched when the page check does not raise first; on success the page's version is stored, after which no update is available |
| Mobility.GoogleMobilityData.Load | google_mobility_data.rb:99-133 | downloads first when there is no report, storing the report, the page's version and the access time; with a report present those stay as they were; then stores Averaged of Grouped, and a failure leaves the table as it was |
| Tables.ByDateSpec | make/data.rb:18-20 | one row per date key, strictly ascending, each the record's values at the columns |
| Tables.ByDateDates | make/data.rb:18 | the row dates are the sorted keys |
| Tables.ByDateComplete | make/data.rb:18-20 | every date key has its row |
| Tables.SortKeys | make/data.rb:9 | `keys.sort` succeeds exactly when no nil key sits beside a date |
| Tables.SortKeysSpec | make/data.rb:9 | the sorted keys are every key once, ascending |
| Tables.CasesByHealthBoardSpec | make/data.rb:5-12 | the cases table succeeds exactly when the keys sort; one row per key, ascending, holding every board's figure and the Grand Total |
| Tables.DeathsByHealthBoardSpec | make/data.rb:14-21 | the deaths table has one row per date, ascending, with every board and the Grand Total |
| Tables.IcusSpec | make/data.rb:23-30 | the intensive-care table has one row per date, ascending, with the boards, the Golden Jubilee hospital and the Grand Total |
| Tables.IcuDeceasedSpec | make/data.rb:32-42 | succeeds exactly when both tables are non-empty and dated; covers every day from the earlier first date to the later last date, each row that day's two values or nil |
| Tables.Share | make/data.rb:65-66 | `v ? v / total : nil` is nil exactly for a nil figure, raises for a nil total, and is the quotient otherwise |
| Tables.BoardDayOk | make/data.rb:61-67 | a board's day reads when the totals are present wherever the board's figures are |
| Tables.HealthBoardFails | make/data.rb:52-58 | the board table needs a known board and non-empty, dated tables |
| Tables.HealthBoardReads | make/data.rb:52-69 | it reads for a known board with non-empty dated tables whose totals cover the board's figures |
| Tables.HealthBoardDays | make/data.rb:57-60 | it covers every day from the earlier first case or death date to the later last one |
| Tables.HealthBoardRows | make/data.rb:60-68 | each row is the board's row of its day |
| Tables.BoardDayFields | make/data.rb:61-67 | the row holds the day, the board's case and death figures and, where present, their shares of the day's totals |
| Tables.CountryNamed | make/data.rb:72-77 | only the four nations are accepted, never the UK as a whole |
| Tables.Ratio2 | make/data.rb:82-90 | `a && b ? x / y : nil` is present exactly when both figures are, and is then their quotient |
| Tables.CountryRangeOk | make/data.rb:78-81 | the range exists exactly when both tables are dated and non-empty |
| Tables.CountryOk | make/data.rb:71-81 | the nation table reads exactly for a nation whose table and the UK's are dated and non-empty |
| Tables.CountryRows | make/data.rb:78-92 | it covers the days common to the UK and the nation, each row that day's figures and ratios |
| Tables.CountryAsWrittenIsBlank | make/data.rb:82-90 | with the keys `:daily_cases`/`:daily_deaths`, which the records never hold, every figure and ratio is nil |
| Tables.CountryWithRecordKeys | make/data.rb:82-90 | with the keys the records hold, each figure is the nation's scaled figure and a ratio is present exactly when both figures are |
| Tables.UkTableOk | make/data.rb:101-102 | a UK table reads exactly when the four nations' tables are dated and non-empty |
| Tables.UkTableRows | make/data.rb:101-118 | it covers every day from the nations' earliest date to their latest, each row ten figures in the source's order |
| Tables.UkTableAsWrittenIsBlank | make/data.rb:95-145 | with the keys `uk_cases` and `uk_deaths` pass (`:cumulative_cases`, `:daily_cases`, `:cumulative_deaths`, `:daily_deaths`), which the records never hold, every figure of every row is nil |
| Tables.UkTableWithRecordKeys | make/data.rb:104-117 | read with a key the records hold, each of the first five figures of a row is that table's own figure of the day, present exactly when the table has a record that day with that figure |
| Tables.ScotlandTestsOrdered | make/data.rb:47-49 | the tests rows hold every record once in strictly ascending date order |
| Tables.ScotlandTestsDates | make/data.rb:47 | the row dates are the sorted keys |
| Tables.ScotlandTestsComplete | make/data.rb:47-49 | every stored record appears among the rows |
| Tables.MobilityOf | make/data.rb:147-157 | a key has a series exactly when the table stores one under it, and it is that series |
| PlotSeries.Deltas | make/plot.rb:190-191 | one change fewer than values |
| PlotSeries.DeltasTelescope | make/plot.rb:191 | the changes add up to the last value less the first |
| PlotSeries.DailyChanges | make/plot.rb:190-191 | the push loop gives Deltas |
| PlotSeries.DailyCasesDated | make/plot.rb:189-223 | each daily change is dated at the later of its two days and they add up to the rise of the total |
| PlotSeries.MaxPresent | make/plot.rb:193 | `reject(&:nil?).max` is nil exactly when every value is nil, and otherwise a present value no smaller than any other |
| PlotSeries.NoCasesIff | make/plot.rb:193 | a board is skipped exactly when its largest case and death figures are both 0; a series with no figure does not count |
| PlotSeries.PeakIsMax | make/plot.rb:193 | the maximum is 0.0 exactly when some figure is 0 and none is larger |
| PlotSeries.NoCasesAction | make/plot.rb:195-203 | a message is returned exactly for a target other than a file; otherwise the placeholder picture is copied |
| PlotSeries.Rises | make/plot.rb:105-111 | one rise per seven-day window |
| PlotSeries.RiseIsWeekOfChanges | make/plot.rb:109 | the smoothed value is the sum of the window's six day-over-day changes, not a mean |
| PlotSeries.SmoothedBoards | make/plot.rb:105-111 | dates of each window's last row and, for every board slot, its series of rises |
| PlotSeries.SmoothedPlotDropsLastBoard | make/plot.rb:116-122 | `data[1..-2]` of the fifteen arrays draws only the first thirteen board series |
| PlotSeries.SmoothedPlotDrawsEveryBoard | make/plot.rb:116-122 | the intended plot draws every board's series under that board's name, the fourteenth included, and nothing else |
| PlotSeries.WindowValues | make/plot.rb:372 | seven values per window |
| PlotSeries.Means | make/plot.rb:369-374 | one mean per window |
| PlotSeries.MeanSlides | make/plot.rb:372 | sliding the window a day changes the mean by a seventh of the day entering less the day leaving |
| PlotSeries.MeanOfSteady | make/plot.rb:372 | a window whose figures are all equal has that figure as its mean |
| PlotSeries.SmoothedNations | make/plot.rb:366-374 | dates of each window's last row and, per nation, the means of its daily column |
| PlotSeries.SmoothedNationsReadDaily | make/plot.rb:369-372 | the smoothed columns `r[i + 5]` are the daily half of the UK table: the four nations' figures under the daily key, England first |
| PlotSeries.SmoothedNationsAsWrittenAreZero | make/plot.rb:369-372 | with the keys make/data.rb passes, every smoothed mean of every nation is 0.0, the nil figures reading as 0 |
| PlotSeries.Plus | make/plot.rb:39 | numbers add, an Integer only with an Integer staying one; a rate adds to a number on either side and stays non-finite when it is; two strings concatenate; nil on either side, or a string beside a number, raises |
| PlotSeries.PushSumsRows | make/plot.rb:38-39 | the map succeeds exactly when every row's sum does, each row pushed with its own sum |
| PlotSeries.DailyTestsAsWrittenDrawsTotals | make/plot.rb:36-56 | as written, the daily plot's Positive series is the cumulative negatives and Negative is the daily negatives |
| PlotSeries.CumulativeTestsAsWrittenFails | make/plot.rb:59-62 | as written, the cumulative plot adds the rate to a total, so a record without a rate raises |
| PlotSeries.TestsPlotStacks | make/plot.rb:36-79 | the intended plots draw for records whose two summed counts are numbers, and the band between the two series is the positive count |
| PlotSeries.TestsPlotTextFails | make/plot.rb:38-39 | a summed count the converter left as text, beside one that is a number, makes the plot raise |
| PlotSeries.PlottedRegionsSpec | make/plot.rb:600-601 | every key but nil, 'UK' and 'Scotland' is drawn, and nothing else |
| PlotSeries.UkPointOn | make/plot.rb:631-637 | the UK reading of a day is the first one with that date, none when there is none |
| PlotSeries.SeriesOrEmpty | make/plot.rb:631-632 | a stored series reads as itself, a missing one as empty |
| PlotSeries.MobilityComparisonEmpty | make/plot.rb:631-639 | without a UK or region series the comparison has no rows |
| PlotSeries.MobilityComparisonRows | make/plot.rb:634-638 | every row is a region reading of a day the UK has, less the UK's first reading that day |
| PlotSeries.MobilityComparisonComplete | make/plot.rb:634-638 | every region reading of a day the UK has gets its row |
| PlotSeries.PlotTerminal | make/plot.rb:665-677 | a file target needs a file name, the screen needs none, and any other target is refused |
| PlotSeries.CheckName | make/plot.rb:186 | a name is accepted exactly when it is known |
| PlotSeries.CountryPlotChecksName | make/plot.rb:543-546 | the comparison plot accepts exactly the nations the country table accepts |
| CsvTables.CsvTable.constructor | make/csv.rb:36 | a new table has the given headers and no lines |
| CsvTables.CsvTable.Push | make/csv.rb:38 | `push` appends exactly that line and changes nothing else |
| CsvTables.CsvTable.PushAll | make/csv.rb:37-39 | pushing lines one by one appends them all, in order |
| CsvTables.NewTable | make/csv.rb:36-39 | a fresh table with the headers holding exactly the lines |
| CsvTables.BoardLineFields | make/csv.rb:38 | a line is the date, every board's figure and the Grand Total, one field under each header |
| CsvTables.CasesLinesSpec | make/csv.rb:31-41 | the cases download exists exactly when the keys sort; one line per key, ascending, each the key's record under the matching headers |
| CsvTables.DeathsLinesSpec | make/csv.rb:43-53 | the deaths download (and the identical lines of `uk_deaths_OLD`, 187-197) has one line per date, strictly ascending, each the date's record |
| CsvTables.WriteScotlandCases | make/csv.rb:31-41 | the push loop fails exactly when the keys cannot be sorted and otherwise writes CasesLines under the board headers |
| CsvTables.WriteScotlandDeaths | make/csv.rb:43-53 | the push loop writes DeathsLines under the board headers |
| CsvTables.IcuDeceasedLinesSpec | make/csv.rb:55-68 | written exactly when both tables are non-empty and the deceased keys are dated; every day of the union range with that day's patients and deceased, empty where absent |
| CsvTables.WriteScotlandIcuDeceased | make/csv.rb:55-68 | the push loop writes IcuDeceasedLines, failing exactly when they do |
| CsvTables.TestsLinesSpec | make/csv.rb:76-77 | every line is a stored record without its rate, and every stored record is written |
| CsvTables.TestsLinesOrdered | make/csv.rb:76 | with records dated by their keys, one line per record with dates strictly ascending |
| CsvTables.WriteScotlandTests | make/csv.rb:70-80 | the push loop writes TestsLines under the tests headers |
| CsvTables.CaseLineSpec | make/csv.rb:90-96 | a line reads exactly where the totals cover the board's figures, and then holds the date, both figures and their shares, each share nil exactly where its figure is |
| CsvTables.HealthBoardLinesOk | make/csv.rb:82-97 | a board's download succeeds exactly for a known board whose case keys sort and whose totals cover its figures |
| CsvTables.HealthBoardLinesSpec | make/csv.rb:89-97 | one line per case key only, ascending; the deaths are read at the case dates |
| CsvTables.HealthBoardLineMatchesTable | make/csv.rb:89-96 | at a dated key the line is the same day's row of the board table that make/data.rb builds |
| CsvTables.WriteHealthBoard | make/csv.rb:82-103 | the push loop fails exactly as HealthBoardLines does and otherwise writes them under the share headers |
| CsvTables.CountryLinesOk | make/csv.rb:105-116 | a nation's download fails exactly for a name that is not a nation, a nil date key or an empty table |
| CsvTables.CountryDaysSpec | make/csv.rb:114-123 | its days are, ascending, the days of the intersection range on which all four figures are present |
| CsvTables.CountryLinesSpec | make/csv.rb:119-132 | one line per such day, holding the nation's figures and their ratios to the UK's |
| CsvTables.CountryLinesMatchTable | make/csv.rb:125-131 | each line is the same day's row of the nation table that make/data.rb builds, read with the keys the records hold |
| CsvTables.WriteCountry | make/csv.rb:105-135 | the table written holds the share headers and CountryLines, and exists exactly when they do |
| CsvTables.CollectCountryLines | make/csv.rb:119-132 | the loop that skips the days lacking a figure yields the line of every full day of the range, in order |
| CsvTables.UkLinesOk | make/csv.rb:144-145 | the UK downloads exist exactly when the four nations' tables are dated and non-empty; the UK's own table takes no part in the range |
| CsvTables.UkLinesSpec | make/csv.rb:144-157 | every day of the four nations' union range, with each nation's and the UK's figure, empty where absent |
| CsvTables.UkLinesMatchTable | make/csv.rb:148-156 | each line, read with `:confirmed_cases` or `:deaths`, is the cumulative half of the same day's row of make/data.rb's UK table read with that same key, which is the corrected table; as written make/data.rb reads other keys (Tables.UkTableAsWrittenIsBlank) |
| CsvTables.WriteUk | make/csv.rb:137-185 | the push loop (`uk_cases`, or `uk_deaths` with the deaths key) writes UkLines, failing exactly when they do |
| LegacyUpdate.ReadTableOk | update.rb:29-34 | a file reads exactly when every one of its fields converts |
| LegacyUpdate.RecordsByDateKeys | update.rb:33-34 | the table has a key for each date the records carry, and no other |
| LegacyUpdate.RecordsByDateAt | update.rb:33-34 | under a date is the last record carrying it, each board reading the figure at its own position and 'Grand Total' the one after |
| LegacyUpdate.FetchLine | update.rb:47 | `fetch` succeeds exactly for a date the table holds |
| LegacyUpdate.FetchLineSpec | update.rb:47 | the line holds the date, then the record's figure under each board and 'Grand Total' |
| LegacyUpdate.KeyedLinesSpec | update.rb:46-48 | fetching every key succeeds exactly when the table holds them all; each line is then that key's record |
| LegacyUpdate.CasesCsvSpec | update.rb:43-51 | the cases table is written exactly when its keys sort, one line per key in ascending order, each the key's record |
| LegacyUpdate.DeathsCsvAsWrittenReadsCases | update.rb:53-61 | as written, the deaths table is written only when every death date is also a case date, and its lines are the case figures of those dates |
| LegacyUpdate.DeathsCsvAsWrittenFails | update.rb:56-57 | a death date without a case record fails the deaths table, whatever its figures |
| LegacyUpdate.DeathsCsvSpec | update.rb:53-61 | as intended, written whenever the death dates sort, one line per death date holding its deaths |
| LegacyUpdate.WriteKeyedLines | update.rb:46-48 | the push loop, stopped by the first KeyError, builds KeyedLines |
| LegacyUpdate.BoardCsvLineSpec | update.rb:69-75 | a board's line reads exactly where the totals cover its figures, and holds the figures and their shares, each nil exactly where its figure is |
| LegacyUpdate.BoardCsvOk | update.rb:65-79 | a board's table is written exactly when the case keys sort and the totals cover the board's figures at every case key |
| LegacyUpdate.BoardCsvSpec | update.rb:68-76 | its lines follow the case keys in ascending order, each the board's line at its key |
| LegacyUpdate.WriteBoardLines | update.rb:68-76 | the push loop builds the board's lines at the given keys |
| LegacyUpdate.CollectBoardSeries | update.rb:160-165 | three arrays as long as the keys: the keys, the board's cases and its deaths at each |
| LegacyUpdate.SkipsBoardIff | update.rb:167 | a board's plot is skipped exactly when its largest case figure and its largest death figure are both 0; a series with no figure is not taken for zero |
| LegacyUpdate.DrawnWithCases | update.rb:167-170 | a board with a positive case figure is always drawn |
| LegacyUpdate.BoardCsvsSpec | update.rb:63-80 | the boards' tables, in board order, each the board's own; written exactly when every board's is |
| LegacyUpdate.Drawn | update.rb:157-170 | one drawing decision per board |
| LegacyUpdate.PublishShape | update.rb:43-170 | a completed publication has a table and a drawing decision for every board, and a dated line for each case date |
| LegacyUpdate.LegacyPipeline.constructor | update.rb:11 | the pipeline starts with the given last-seen commit |
| LegacyUpdate.LegacyPipeline.Update | update.rb:10-16 | nothing happens while the commit is the last seen; otherwise the new commit is stored before the refresh, whatever its outcome |
| LegacyUpdate.RunRefresh | update.rb:18-40 | the step-by-step refresh computes Refresh |
| LegacyUpdate.PublishTables | update.rb:43-170 | the writing and plotting loops compute Publish |
| LegacyUpdate.WriteBoardCsvs | update.rb:63-80 | the loop over the boards builds BoardCsvs |
| LegacyUpdate.DrawBoards | update.rb:157-170 | the loop over the boards computes Drawn |

## Left out

- Network access is not modelled. That covers the GitHub commits API, the file downloads and
  the Google page fetch. The remote sha, the page text and the downloaded files are inputs.
- File I/O is not modelled: `File.exist?`, `File.write`, `File.open`, the output file names and
  `FileUtils`. The files present on disk are a set of names; a written table is its header and
  lines.
- The CSV library's parsing and quoting are not modelled. Rows arrive as fields, and the
  converters are applied as the library would apply them.
- Gnuplot drawing and styling are not modelled. `basic_plot` and `comparrison_plot` are kept
  only as the target check `PlotSeries.PlotTerminal`.
- The HTML page rendering (update.rb:263-267) is a foreign template library and is not
  modelled.
- The sequencing wrappers `all`, `scotland` and `health_boards` in make/csv.rb and make/plot.rb
  only call the modelled writers in turn.
- Lazy `defined?` caching of the class variables is not modelled; each `Load` method is the
  loader that the cache would run.
- Logging is not modelled, except for one effect. The `keys.sort` in a log line (update.rb:35)
  raises on a nil key, so the model fails there too.
- Error messages are not modelled exactly; only whether a step fails.
- The plots of make/plot.rb that only hand tables to Gnuplot are not modelled. These are the
  cumulative cases by board (82-99), the comparison plots (243-267, 543-569) and
  `mobility(region)` (571-595). Their data is the table builders' output, which is modelled.
- The cases plot of update.rb:83-116 is not modelled. It sorts each record's entries by name,
  'Grand Total' among them, then titles `data[1..-2]` by board position.
- The deaths plot of update.rb:118-155 is not modelled. Like the deaths CSV, it reads the cases
  table at each death date (143), so a death date that the cases table lacks raises there too.
  The model takes the intended reading, as for the deaths CSV.
- The comparison plots of update.rb:209-261 draw the same ratios as `BoardCsvLine` and are not
  modelled further.
- LegacyUpdate.HasFirstDate stands for the plots' `keys.first.strftime`. It is modelled only
  as the condition under which the refresh goes on.
- CsvTables.DeathsLines also models `uk_deaths_OLD` (make/csv.rb:187-197), which builds the
  same lines from the same table.
- The tests download sorts records by their Date field. The model orders them by their key,
  which is the same order when every record carries its key as its date. `TestsLinesOrdered`
  states that case.
- PlotSeries.SmoothedBoards reads exactly fourteen board slots, as the source's `(1..14)`
  does, whatever the number of boards.
- UkData.RecordKey: a Date field that converts to a number or stays text is stored under that
  value in Ruby. The model rejects it, because a table key is a date or nil.
- `UkData.UkCovid19Data.Load` does not trigger the download of a missing file. Fetching is the
  separate `Download` method.
- Mobility.GoogleMobilityData.Load: a failure part way through leaves the source's `@@data`
  half built. The model keeps the old table instead.
- Reading a missing key of the mobility table inserts an empty entry in Ruby, through the
  default block. The model does not insert it. The only keys read this way are 'UK', 'Scotland'
  and the plotted regions, and `mobility_regions` skips 'UK' and 'Scotland'.
- Tables.MobilityOf returns `None` for a missing key. `PlotSeries.SeriesOrEmpty` gives the
  empty series that Ruby's default block yields.
- HealthBoards.PopulationRow: the Population field is an Integer or nil. In Ruby the numeric
  converter can also leave a Float, such as 5463300.5, or text such as 'n/a'. `to_f` then reads
  the Float as it is, and the text's leading number or 0.0. The Name is always a string, but an
  empty Name is nil in Ruby, and `sort` then raises when another name is beside it.
- HealthBoards.ScaledFigure, HealthBoards.CaseFigure, HealthBoards.BoardFigure: a population
  of 0 in the scale table gives Infinity or NaN in Ruby. The model reports an error instead.
- Floating-point rounding is not modelled; figures and ratios are reals.
- Strings.ToI: the `0d` decimal prefix that `to_i` also accepts is not modelled.
- ScotlandData.NumericCell: the syntax `Integer()` and `Float()` accept is a parameter. A Date
  field whose text reads as a number stays that number in Ruby, because the converters stop once
  a field is no longer a String; the model hands every date text to the date converter.
- ScotlandData.NewCaseRecord, ScotlandData.IcuRecord: the Ruby record hash also holds the 'Date'
  entry and any field under a nil header. The model leaves them out; every table reads the
  records through `values_at` of the board names and 'Grand Total', never those entries.
- LegacyUpdate.Publish, LegacyUpdate.PublishTables: they build the corrected deaths table. As
  written, update.rb:56-57 raises KeyError when a death date is missing from the cases table;
  the model returns Ok with the deaths' own figures there. LegacyUpdate.DeathsCsvAsWrittenFails
  states the source's behaviour.
- The parsing rules of `Date.parse` are not modelled; the parser is a parameter.

## Findings

| source | as written | input that shows it | evidently intended | confidence | as-written member | corrected member |
|---|---|---|---|---|---|---|
| make/data.rb:82-90 | `country` reads `:daily_cases` and `:daily_deaths`, but the national records hold only `:tests`, `:confirmed_cases` and `:deaths` | any nation table with a non-nil confirmed-cases figure: every figure and ratio of the row is nil | read the keys the records hold | not executed | Tables.CountryAsWrittenIsBlank | Tables.CountryWithRecordKeys |
| make/data.rb:95-145 | `uk_cases` and `uk_deaths` read `:cumulative_cases`, `:daily_cases`, `:cumulative_deaths` and `:daily_deaths`, but the national records hold only `:tests`, `:confirmed_cases` and `:deaths` | any UK table: every figure is nil, so the total plots draw nothing and every smoothed mean is 0.0 | read the keys the records hold, as make/csv.rb does for the cumulative half | not executed | Tables.UkTableAsWrittenIsBlank | Tables.UkTableWithRecordKeys |
| make/plot.rb:36-79 | rows are Date, Today Positive, Today Negative, Rate, Total Positive, Total Negative; the daily plot pushes `record[1] + record[2]` but draws columns 5 and 2, the cumulative plot pushes `record[3] + record[4]` (rate plus total) and draws columns 5 and 4 | any record: the daily plot's Positive series is the cumulative negatives; a record without a rate makes the cumulative plot raise | stack the positive and negative counts | not executed | PlotSeries.DailyTestsAsWrittenDrawsTotals | PlotSeries.TestsPlotStacks |
| make/plot.rb:116-122 | the smoothed plot draws `data[1..-2]`, a range taken from the unsmoothed plot, whose last array is the Grand Total | fourteen boards: the fourteenth board's series is computed but never drawn | draw `data[1..-1]`, one series per board | not executed | PlotSeries.SmoothedPlotDropsLastBoard | PlotSeries.SmoothedPlotDrawsEveryBoard |
| update.rb:56-57 | the deaths CSV runs over the death dates but fetches each one from `cases`; the deaths plot repeats this at line 143 | a deaths file with a date that the cases file lacks raises KeyError; otherwise the table holds case figures | fetch from `deaths` | not executed | LegacyUpdate.DeathsCsvAsWrittenReadsCases | LegacyUpdate.DeathsCsvSpec |
