# Poultry Management — a Dafny model of its data logic

Poultry Management is a browser application for running a laying flock.
It keeps production cycles, cages, daily production logs, feed logs, sales,
expenses and vaccinations in an IndexedDB store. This project models the
sequential data-in/data-out logic that sits inside its components, apart
from anything that renders:

- **the CSV codec and import** (`js/utils/csv-handler.js`, modules `Csv`,
  `CsvImport`, `CsvExport`)
  - the character state machine of `parseCSVLine`;
  - the line and header handling of `parseCSV`;
  - the serialiser `arrayToCSV`, the export row mappings and the templates;
  - the four `import*` loops, which get or create cycles and cages through
    string-keyed lookup maps and keep a success/error accumulator.
- **the daily entry of a cage** (`js/components/cage-detail.js`, module
  `CageDetail`): the upsert of a log by date, the derived closing birds and
  collected eggs, the conditional feed-log upsert, the cage totals, the
  flock age and the detailed metrics.
- **the analytics rules** (`js/components/analytics.js`, module `Analytics`):
  the filters, the KPI folds, the efficiency-point pairing, the performance
  table and the insight rules.
- **the router** (`js/router.js`, module `Router`): the URL parameter codec,
  route resolution with its fallback, the initial route and pop-state.
- **the vaccination schedule** (`js/components/vaccination-manager.js`,
  module `Vaccination`): the nine-entry table, the completion match, the
  badge classes, and adding and deleting a record.
- **the sales view** (`js/components/sales-manager.js`, module `Sales`): the
  record the form stores, the running total, the summary folds and the
  payment badge.

Shared modules:

- `Common`: Option, Result, JavaScript `||` defaults, filters and sums.
- `Strings`: trim, split, join, replace, lower case and substring search.
- `Numbers`: `parseInt` and `parseFloat` on text.
- `Dates`: day arithmetic and the flock age.
- `Records`: the stored entities.
- `Store`: the keyed store of `js/db.js`.
- `Sorting`: an insertion sort on an array, which stands for `Array.prototype.sort`.

Conventions:

- A missing or `NaN` number is `None`.
- `x || d` on a number is `IntOr`/`RealOr`, where `None` and 0 give `d`.
- Dates keep the text the source stores.
- `new Date(x).getTime()` is a parameter `timeOf`.
- A loaded list pairs each record with its store key (`Entry`).

## Model

| member | source | states |
|---|---|---|
| Csv.ParseCsvLine | js/utils/csv-handler.js:38-59 | the character loop over the line yields exactly the trimmed fields of the quote/comma state machine |
| Csv.LineFields | js/utils/csv-handler.js:38-59 | a line always has at least one field and every field is trimmed |
| Csv.ScanComma | js/utils/csv-handler.js:50-52 | a comma outside quotes ends the current field and starts an empty one |
| Csv.ScanQuoted | js/utils/csv-handler.js:43-49 | a quote at a field's start opens it and a quote before a comma or the line end closes it, with the characters between kept |
| Csv.ScanInnerQuote | js/utils/csv-handler.js:46-55 | a quote inside an open field that is not before a comma or the end is kept as a character |
| Csv.LineFieldsOfCells | js/utils/csv-handler.js:38-59 | a line of cells, each quoted when it holds a comma, reads back as the trimmed values, so commas inside a quoted field are kept |
| Csv.DoubledQuoteKept | js/utils/csv-handler.js:46-49 | a doubled quote inside a quoted field stays two quotes; it is not unescaped |
| Csv.ParseCsv | js/utils/csv-handler.js:16-35 | the loop over the data lines builds exactly the rows of ParsedCsv |
| Csv.SingleLineHasNoRows | js/utils/csv-handler.js:17-18 | text that holds no newline after trimming has no rows |
| Csv.RowsHaveHeaderKeys | js/utils/csv-handler.js:20-32 | there are at most as many rows as data lines, and every row's keys are exactly the header names |
| Csv.RowsAreFittingLinesInOrder | js/utils/csv-handler.js:23-32 | the rows are those of the lines whose field count equals the header count, in input order; other lines are dropped |
| Csv.RowOfValue | js/utils/csv-handler.js:25-28 | under a header that is not repeated later, the row holds the field at that header's position |
| Csv.HeaderNames | js/utils/csv-handler.js:20 | there is at least one header name and quotes are removed from every name |
| Csv.Field | js/utils/csv-handler.js:67-74 | a falsy value (nothing, `''`, 0) is the empty field; a string without a comma, quote or newline is written as is; one that holds any of them is wrapped in quotes |
| Csv.FieldOfOneQuote | js/utils/csv-handler.js:70-71 | a value holding a quote is written in quotes with that quote doubled |
| Csv.FieldDoublesQuotes | js/utils/csv-handler.js:67-74 | for every string that needs quotes, the field is the value between quotes with every quote doubled: its length is the value's plus one per quote plus two, and undoubling the inside gives the value back |
| Strings.DoubledLength | js/utils/csv-handler.js:70-71 | `replace(/"/g, '""')` lengthens a text by exactly the number of quotes in it |
| Strings.UndoubleDoubled | js/utils/csv-handler.js:70-71 | reading each doubled character back as one inverts the doubling, for every text |
| Csv.QuoteInValueStaysDoubled | js/utils/csv-handler.js:46-71 | a string value holding a quote does not read back unchanged: the doubled quote survives parsing |
| Csv.CsvLines | js/utils/csv-handler.js:64-77 | the output has one line per row plus the header line, the first being the headers joined by commas |
| Csv.ArrayToCsv | js/utils/csv-handler.js:62-78 | the output is empty exactly when there are no rows |
| Csv.CsvSplitsIntoLines | js/utils/csv-handler.js:62-78 | when no header, string or rendered number holds a newline, the output splits on `\n` into exactly 1 + rows lines, the header line first |
| Csv.ParseTable | js/utils/csv-handler.js:16-35 | a table of writable values under plain headers parses back to one row per table row, holding its values |
| Csv.RoundTrip | js/utils/csv-handler.js:16-78 | parsing what arrayToCSV writes gives back every row's string value under every header, when headers are distinct and plain and values carry no comma, quote, newline or surrounding space, except a final one-column empty row |
| CsvImport.BuildKeyMap | js/utils/csv-handler.js:203-213 | the lookup-map loop builds the map KeyMap of names and ids |
| CsvImport.KeyMapHasKeys | js/utils/csv-handler.js:203-213 | every loaded entry can be found both by its name and by its id |
| CsvImport.KeyMapLast | js/utils/csv-handler.js:203-213 | the last entry written under a key wins |
| CsvImport.KeyMapNonZero | js/utils/csv-handler.js:203-213 | a lookup map of stored entries maps every key to a positive id |
| CsvImport.Or | js/utils/csv-handler.js:219-220 | `a \|\| b` on a cell: the first cell when it is filled, otherwise the second |
| CsvImport.NewCycle | js/utils/csv-handler.js:225-232 | an auto-created cycle takes the row's name, its date or today's, status active and the import note |
| CsvImport.NewCage | js/utils/csv-handler.js:241-250 | an auto-created cage takes the row's name, the resolved cycle, capacity 500, the opening birds or 0, breed Mixed and the import note |
| CsvImport.ProductionLogOf | js/utils/csv-handler.js:256-269 | the imported log carries the resolved cycle and cage, the row's date and its counts, each 0 when not a number |
| CsvImport.SaleOf | js/utils/csv-handler.js:314-334 | an imported sale has crate fields exactly when its type is egg and bird fields exactly when it is bird |
| CsvImport.ExpenseOf | js/utils/csv-handler.js:378-387 | an imported expense carries the resolved cycle and the row's date |
| CsvImport.FeedLogOf | js/utils/csv-handler.js:432-439 | an imported feed log carries the resolved cycle, no cage and the row's date |
| CsvImport.RowError | js/utils/csv-handler.js:273-275 | a row's error message begins `Row <index + 2>: ` |
| CsvImport.ResolveCycleStep | js/utils/csv-handler.js:222-236 | a known cycle key is reused; an unknown one is created once, stored in the map and counted as new |
| CsvImport.ResolveCageStep | js/utils/csv-handler.js:238-254 | a known cage key is reused, whatever cycle it belongs to; an unknown one is created once, stored and counted |
| CsvImport.ImportProductionRows | js/utils/csv-handler.js:217-276 | the loop over the rows ends in the state the row-by-row function ProductionRows describes |
| CsvImport.ImportCycleRows | js/utils/csv-handler.js:294-340 | the loop of the sales, expenses and feed imports ends in the state CycleRows describes |
| CsvImport.ImportProductionLogs | js/utils/csv-handler.js:197-279 | importProductionLogs leaves the store and results of ProductionImport on the parsed text |
| CsvImport.ImportSales | js/utils/csv-handler.js:282-343 | importSales leaves the store and results of CycleImport with the sale mapping |
| CsvImport.ImportExpenses | js/utils/csv-handler.js:346-397 | importExpenses leaves the store and results of CycleImport with the expense mapping |
| CsvImport.ImportFeedLogs | js/utils/csv-handler.js:400-449 | importFeedLogs leaves the store and results of CycleImport with the feed-log mapping |
| CsvImport.FromStart | js/utils/csv-handler.js:217-276 | every row is one success or one error naming a row in range; the records grow by the successes; newCycles counts distinct unresolved cycle keys, all exactly when the cycle table has room |
| CsvImport.CagesFromStart | js/utils/csv-handler.js:238-254 | newCages counts the distinct cage keys created, all taken from the rows |
| CsvImport.CagesFromStartWithRoom | js/utils/csv-handler.js:238-254 | with room in the cage table, newCages is the number of distinct cage keys the loaded cages did not know |
| CsvImport.CycleImportCounts | js/utils/csv-handler.js:282-449 | the sales, expenses and feed imports account for every row and count distinct new cycles |
| CsvImport.ProductionImportCounts | js/utils/csv-handler.js:197-279 | the production import accounts for every row and counts distinct new cycles and cages |
| CsvImport.ProductionRowUsesKnownCage | js/utils/csv-handler.js:239-240 | a row whose cage key is already known uses that cage even when it belongs to another cycle |
| CsvExport.CycleLabel | js/utils/csv-handler.js:89-90 | a cycle's label is its name when it has one, else `Cycle <id>` |
| CsvExport.CycleLabelsOfEntries | js/utils/csv-handler.js:89-90 | every loaded cycle's id is labelled, with that cycle's label |
| CsvExport.CycleColumn | js/utils/csv-handler.js:100 | the Cycle column is the cycle's label, or its id when the cycle is unknown |
| CsvExport.CageColumn | js/utils/csv-handler.js:87-101 | the Cage column is the cage's name, or its id when the cage is unknown or unnamed |
| CsvExport.Loaded | js/utils/csv-handler.js:82 | the exported records are exactly those of the chosen cycle, or all records without one |
| CsvExport.ProductionExportRow | js/utils/csv-handler.js:92-110 | the row has every production header; Cycle, Cage and Mortality are as mapped, a missing count giving 0 |
| CsvExport.ExportProductionLogs | js/utils/csv-handler.js:81-114 | the export is empty exactly when the cycle has no production logs |
| CsvExport.SaleExportRow | js/utils/csv-handler.js:123-142 | the row has every sales header, with Total_Amount the sale's amount or 0 |
| CsvExport.ExportSales | js/utils/csv-handler.js:116-146 | the export is empty exactly when the cycle has no sales |
| CsvExport.ExpenseExportRow | js/utils/csv-handler.js:155-168 | the row has every expense header, with Amount the expense's amount or 0 |
| CsvExport.ExportExpenses | js/utils/csv-handler.js:148-172 | the export is empty exactly when the cycle has no expenses |
| CsvExport.FeedExportRow | js/utils/csv-handler.js:181-191 | the row has every feed header, with Feed_Consumed_Kg the log's amount or 0 |
| CsvExport.ExportFeedLogs | js/utils/csv-handler.js:174-192 | the export is empty exactly when the cycle has no feed logs |
| CsvExport.TemplateParses | js/utils/csv-handler.js:468-522 | a template whose sample row has one plain value per header parses to exactly that one row |
| CsvExport.ProductionTemplateParses | js/utils/csv-handler.js:468-482 | the production template uses the export's headers and parses to its one sample row |
| CsvExport.SalesTemplateParses | js/utils/csv-handler.js:483-497 | the sales template uses the export's headers and parses to its one sample row |
| CsvExport.ExpensesTemplateParses | js/utils/csv-handler.js:498-511 | the expenses template uses the export's headers and parses to its one sample row |
| CsvExport.FeedTemplateParses | js/utils/csv-handler.js:512-522 | the feed template uses the export's headers and parses to its one sample row |
| CageDetail.ClosingBirds | js/components/cage-detail.js:426-428 | closing plus mortality plus sold equals opening birds; it is missing exactly when opening birds are |
| CageDetail.ClosingBirdsNotClamped | js/components/cage-detail.js:426-428 | closing birds can be negative: opening 1 with 2 deaths gives −1 |
| CageDetail.FormLog | js/components/cage-detail.js:413-430 | the saved log has the cage and its cycle, the date, parsed counts (missing mortality or sold give 0), the derived closing birds, and thirty eggs per tray |
| CageDetail.LogOn | js/components/cage-detail.js:434-435 | finds a loaded log of the date, and none exactly when no log has that date |
| CageDetail.SaveOnLoggedDate | js/components/cage-detail.js:434-440 | saving a date that has a log updates that log under its own id, keeping its createdAt, and the log count is unchanged |
| CageDetail.SaveOnNewDate | js/components/cage-detail.js:440-443 | saving a new date adds exactly one log |
| CageDetail.FeedSavedOnlyWhenGiven | js/components/cage-detail.js:446-447 | with no positive current feed the feed store is unchanged |
| CageDetail.FeedUpsert | js/components/cage-detail.js:447-465 | a feed log of the date is updated under its id; otherwise one feed log is added |
| CageDetail.CageTakesClosingBirds | js/components/cage-detail.js:467-469 | after a successful save the stored cage's current birds are the saved closing birds |
| CageDetail.SubmitSetsCurrentBirds | js/components/cage-detail.js:410-477 | the whole submit leaves the stored cage with the closing birds of the form |
| CageDetail.CageView.SaveForm | js/components/cage-detail.js:410-471 | the save changes the three stores and the cage exactly as SaveProduction describes; on success the view's cage is the stored cage under the same id; the loaded logs are untouched |
| CageDetail.CageView.HandleProductionSubmit | js/components/cage-detail.js:410-477 | the submit changes the three stores exactly as SaveProduction describes; on success the reloaded and rendered view holds exactly the stored logs and feed logs of the cage, in the order Init leaves them, and the view's cycle is re-read from the store |
| CageDetail.BirdsLeft | js/components/cage-detail.js:487 | current birds minus total mortality, clamped at 0 |
| CageDetail.WithTotals | js/components/cage-detail.js:479-488 | the cage gets the plain sums of eggs and feed and a non-negative bird count |
| CageDetail.TotalsOrderFree | js/components/cage-detail.js:479-488 | the totals do not depend on the order of the logs |
| CageDetail.TotalsOfOneMore | js/components/cage-detail.js:479-488 | one more log adds its eggs and its mortality to the totals |
| CageDetail.CageView.UpdateCageTotals | js/components/cage-detail.js:479-491 | the cage gets WithTotals and is put back into the store; logs are untouched |
| Dates.FlockAge | js/components/cage-detail.js:493-499 | 1 without a start date; otherwise the number of whole days covering the gap, which is never negative |
| Dates.FlockAgeSymmetric | js/components/vaccination-manager.js:415-421 | the age does not change when the two dates swap |
| Dates.FlockAgeWholeDays | js/components/vaccination-manager.js:415-421 | two dates n whole days apart are n days apart in flock age |
| Dates.DaysCovering | js/components/cage-detail.js:497-498 | the ceiling of the gap in days: the least number of days that covers it |
| CageDetail.Weeks | js/components/cage-detail.js:523 | the floor of the days divided by seven |
| CageDetail.LayingLogs | js/components/cage-detail.js:539-540 | exactly the logs of flock age at least 133, in order |
| CageDetail.LayingFiguresMean | js/components/cage-detail.js:540-543 | with laying logs, the average opening birds times their number is the sum of their opening birds (`|| 0` for a missing count) |
| CageDetail.LayingFiguresOfLayingLogs | js/components/cage-detail.js:538-550 | the laying-phase figures read only the laying logs |
| CageDetail.YoungLogIgnored | js/components/cage-detail.js:539-550 | a log younger than 133 days changes neither numerator nor denominator |
| CageDetail.DetailedMetrics | js/components/cage-detail.js:501-571 | with no logs every figure is 0 and closing birds are the cage's current birds or 0; otherwise cumulative mortality and trays are sums, weeks are days div 7, and the hen-house and feed-per-bird figures are guarded ratios over laying logs |
| CageDetail.NoLayingLogs | js/components/cage-detail.js:542-550 | without a laying log the hen-house and feed-per-bird figures are 0 |
| CageDetail.CumulativeFiguresOrderFree | js/components/cage-detail.js:525-555 | the cumulative figures do not depend on the order of the logs |
| CageDetail.CageView.CalculateDetailedMetrics | js/components/cage-detail.js:501-571 | the logs are sorted in place by ascending date, stably and as a permutation; the result is DetailedMetrics of the sorted logs |
| CageDetail.CageView.SortLogsByDate | js/components/cage-detail.js:501-502 | the loaded production logs are re-sorted in place by ascending date, as a permutation, keeping the order of logs with the same date; nothing else in the view changes |
| CageDetail.OpeningBirdsDefault | js/components/cage-detail.js:71-95 | the form's opening birds: today's log's value when it is truthy, else the cage's current birds |
| CageDetail.CageView.Init | js/components/cage-detail.js:9-30 | the cage is found exactly when its id is stored; then the view holds that cage, its cycle, and exactly the stored logs and feed logs of the cage. After the render that ends `init` (whose stats re-sort the production logs), production logs are oldest first and feed logs newest first, and the logs of one date are in increasing store-key order. The stores are unchanged |
| Store.BandsInKeyOrder | js/components/cage-detail.js:17-22 | sorting records loaded in key order by descending date leaves the records of each date in increasing key order |
| Analytics.FilteredLogs | js/components/analytics.js:565-581 | an order-preserving subsequence holding exactly the logs of the cage filter inside the date cutoff; with both filters 'all' it is the logs themselves |
| Analytics.FilteredFeedLogs | js/components/analytics.js:583-599 | the same for feed logs |
| Analytics.Dashboard.GetFilteredLogs | js/components/analytics.js:565-581 | the two successive filters give FilteredLogs; the view's logs are not changed |
| Analytics.Dashboard.GetFilteredFeedLogs | js/components/analytics.js:583-599 | the two successive filters give FilteredFeedLogs |
| Analytics.Cutoff | js/components/analytics.js:569-572 | the cutoff exists exactly when the range is a number of days, and lies that many days before now |
| Analytics.LoadKpis | js/components/analytics.js:279-303 | total production is the egg sum, the laying rate and feed efficiency come from the calculations, and the average weight is AvgEggWeight |
| Analytics.LayingRate | js/components/analytics.js:288-290 | 0 without birds; otherwise the laying percentage over at least one day |
| Analytics.AvgEggWeight | js/components/analytics.js:299-301 | 0 when no log has a positive weight; otherwise the mean of the weights of those logs |
| Analytics.AvgEggWeightWithin | js/components/analytics.js:299-301 | the average weight lies between any bounds of the weights it averages |
| Analytics.FeedAmountFor | js/components/analytics.js:408-411 | the feed of the first feed log with the same date and cage, else 0 |
| Analytics.EfficiencyPoints | js/components/analytics.js:405-437 | one point per log of the last thirty, each paired with its feed amount |
| Analytics.CageStatOf | js/components/analytics.js:445-461 | a cage's eggs come from its own logs and its score is 0.6 laying rate plus 4 feed efficiency |
| Analytics.PerformanceTableRows | js/components/analytics.js:439-463 | a permutation of the cage statistics has one row per cage and no other |
| Analytics.Dashboard.LoadPerformanceTable | js/components/analytics.js:439-463 | the table is a permutation of the cage statistics sorted by non-increasing score |
| Analytics.PerformanceInsight | js/components/analytics.js:508-522 | Excellent exactly when the rate is above 85, Below Average exactly when it is below 60, never both |
| Analytics.FeedInsight | js/components/analytics.js:525-535 | the feed alert exactly when efficiency is below 0.5 |
| Analytics.TrendInsight | js/components/analytics.js:538-560 | nothing with fewer than 8 logs; otherwise increasing exactly when the recent mean exceeds 1.1 times the previous one, else declining exactly when it is below 0.9 times |
| Analytics.PreviousWeek | js/components/analytics.js:539 | the up to seven logs before the last seven; empty with seven logs or fewer |
| Analytics.Insights | js/components/analytics.js:498-562 | at most 3 insights, so the cap of 4 drops nothing |
| Analytics.InsightsInRuleOrder | js/components/analytics.js:498-562 | the insights come in performance, feed, trend order |
| Analytics.InsightsPresent | js/components/analytics.js:508-560 | each insight appears exactly when its rule's condition holds |
| Analytics.NoBirdsBelowAverage | js/components/analytics.js:508-522 | with no birds or no logs the rate is 0 and Below Average is produced, so the insights are never empty on empty data |
| Analytics.Dashboard.GenerateInsights | js/components/analytics.js:498-562 | the pushes build exactly Insights |
| Analytics.Dashboard.UpdateDateRange | js/components/analytics.js:601-604 | sets the date range and changes nothing else |
| Analytics.Dashboard.UpdateCageFilter | js/components/analytics.js:606-609 | sets the cage filter and changes nothing else |
| Router.Lookup | js/router.js:116-128 | a key's value, none exactly when the key is absent |
| Router.Assign | js/router.js:123 | a new key is appended; an existing key keeps its place |
| Router.AssignLookup | js/router.js:123 | after assignment the key has the new value and every other key its old one |
| Router.BuildParamString | js/router.js:109-114 | `''` for no parameters; otherwise `key=value` pairs joined by `&` in entry order |
| Router.BuildUrl | js/router.js:100-107 | `#route`, with `?` and the parameter string only when that string is not empty |
| Router.ParseParams | js/router.js:116-128 | the loop over the pairs builds ParamsOf, which keeps each key once |
| Router.ParamsOf | js/router.js:116-118 | no parameters for a missing or empty string |
| Router.EmptyPairSkipped | js/router.js:121-122 | a pair with an empty key or value changes nothing |
| Router.LaterPairWins | js/router.js:120-124 | a later pair with the same key overwrites the earlier value |
| Router.ParamStringRoundTrip | js/router.js:109-128 | parsing the built string gives back the parameters when keys are distinct, keys and values are not empty, decode inverts encode, and encoded text has no `&`, `=` or `?` |
| Router.Resolve | js/router.js:65-82 | the route is always a configured one; the request when it is configured and has its required parameter; `cycles` with no parameters otherwise |
| Router.ResolveIdempotent | js/router.js:65-82 | resolving a resolved route changes nothing, so the fallback recursion stops after one step |
| Router.InitialRoute | js/router.js:54-63 | an empty hash loads `cycles`; otherwise the hash splits at `?` into route and parameters |
| Router.BuiltUrlRoundTrip | js/router.js:54-128 | for a route without `?`, loading a built URL resolves to the same route and parameters as navigating to them |
| Router.Navigator.Navigate | js/router.js:65-98 | the current route and parameters become Resolve of the request (the corrected lookup of the Findings row, not the as-written one), and the built URL is pushed only when history is updated |
| Router.Navigator.LoadInitialRoute | js/router.js:54-63 | navigates to InitialRoute of the hash without touching history, through Navigate and so through the corrected lookup Resolve of the Findings row |
| Router.Navigator.HandlePopState | js/router.js:130-136 | a state navigates to its route and parameters (the current route and parameters are those of Resolve); no state reloads the initial route (those of InitialRoute); history is untouched; both go through Navigate and so through the corrected lookup Resolve of the Findings row |
| Router.ResolveAsWritten | js/router.js:66-72 | the lookup as written: an inherited object member name passes the not-found check |
| Router.InheritedNameSkipsFallback | js/router.js:66-72 | the route `toString` with no parameters becomes the current route as written, while Resolve falls back to `cycles` |
| Vaccination.ScheduleTable | js/components/vaccination-manager.js:274-284 | nine entries, days strictly increasing, and each entry's weeks are its day div 7 |
| Vaccination.AnyCovers | js/components/vaccination-manager.js:286-290 | holds exactly when some record's lower-cased name contains the lower-cased vaccine (ASCII letters only, see Left out) and its age is within 3 days of the entry's day |
| Vaccination.Schedule | js/components/vaccination-manager.js:273-293 | the nine table entries in table order, each completed exactly when a record covers it |
| Vaccination.ScheduleOrderFree | js/components/vaccination-manager.js:286-290 | the schedule does not depend on the order of the records |
| Vaccination.ScheduleGrows | js/components/vaccination-manager.js:286-290 | one more record only turns entries it covers to completed |
| Vaccination.NothingRecordedNothingDone | js/components/vaccination-manager.js:286-290 | with no records nothing is completed |
| Vaccination.MethodBadgeClass | js/components/vaccination-manager.js:261-271 | the class of the six known methods, `bg-secondary` for any other |
| Vaccination.MethodBadgeClasses | js/components/vaccination-manager.js:261-271 | the class is one of six, and it is `bg-secondary` exactly for an unknown method or in_ovo |
| Vaccination.FormRecord | js/components/vaccination-manager.js:298-313 | the stored record has the cycle, the form's fields, the parsed age and bird count, and the creation time |
| Vaccination.CycleRecords | js/components/vaccination-manager.js:9 | exactly the stored records of the cycle |
| Vaccination.VaccinationManager.Init | js/components/vaccination-manager.js:7-12 | the stored cycle (or none) and, as a permutation, exactly the stored records of the cycle, sorted by descending date, those of one date in increasing key order (so the list is fully determined); a key that is not a number changes nothing |
| Vaccination.VaccinationManager.HandleVaccinationSubmit | js/components/vaccination-manager.js:295-328 | the record is added to the store; an add that fails leaves the view as it was; once stored, the view is reloaded as Init leaves it: the cycle re-read, exactly the cycle's stored records (the new one among them), newest first |
| Vaccination.VaccinationManager.DeleteVaccination | js/components/vaccination-manager.js:330-345 | the record leaves the store and the view; the view is reloaded as Init leaves it: the cycle re-read, exactly the cycle's remaining stored records, newest first |
| Sales.Amount | js/components/sales-manager.js:243-245 | crates times price, missing exactly when either is not a number |
| Sales.FormSale | js/components/sales-manager.js:240-257 | the stored sale has amount crates times price, and none of totalAmount, cratesQuantity or totalEggs |
| Sales.CalculateTotal | js/components/sales-manager.js:290-295 | 0 when crates or price is not a number; their product otherwise |
| Sales.TotalIsStoredAmount | js/components/sales-manager.js:243-295 | the running total equals the stored amount when both fields are numbers; otherwise it is 0 |
| Sales.SalesSummary | js/components/sales-manager.js:120-124 | the totals sum totalAmount, cratesQuantity and totalEggs with a missing field as 0; the price per crate times the crates is the total when crates are positive, else it is 0 |
| Sales.FormSaleAddsNothing | js/components/sales-manager.js:121-257 | a sale made by the form leaves the summary unchanged |
| Sales.SummaryOrderFree | js/components/sales-manager.js:120-124 | the summary does not depend on the order of the records |
| Sales.PaymentBadgeClass | js/components/sales-manager.js:230-238 | the class of cash, bank, check or credit, `bg-secondary` for any other |
| Sales.PaymentBadgeClasses | js/components/sales-manager.js:230-238 | the four known methods have four different classes, none the default |
| Sales.CycleSales | js/components/sales-manager.js:9 | exactly the stored sales of the cycle |
| Sales.SalesManager.Init | js/components/sales-manager.js:7-12 | the stored cycle (or none) and, as a permutation, exactly the stored sales of the cycle, sorted by descending date, those of one date in increasing key order (so the list is fully determined); a key that is not a number changes nothing |
| Sales.SalesManager.HandleSalesSubmit | js/components/sales-manager.js:240-273 | the sale is added to the store; an add that fails leaves the view as it was; once stored, the view is reloaded as Init leaves it: the cycle re-read, exactly the cycle's stored sales (the new one among them), newest first |
| Sales.SalesManager.DeleteSale | js/components/sales-manager.js:275-288 | the sale leaves the store and the view; the view is reloaded as Init leaves it: the cycle re-read, exactly the cycle's remaining stored sales, newest first |
| Store.TableState.Add | js/db.js:104-114 | a fresh positive key is assigned and the record stored under it; a full table fails with the quota error |
| Store.TableState.Put | js/db.js:115-125 | the record replaces or is stored under its key; a new key needs room |
| Store.TableState.Delete | js/db.js:126-136 | the key is removed and nothing else changes |
| Store.TableState.Get | js/db.js:137-147 | the record under the key, none exactly when it is absent |
| Store.TableState.Where | js/db.js:148-169 | exactly the records that match, in key order |
| Store.Table.Add | js/db.js:104-114 | the stored table changes as TableState.Add says |
| Store.Table.Put | js/db.js:115-125 | the stored table changes as TableState.Put says |
| Store.Table.Delete | js/db.js:126-136 | the stored table changes as TableState.Delete says |
| Numbers.ParseIntOfNatToString | js/utils/csv-handler.js:260-265 | parseInt reads back the decimal digits of any natural number, followed by nothing or by a character that is neither a digit nor `x` |
| Numbers.ParseFloatOfNatToString | js/utils/csv-handler.js:266 | parseFloat reads back the decimal digits of any natural number |
| Sorting.SortedCopy | js/components/analytics.js:463 | the result is sorted by the key, is a permutation of the input, and is stable: the elements of each key (its Band) keep their order, as `Array.prototype.sort` guarantees |

## Left out

- Rendering is not part of this model: HTML templating, the DOM, modals, toasts, spinners, event listeners, `updateActiveNav`, `document.title` and the component loading of `loadComponent`.
- Chart hand-off is left out, including `groupDataByPeriod` and `calculateMovingAverage`.
- Analytics initial loading is left out (`init`/`loadAnalytics` fetching the store).
- Asynchronous behaviour is not modelled: every operation runs to completion in sequence.
- `Calculations` is not part of this model: the laying percentage and feed efficiency are function parameters, so their NaN or Infinity results are not modelled.
- Floating point is not modelled: every number is an exact real or integer, and `toFixed`/`toLocaleString` display formatting is left out.
- `new Date(x).getTime()` is the parameter `timeOf`. The analytics cutoff `setDate(getDate() - days)` is modelled as days times the length of a day, with no daylight-saving or calendar arithmetic.
- A date that does not parse sorts as time 0. The sort comparators in the source would give `NaN`, which has no order.
- `encodeURIComponent`/`decodeURIComponent` are a codec parameter. Only its inverse property and the absence of `&`, `=` and `?` in encoded text are assumed where a lemma needs them.
- Router.Navigator.LoadInitialRoute, Router.Navigator.HandlePopState and Router.Navigator.Navigate always land on a route, because the codec's `decode` and `encode` are total. In the source, `decodeURIComponent` throws a URIError on a malformed escape (a hash such as `#cage-detail?id=%E0%A4%A`, or a pair `a=%`) inside `parseParams`. That error escapes `loadInitialRoute` and `handlePopState`, and from the constructor it makes `new Router()` throw with no route set. `encodeURIComponent` likewise throws on a lone surrogate in `buildUrl`. This error path is not modelled.
- Parameter objects are association lists in insertion order. JavaScript's ordering of integer-like keys first and assignment to `__proto__` are not modelled. Values are strings, so a numeric parameter such as 0 is not modelled.
- An Object.prototype name used as an import lookup key or as a badge method name is treated as absent. In the source it would find an inherited member.
- The store of `js/db.js` is a map with positive keys. `add` fails only when a table's quota is reached, which stands for IndexedDB's quota error; other IndexedDB failures are not modelled.
- Store.TableState.Put requires a positive key; the source never puts under another key.
- CsvExport.ProductionExportRow, CsvExport.SaleExportRow, CsvExport.ExpenseExportRow and CsvExport.FeedExportRow state that every header is a key of the row, and the converse is not stated.
- Sales.CalculateTotal takes the two fields already parsed by `parseFloat`; reading them from the form is not modelled.
- Vaccination.VaccinationManager.HandleVaccinationSubmit, Sales.SalesManager.HandleSalesSubmit and the two delete methods require a loaded cycle. The source reads `this.cycle.id` and throws a TypeError without one.
- `confirm` dialogs are left out: deletion is modelled as confirmed.
- JSON export and import of the whole database, `FileReader`, `Blob` downloads and `localStorage` settings are I/O and are left out.
- Numbers.ParseIntOfNatToString and Numbers.ParseFloatOfNatToString cover decimal digits; `parseFloat` is not rounded to a double.
- Vaccination.AnyCovers lower-cases ASCII letters only (Strings.ToLower). JavaScript's `toLowerCase` maps all of Unicode, for example KELVIN SIGN to `k` and `İ` to `i` followed by a combining dot, so names that differ outside ASCII may match in the source and not in the model.

Facts about the code that a reader might not expect, all modelled as the code has them:

- the code does not clamp closing birds at 0;
- the code produces insights even on empty data;
- the CSV parser keeps a doubled quote doubled;
- the import looks cages up across all cycles, not within the row's cycle;
- the opening-birds default is today's log or the cage's current birds, not the previous day's closing birds;
- sales created by the form add nothing to the summary, which reads other fields.

## Findings

| source | as written | input that shows it | evidently intended | confidence | as-written member | corrected member |
|---|---|---|---|---|---|---|
| js/router.js:66-72 | `this.routes[route]` also finds members inherited from Object.prototype, so the not-found fallback is skipped | `navigate('toString', {})` sets the current route to `toString`, which is not a configured route | every unknown route falls back to `cycles` | not executed | Router.InheritedNameSkipsFallback | Router.Resolve |
