# Ad-insights dashboard: a verified model of its metric pipeline

This project models the part of the dashboard that does real computation. Everything else is rendering, routing or database plumbing.

On the client (`client/src/Dashboard.jsx`), the model covers:
- the normaliser that turns a loosely typed ad-platform insights record into a canonical metric row (`findAction`, `parseRow`);
- the per-vertical metric and sort tables (`getMetrics`, `getTop5Sorts`);
- the totals aggregator (`computeTotals`);
- the previous-period comparison (the equal-length previous date range, and the KPI percent delta with "lower is better" for cost metrics);
- the top-5 ad ranking (`sortedAds`);
- the CSV text (`exportCSV`);
- the annotation list the panel keeps (upsert-by-date, delete-by-id);
- the sort state of the breakdown tables (`BreakdownTable`, `toggleSort`).

On the server (`server/index.js`), the model covers:
- the cursor-pagination drain of the ad platform's API (`fetchAllPages`);
- the insights field lists (`getFields` and the per-level lists of the four insights routes);
- the `act_` prefixing of account ids;
- the default conversion event and the create and PATCH rules of the dashboards admin API;
- the access decisions (`checkDashboardAccess` and the manager check guarding grant/revoke).

Modules:

| module | file | what it holds |
|---|---|---|
| `Wrappers` | wrappers.dfy | `Option`, `Result` |
| `JsValues` | js_values.dfy | JavaScript truthiness and the `x \|\| 0` / `parseInt` defaults |
| `Text` | text.dfy | `Join`/`Split` on a separator and their round trip; code-unit string order |
| `Sequences` | sequences.dfy | filtering; a stable insertion sort over any total preorder, proved sorted, a permutation and stable |
| `Metrics` | metrics.dfy | `getMetrics`, `getTop5Sorts` |
| `Actions` | actions.dfy | `findAction` |
| `Rows` | rows.dfy | the raw record, the canonical row, `parseRow` |
| `Totals` | totals.dfy | `computeTotals` as a loop, proved against a specification function |
| `Period` | period.dfy | the previous range, percent delta, `isGood` |
| `Ranking` | ranking.dfy | `sortedAds`; the `BreakdownTable` sort state as a class |
| `Csv` | csv.dfy | the CSV text and its split-back property |
| `Annotations` | annotations.dfy | annotation upsert/delete; the panel as a class |
| `Pagination` | pagination.dfy | `fetchAllPages` as a loop over an abstract upstream |
| `ServerRules` | server_rules.dfy | field lists, `act_` prefix, create/PATCH rules, access rules |

Modelling conventions:
- **Numbers.** Money, counts and rates are `real`. A numeric field that is missing or that `parseFloat` cannot read is `None`, and `parseFloat(x) || 0` becomes "the value, or 0". `parseInt` is modelled as truncation toward zero of the parsed value. The JavaScript falsiness of `NaN` and `0` is what makes "missing" and "0" coincide.
- **Dates.** Dates in rows and annotations stay ISO text, because the CSV writes them and the annotation list sorts them with `localeCompare`. The previous-period arithmetic works on integer day ordinals (`Period.DayOrdinal` gives proleptic Gregorian ordinals).
- **External calls.** The ad platform's API is a function from a page URL to a response. Database inserts are a function from the new row to a result. The access table is a sequence of rows. The annotation server call is a function from (date, note) to a result.

Four behaviours of the code that are easy to misread:
- **`findAction`.** It returns the first entry of the action collection, in collection order, whose type is in the alias list. The order of the alias list is not a priority. `Rows.FirstEntryWinsExample` shows two collections holding the same entries in different orders giving different conversion counts.
- **Totals `conversionCost`.** In the totals it is recomputed as total spend over total conversions. The rows' own conversion costs are not used (`Totals.ThreeDayExample`).
- **Totals `cpc`.** The numerator sums the `cpc` of every row. The denominator counts only rows with `cpc > 0`. The result is the mean over positive-`cpc` rows whenever no row has a negative `cpc` (`Totals.RatesAreMeans`).
- **An empty dashboard type.** The server's default `type = "app"` applies only when the field is absent. A create request with an empty type therefore stores the empty type with the event "purchase". The client reads an empty type as "app", and counts only install actions for an app dashboard, so such a dashboard counts no conversions from its default event (`ServerRules.DefaultEventIsCounted`).

## Model

| member | source | states |
|---|---|---|
| Actions.FirstMatch | client/src/Dashboard.jsx:14 | the index found is the first entry whose type is in the alias list; none is found only when no entry's type is in the list |
| Actions.FindAction | client/src/Dashboard.jsx:14 | an absent collection or a collection with no entry of a listed type gives nothing; otherwise the result is the first entry (in collection order) whose type is listed |
| Actions.FirstMatchUnique | client/src/Dashboard.jsx:14 | the first matching position is unique |
| Actions.FindActionAt | client/src/Dashboard.jsx:14 | if position i is the first match, findAction returns exactly that entry, whatever its value |
| Actions.FindActionAppend | client/src/Dashboard.jsx:14 | searching a concatenation finds the first part's match if it has one, and otherwise the second part's |
| Metrics.VerticalOf | client/src/Dashboard.jsx:27-30 | the dashboard type selects the app, lead or ecom table exactly when it is that string; every other type gets the shared table only |
| Metrics.ClientType | client/src/Dashboard.jsx:242 | the type the client loads a dashboard as is never empty, and is the stored type whenever that is non-empty |
| Metrics.GetMetrics | client/src/Dashboard.jsx:16-31 | every vertical's metric list ends with the six shared metrics spend, impressions, reach, CPM, CPC, CTR |
| Metrics.KeysPerVertical | client/src/Dashboard.jsx:16-31 | the metric keys of each vertical are exactly the key list of that vertical's table |
| Metrics.KeyListUnique | client/src/Dashboard.jsx:16-31 | no vertical's key list repeats a key |
| Metrics.MetricsDistinct | client/src/Dashboard.jsx:16-31 | no metric list repeats a key |
| Metrics.ConversionsLead | client/src/Dashboard.jsx:27-29 | for app, lead and ecom the list starts with conversions then conversion cost |
| Metrics.KeyListMembers | client/src/Dashboard.jsx:27-29 | revenue and ROAS appear exactly for ecom, link clicks exactly for lead |
| Metrics.VerticalOnlyMetrics | client/src/Dashboard.jsx:27-29 | the same, stated on the metric lists returned for any conversion event |
| Metrics.LeadingKeysMatch | client/src/Dashboard.jsx:27-29 | the leading (vertical-specific) metrics carry the vertical's leading keys, whatever the conversion event |
| Metrics.GetTop5Sorts | client/src/Dashboard.jsx:33-39 | every sort list ends with "Highest Spend" (spend descending), and the only ascending option is on conversion cost |
| Metrics.Top5SortsRankShownMetrics | client/src/Dashboard.jsx:16-39 | every offered sort ranks by a metric that the same dashboard displays |
| Metrics.DefaultSortKey | client/src/Dashboard.jsx:249 | the default ranking is ascending exactly when the dashboard is not ecom |
| Metrics.DefaultSortIsFirstOffered | client/src/Dashboard.jsx:33-39 | for app, lead and ecom the default ranking is the first option offered |
| Metrics.LabelsArePlain | client/src/Dashboard.jsx:16-31 | no metric label contains a comma or a newline |
| Rows.ParseRow | client/src/Dashboard.jsx:41-71 | spend is the parsed spend or 0; ROAS is revenue/spend when spend is positive and 0 otherwise; revenue and ROAS are non-zero only for ecom with action values present |
| Rows.ConversionsFromFirstMatch | client/src/Dashboard.jsx:43 | conversions is the integer value of the first action entry of a conversion type (or 0 if it does not parse) |
| Rows.NoMatchingActionMeansZero | client/src/Dashboard.jsx:63 | no actions, or no entry of a conversion type, gives 0 conversions |
| Rows.ConversionCostVerbatim | client/src/Dashboard.jsx:44 | conversion cost is the first matching cost-per-action value taken verbatim, and depends on nothing else in the record (never spend/conversions) |
| Rows.RevenueOnlyForEcom | client/src/Dashboard.jsx:49-54 | outside ecom, or without action values, revenue and ROAS are 0; for ecom with action values revenue is the first purchase value |
| Rows.EmptyRecordIsZero | client/src/Dashboard.jsx:48-69 | a record with every field missing gives a row whose metrics are all 0 |
| Rows.FirstEntryWinsExample | client/src/Dashboard.jsx:14 | with install entries [mobile 5, app 9] the row counts 5; in the reverse order it counts 9 |
| Totals.ComputeTotals | client/src/Dashboard.jsx:73-88 | the loop's totals equal the specification function `TotalsOf` on the same rows |
| Totals.TotalsMeaning | client/src/Dashboard.jsx:74-86 | the eight summed fields are the sums over the rows; cpm, conversionCost and ROAS are the ratios of sums (×1000 for cpm), each 0 when its denominator is not positive |
| Totals.EmptyTotalsAreZero | client/src/Dashboard.jsx:73-88 | no rows gives 0 in every field, the derived ones included |
| Totals.TotalsAppend | client/src/Dashboard.jsx:74-81 | each summed field of the totals of a concatenation is the sum of the parts' totals |
| Totals.SumAppend | client/src/Dashboard.jsx:74-81 | a column sum splits over a concatenation |
| Totals.CountAppend | client/src/Dashboard.jsx:80 | the count of positive-cpc rows splits over a concatenation |
| Totals.SumPermutation | client/src/Dashboard.jsx:74-81 | a column sum does not depend on row order |
| Totals.CountPermutation | client/src/Dashboard.jsx:80 | the positive-cpc count does not depend on row order |
| Totals.TotalsPermutation | client/src/Dashboard.jsx:73-88 | totals do not depend on row order |
| Totals.TotalsCpc | client/src/Dashboard.jsx:79-83 | total cpc is the sum of all rows' cpc divided by the number of rows with positive cpc, 0 when there are none |
| Totals.PositiveCpcRowsMembers | client/src/Dashboard.jsx:80 | the rows counted for cpc are exactly the rows with positive cpc |
| Totals.PositiveCpcSum | client/src/Dashboard.jsx:79-80 | when no cpc is negative, summing all rows' cpc equals summing the positive ones, and their number is the count kept |
| Totals.RatesAreMeans | client/src/Dashboard.jsx:79-84 | total ctr is the mean ctr over all rows; total cpc is the mean cpc over the positive-cpc rows (when no cpc is negative) |
| Totals.ThreeDayExample | client/src/Dashboard.jsx:73-88 | three app days with spend 10/20/30 and 1/2/3 installs total spend 60, 6 installs and CPI 10, whatever the rows' own CPI |
| Period.PreviousRange | client/src/Dashboard.jsx:222-225 | the previous range ends the day before the current start and has the same number of days |
| Period.NextRange | client/src/Dashboard.jsx:222-225 | the inverse step starts the day after and keeps the length |
| Period.PreviousNextRoundTrip | client/src/Dashboard.jsx:222-225 | stepping back then forward (and forward then back) gives the same range |
| Period.PreviousRangeAdjoins | client/src/Dashboard.jsx:222-225 | for a non-empty range the previous range is non-empty, does not overlap it, and the two together cover a contiguous span |
| Period.PreviousRangeExamples | client/src/Dashboard.jsx:222-225 | 2024-01-08..14 compares with 2024-01-01..07; 2024-03-01..07 compares with 2024-02-23..29 (leap year) |
| Period.PercentDelta | client/src/Dashboard.jsx:499 | a delta exists exactly when comparison is on and the previous value is positive, and then delta × previous = (current − previous) × 100 |
| Period.IsGood | client/src/Dashboard.jsx:500-501 | a verdict exists exactly when a delta exists |
| Period.KpiFor | client/src/Dashboard.jsx:497-501 | the card's current value is the totals field; without previous totals the previous value is 0 and there is no delta |
| Period.GoodMeansImproved | client/src/Dashboard.jsx:497-501 | "good" holds exactly when a cost metric (conversion cost, CPM, CPC) went down or any other metric went up, and "bad" exactly when it did not |
| Period.NoDeltaFromZero | client/src/Dashboard.jsx:498-501 | a previous value of 0 gives neither delta nor verdict |
| Ranking.AscRank | client/src/Dashboard.jsx:294 | in ascending ranking a value ranks as infinite exactly when it is 0 |
| Ranking.PrecedesIsTotalPreorder | client/src/Dashboard.jsx:292-295 | the ranking comparator is a total preorder, so the stable sort is well defined |
| Ranking.SortedAds | client/src/Dashboard.jsx:292-296 | no ads gives an empty list; otherwise the list has min(5, number of spending ads) entries, drawn without repetition from the spending ads, and is the leading part of the stable ranking of the spending ads, so ties at the cut keep the earliest in input order |
| Ranking.TopFiveDrawnFromSpending | client/src/Dashboard.jsx:292-296 | all spending ads are shown when fewer than five spend, and five otherwise; no ad is shown more than once, and each shown ad is an input ad with spend > 0 |
| Ranking.TopFiveAreTheBest | client/src/Dashboard.jsx:292-296 | the result is ordered, and every spending ad left out ranks at or after each shown one |
| Ranking.AscendingSinksZeros | client/src/Dashboard.jsx:294 | in ascending order the values are non-decreasing with 0 read as infinity, so a 0 never precedes a positive value |
| Ranking.DescendingNonIncreasing | client/src/Dashboard.jsx:295 | in descending order the values are non-increasing |
| Ranking.RankingIsStable | client/src/Dashboard.jsx:292-295 | ads that tie keep their input order |
| Ranking.LowestCostExample | client/src/Dashboard.jsx:292-296 | ranking by lowest cost puts a paid ad before a zero-cost one and drops an ad with no spend |
| Ranking.SpendingExample | client/src/Dashboard.jsx:292 | the spend filter keeps the spending ads in order |
| Ranking.TableOrderIsTotalPreorder | client/src/Dashboard.jsx:671 | the breakdown table's comparator is a total preorder |
| Ranking.Toggled | client/src/Dashboard.jsx:672-675 | clicking a column sorts by it; a new column starts descending, the current column flips direction |
| Ranking.ToggleTwice | client/src/Dashboard.jsx:672-675 | two clicks on the current column restore the state; two clicks on another column give it ascending |
| Ranking.BreakdownTable.constructor | client/src/Dashboard.jsx:669-670 | a new table sorts by spend, descending |
| Ranking.BreakdownTable.ToggleSort | client/src/Dashboard.jsx:672-675 | the new sort state is the toggled old state; the rows do not change |
| Ranking.BreakdownTable.SortedRows | client/src/Dashboard.jsx:671 | the displayed rows are a permutation of the table's rows |
| Ranking.BreakdownTable.SortedRowsOrdered | client/src/Dashboard.jsx:671 | the displayed rows are ordered by the current column and direction |
| Csv.HeaderPlain | client/src/Dashboard.jsx:104 | plain labels give header cells with no comma or newline |
| Csv.RowPlain | client/src/Dashboard.jsx:105-108 | plain dates and plain number text give data cells with no comma or newline |
| Csv.SplitLines | client/src/Dashboard.jsx:109 | when no cell holds a comma or newline, splitting the text at newlines gives back the lines |
| Csv.CsvRoundTrip | client/src/Dashboard.jsx:103-109 | when no cell holds a comma or newline, the text splits back into rows + 1 lines, and each line back into its cells |
| Csv.DashboardExportRoundTrip | client/src/Dashboard.jsx:103-109 | for any dashboard's metric list, plain dates and plain number text are all the round trip needs |
| Annotations.TrimStart | client/src/Dashboard.jsx:266 | the result is a suffix of the input that does not start with whitespace |
| Annotations.TrimEnd | client/src/Dashboard.jsx:266 | the result is a prefix of the input that does not end with whitespace |
| Annotations.TrimmedNote | client/src/Dashboard.jsx:266 | the trimmed note is empty exactly when the note is all whitespace; otherwise it neither starts nor ends with whitespace |
| Annotations.DateLeIsTotalPreorder | client/src/Dashboard.jsx:276 | ordering annotations by date is a total preorder |
| Annotations.RemoveDay | client/src/Dashboard.jsx:275 | the annotations kept are exactly those on other days |
| Annotations.UpsertByDate | client/src/Dashboard.jsx:274-277 | the new list holds the other days' annotations plus the saved one, nothing else |
| Annotations.UpsertByDateDays | client/src/Dashboard.jsx:274-277 | the new list is sorted by date, the saved day holds only the saved annotation, and every other day's annotations are unchanged and in their order |
| Annotations.UpsertKeepsOnePerDay | client/src/Dashboard.jsx:274-277 | if every day had at most one annotation, it still does |
| Annotations.RemoveId | client/src/Dashboard.jsx:285 | the annotations kept are exactly those with another id |
| Annotations.RemoveIdKeepsOrder | client/src/Dashboard.jsx:285 | deleting keeps a date-sorted list sorted |
| Annotations.AnnotationPanel.constructor | client/src/Dashboard.jsx:180-183 | a new panel has no annotations and an empty form |
| Annotations.AnnotationPanel.Save | client/src/Dashboard.jsx:265-282 | with no date or a blank note nothing changes; on a server error nothing changes; on success the list is upserted by the form's date and the form is cleared |
| Annotations.AnnotationPanel.Delete | client/src/Dashboard.jsx:283-286 | the list loses the annotations with that id and the form is untouched |
| Pagination.FetchAllPages | server/index.js:212-222 | the loop returns what the specification `Drain` gives and requests exactly the URLs `Requests` lists |
| Pagination.DrainStep | server/index.js:214-220 | one step: a failure or an error page ends with its message; otherwise the page's data is put in front of the rest of the drain |
| Pagination.PrefixedTwice | server/index.js:218 | prepending two batches is prepending their concatenation; an error swallows every batch |
| Pagination.DrainFuelIndependent | server/index.js:214 | once the drain finishes, more fuel changes neither the result nor the requests |
| Pagination.DrainSuccess | server/index.js:213-221 | a successful drain returns the pages' data concatenated in page order (missing data counts as empty), requests the start URL and then each page's next link, and stops at the first page with no next link |
| Pagination.DrainFailure | server/index.js:216-217 | a failed drain fails with the last requested page's error message, every earlier page was fine, and none of the accumulated data is returned |
| Pagination.TwoPageExamples | server/index.js:212-222 | pages [1,2] then [3] give [1,2,3]; an error on the second page gives its message |
| ServerRules.ActionValuesIffEcom | server/index.js:232-286 | every insights field list asks for action values exactly when the dashboard type is "ecom" |
| ServerRules.NotActionValues | server/index.js:232-286 | the base field lists do not already ask for action values |
| ServerRules.FieldsSplitBack | server/index.js:232-286 | the comma-joined field list splits back into the fields |
| ServerRules.MetricsRequested | server/index.js:232-286 | every level requests spend, impressions, reach, cpm, the click fields, actions and cost per action |
| ServerRules.InsightFieldsRules | server/index.js:244-286 | for every level at once: action values exactly for ecom, the joined list splits back, and every metric field is requested |
| ServerRules.NormalizeActId | server/index.js:95 | the result starts with "act_"; an id that already does is unchanged; any other id gets "act_" in front |
| ServerRules.NormalizeIdempotent | server/index.js:111 | normalising twice is normalising once |
| ServerRules.DefaultEventIsCounted | server/index.js:93-98 | a dashboard created without a conversion event and with a non-empty type gets a default (app_install for app, lead for lead, purchase otherwise) that the client counts as a conversion for the type it reads; with an empty type the default is purchase, which the client, reading the type as app, does not count |
| ServerRules.NewDashboardRow | server/index.js:93-98 | a missing or empty name or act id gives 400 "Name and act_id required"; otherwise the row has the prefixed act id, the type (default "app" only when absent) and the supplied conversion event, or the default when it is empty |
| ServerRules.CreateDashboard | server/index.js:92-105 | validation errors pass through; a successful insert returns the stored row; a failed insert gives 400 "Act ID already exists" for code 23505 and 500 with the database message for any other code |
| ServerRules.BuildUpdates | server/index.js:107-113 | the update sets exactly the truthy ones of name, act_id, type and conversion_event, with act_id prefixed, and nothing else; it is the update `UpdatesOf` describes |
| ServerRules.UpdatesKeepPrefix | server/index.js:107-114 | applying the update a PATCH body builds changes exactly the columns whose field is truthy, to that value (act_id normalised); a stored act id stays prefixed; a body with no truthy field leaves the row unchanged |
| ServerRules.CountRowsUnique | server/index.js:224-230 | with one access row per (dashboard, user), a single-row query matches at most one row, and matches one exactly when such a row exists |
| ServerRules.CountRowsSub | server/index.js:132 | adding the manager filter never matches more rows |
| ServerRules.AccessRules | server/index.js:224-230 | admins always pass; any other user passes the access check exactly when an access row exists and may grant/revoke exactly when that row has role "manager"; a manager always has access |
| ServerRules.DuplicateRowsDenyAccess | server/index.js:226-228 | two rows for the same (dashboard, user) make the single-row lookup fail and deny access |
| ServerRules.GrantAccess | server/index.js:126-143 | it fails exactly when the actor is neither admin nor manager of the dashboard, with 403 "No permission"; otherwise the new table is the access row upserted with the given role, "viewer" when absent |
| ServerRules.RevokeAccess | server/index.js:145-154 | it fails exactly when the actor is neither admin nor manager of the dashboard, with 403 "No permission"; otherwise the new table is the old one without the user's row for the dashboard |
| ServerRules.UpsertGrants | server/index.js:136-137 | an upsert keeps one row per (dashboard, user) and leaves exactly one row for the user, with the given role |
| ServerRules.UpsertKeys | server/index.js:136-137 | an upsert only adds the upserted (dashboard, user) pair |
| ServerRules.UpsertKeepsOthers | server/index.js:136-137 | an upsert keeps every row of another dashboard or user |
| ServerRules.RemoveRevokes | server/index.js:151 | after the delete no access row remains for that user on that dashboard |
| ServerRules.RemoveKeepsOthers | server/index.js:151 | after the delete the table holds exactly the rows of other dashboards or users |
| Sequences.Sort | client/src/Dashboard.jsx:671 | sorting is a permutation of its input |
| Sequences.SortSorted | client/src/Dashboard.jsx:671 | under a total preorder the result is sorted |
| Sequences.SortIsStable | client/src/Dashboard.jsx:671 | tied elements keep their input order, as the stable `Array.prototype.sort` does |
| Sequences.Keep | client/src/Dashboard.jsx:292 | filtering keeps exactly the elements that pass, and no others |
| Text.SplitJoin | client/src/Dashboard.jsx:109 | joining fields that do not contain the separator and splitting again gives the fields back |

## Left out

- Rendering, charts, inline styles, `localStorage` and routing are not modelled. The same goes for the label formatters (`fmtCurrency`, `fmtNumber`, `fmtPercent`, `toFixed`, `toLocaleString`): the CSV number text is a parameter `show`, so any formatting can be plugged in.
- The row's `label` field (`toLocaleDateString`) is not modelled, because it is locale-dependent date formatting.
- JavaScript `Date` arithmetic is replaced by integer day ordinals, so time zones and daylight-saving shifts are not modelled. `Math.round` of a millisecond difference equals the ordinal difference whenever no such shift is involved.
- `parseFloat`/`parseInt` on text are not modelled. A numeric field is already "a number or missing", and IEEE rounding does not arise because arithmetic is on reals. `NaN` (for example `Infinity - Infinity` in the ascending comparator) is read as the tie it produces in `sort`.
- `localeCompare` on ISO dates is modelled as code-unit order. For `YYYY-MM-DD` text this gives the same order.
- `exportPDF`, and the Blob, object-URL and anchor download in `exportCSV`, are not modelled (DOM and window I/O). The file name is not modelled either.
- `fetchData`'s orchestration is not modelled: `Promise.all`, the order of React state updates, stale responses, the date sort of the account rows and the grouping into breakdown tables. Its pure pieces are modelled: `parseRow`, `computeTotals`, the previous range, `sortedAds`.
- The intermediate accumulator fields `ctrSum`, `cpcSum` and `cpcCount`, which `computeTotals` leaves on its result object, are not part of `Totals.Totals`. Nothing reads them.
- Non-string request-body fields (numbers, arrays) are not modelled.
- ServerRules.NewDashboardRow: a `null` type is modelled as absent and so becomes "app" with default event "app_install". In the code the destructuring default applies only to a missing field, so a `null` type is stored as null and gets the default event "purchase".
- ServerRules.GrantAccess: a `null` role is modelled as absent and so becomes "viewer". In the code the destructuring default applies only to a missing field, so a `null` role is upserted as null.
- ServerRules.GrantAccess: the 500 for a failed upsert and the 500 from the route's catch are not modelled, because the upsert is modelled as always succeeding.
- Annotations.AnnotationPanel.Delete: it always removes the annotation locally. In the code a `fetch` that rejects throws before the list is filtered, so the list is then unchanged.
- `Pagination.FetchAllPages` carries a ghost fuel bound and requires the drain to finish within it. An upstream whose `next` links never end is not modelled.
- `ServerRules.GetFields` is the comma join of the field names; the lemmas state the field list, not the literal text.
- The network, Supabase, Express, CORS, bcrypt and JWT are not modelled. They appear only as function parameters (the upstream, the insert, the annotation request) or as an abstract access table.
- The annotation, user and dashboard listing routes, `server/auth.js` and `server/db.js` are not part of this model.
- `ServerRules.CreateDashboard`: the status of an insert that succeeds but returns no row is not modelled, because the insert parameter always returns a row or an error.
- `Annotations.AnnotationPanel.Save` does not model the loading flag, because it only drives the spinner.
