# AWS cost dashboard: a verified model of its data logic

This project models the data logic of an AWS cost dashboard. The dashboard
has a React client and a Flask backend. Both take an AWS Cost & Usage
Report in CSV form and turn its rows into cost records. Each record has a
date, a service, a region, a cost, optional tags and an optional resource
id. The dashboard then analyses and displays those records.

The Dafny modules follow the program's own files:

| module | what it models |
|---|---|
| `CsvParser` (csv_parser.dfy) | the client's row normalisation in `csv-parser.ts`: column aliases, defaults, service names, tags, the row filter |
| `Backend` (backend.dfy) | the backend's copy of the same normalisation in `app.py`, the `allowed_file` check and the `SELECT`-only guard of `/query` |
| `Upload` (upload.dfy) | the checks and the answer of the `/upload` route, including its summary |
| `Anomalies` (anomalies.dfy) | `generate_anomalies`: daily totals per service and the mean + 2σ / 3σ spike rule |
| `Recommendations` (recommendations.dfy) | `generate_recommendations`: the EC2, S3 and RDS rules and the general rule for the top three services |
| `CostStore` (cost_store.dfy) | the client store and its seven actions, as a class with fields |
| `ResourceTable`, `ServiceBreakdown`, `CostTrends`, `RecommendationsPanel`, `CostOverview` | the computations behind the five views |
| `AiAnalysis` (ai_analysis.dfy) | the keyword dispatch of `answerCostQuestion`, `analyzeCostData` and the shape of `generateCostForecast` |
| `Grouping`, `Sorting`, `Periods`, `ByService`, `Text`, `Common`, `CostModel` | the shared parts: group-by-sum over a `Map` in insertion order, a stable sort, the month windows, string operations, sums and rounding, the record types |

Costs are exact `real` numbers. Rounding to cents (`toFixed(2)`, Python's
`round(x, 2)`) is the function `Common.Round2`. Date strings are compared
in code-point order (`Text.LexLe`), which is chronological for
`YYYY-MM-DD` dates; the same order stands for the other string sorts (see
"Left out").

Some things are outside the code or not deterministic: date parsing, number
parsing, the current month's boundaries, the standard deviation, random
noise, UUIDs, today's date and the canned texts. These are parameters of the
model. A loop that updates a variable in the source is a `method` with loop
invariants, proved equal to a specification function. The properties are
then lemmas about that function.

## Model

| member | source | states |
|---|---|---|
| CsvParser.FirstPresent | frontend/src/lib/csv-parser.ts:38-63 | the `\|\|` chain over a column's aliases gives a non-empty cell of one of the aliases, and gives nothing exactly when no alias has a non-empty cell |
| CsvParser.FirstPresentFirst | frontend/src/lib/csv-parser.ts:38-63 | the value taken is the cell of the first alias whose cell is non-empty; missing and empty cells fall through to the next alias |
| CsvParser.FirstNonEmpty | frontend/src/lib/csv-parser.ts:38-63 | with a fallback (`'Unknown'`, `'global'`, `'0'`), the fallback is taken when no alias is filled; any other value is some alias's cell; the result is never empty when the fallback is not |
| CsvParser.NormalizeServiceName | frontend/src/lib/csv-parser.ts:98-115 | the eleven listed product codes map to their short names; every other service name is returned unchanged |
| CsvParser.NormalizeServiceNameIdempotent | frontend/src/lib/csv-parser.ts:100-114 | no short name is itself a code, so normalising twice equals normalising once |
| CsvParser.ExtractTags | frontend/src/lib/csv-parser.ts:117-131 | the loop over the row's columns builds exactly the tag record `Tags(row, TagName)`, or none when it is empty |
| CsvParser.TagMapKeys | frontend/src/lib/csv-parser.ts:121-128 | a name is a tag exactly when some `resourceTags/` or `tag:` column with a non-empty cell is given that name |
| CsvParser.TagMapValue | frontend/src/lib/csv-parser.ts:121-128 | a tag's value is the cell of the last filled tag column that produces its name |
| CsvParser.TagsNoneIff | frontend/src/lib/csv-parser.ts:117-131 | the tags are `undefined` exactly when no tag column has a non-empty cell |
| CsvParser.TagNameStripsPrefix | frontend/src/lib/csv-parser.ts:123 | for a usual column name the tag name is the name without its `resourceTags/` or `tag:` prefix |
| CsvParser.TagNameInnerPattern | frontend/src/lib/csv-parser.ts:123 | `.replace` also removes a `tag:` inside the name: `resourceTags/p` + `tag:` + `q` becomes `p` + `q` |
| CsvParser.NormalizeDate | frontend/src/lib/csv-parser.ts:86-96 | a date that does not parse is returned unchanged; otherwise the result is the parsed calendar date |
| CsvParser.TransformToCostData | frontend/src/lib/csv-parser.ts:28-84 | the `forEach` that pushes records produces exactly `Transform(rows)`: one record per kept row, in row order |
| CsvParser.RowKept | frontend/src/lib/csv-parser.ts:38-68 | a row yields a record if and only if one of its date columns is filled and its cost parses to a positive amount |
| CsvParser.RowRecord | frontend/src/lib/csv-parser.ts:72-79 | a kept record has the parsed cost rounded to cents (never negative), a non-empty service and region, and the row's tags |
| CsvParser.MissingCostDropsRow | frontend/src/lib/csv-parser.ts:58-68 | a row with no cost column filled (read as `'0'`) or with a cost that is not a number is dropped |
| CsvParser.TinyCostStoredAsZero | frontend/src/lib/csv-parser.ts:65-76 | the filter looks at the unrounded cost, so a positive cost below half a cent is kept and stored as 0 |
| CsvParser.TransformIsFilter | frontend/src/lib/csv-parser.ts:31-81 | the output has at most as many records as rows; each record comes from a kept row; rows appear in increasing order; every kept row is present |
| Backend.NormalizeServiceName | backend/app.py:35-50 | `service_map.get(service, service)`: the eleven codes map to their short names, anything else is unchanged |
| Backend.SameServiceNames | backend/app.py:35-50 | the backend and the client give every service the same name |
| Backend.TagNamesDiffer | backend/app.py:57 | Python's `replace` removes every occurrence: the column `tag:tag:env` gives the tag `env` in the backend and `tag:env` in the client |
| Backend.ExtractTags | backend/app.py:52-60 | the loop builds exactly the tag record under Python's tag names, and returns `None` exactly when no tag column is filled |
| Backend.TransformCsvToCostData | backend/app.py:62-116 | the loop over the rows produces exactly the backend's `Transform(rows)` |
| Backend.RowAgreesWithClient | backend/app.py:66-114 | each side keeps its own parsers (`float()` and `pd.to_datetime` on the backend, `parseFloat` and `new Date` on the client); where they read the row's cost text to the same amount and its date text to the same date, and both sides name every filled tag column alike, the backend makes the same record of the row as the client, or drops it as the client does |
| Backend.TransformAgreesWithClient | backend/app.py:62-116 | where that holds for every row, the two transforms give the same records in the same order |
| Backend.CostParsersDiffer | backend/app.py:87-90 | the agreement needs its hypothesis: a cost such as `12 USD`, which `parseFloat` reads as 12 and `float()` refuses, keeps the row on the client and drops it on the backend |
| Backend.DateParsersDiffer | backend/app.py:27-33 | a date such as `15/01/2024`, which `new Date` refuses and `pd.to_datetime` reads, stays raw on the client and becomes `2024-01-15` on the backend |
| Backend.LastDot | backend/app.py:232 | the position `rsplit('.', 1)` splits at is a dot with no dot after it, and there is none exactly when the name has no dot |
| Backend.AllowedFileIff | backend/app.py:231-232 | a file name is accepted if and only if it ends in a dot followed by `csv` in any mix of letter case |
| Backend.SelectGuardIgnoresTrailingSpace | backend/app.py:375-376 | the guard's answer depends only on the query with its leading whitespace removed, upper-cased, starting with `SELECT` |
| Backend.SelectPrefixAccepted | backend/app.py:375-376 | any text after `SELECT`, a second statement included, passes the guard |
| Backend.SelectGuardLowerCase | backend/app.py:375-376 | leading whitespace and a lower-case `select` pass |
| Backend.SelectGuardRefuses | backend/app.py:375-376 | a query starting with `DELETE` is refused |
| Upload.Earliest | backend/app.py:287 | `min` over the dates is one of them and precedes all of them |
| Upload.Latest | backend/app.py:288 | `max` over the dates is one of them and follows all of them |
| Upload.UploadOutcome | backend/app.py:241-261 | no file, an empty file name, a name that is not `.csv` and no records each give their own 400 answer, checked in that order; an unreadable file gives a 500 answer; so does a set of records some of whose dates the date library cannot read again (the `pd.to_datetime(df['date'])` of `generate_anomalies`, caught by the route's `except`); success happens exactly when the file passes every check, yields a record, and every record's date reads again |
| Upload.RawDateFails | backend/app.py:253-296 | a kept row whose date text does not parse keeps that text as its date, and the upload then answers 500 |
| Upload.TotalLineFails | backend/app.py:128 | for example `a.csv` holding one row with date `Total` and cost `5` answers 500 |
| Upload.UploadSuccess | backend/app.py:277-283 | a successful answer holds the row count, the transformed records (no more than the rows), at most ten anomalies and at most six recommendations |
| Upload.SummarySpec | backend/app.py:284-292 | the total is a whole number of cents within half a cent of the exact sum; both ends of the date range are record dates and every date lies between them; services and regions count between one and the number of records |
| Upload.SummaryTotalOfCents | backend/app.py:285 | when every record is a whole number of cents, the total is exactly their sum |
| Anomalies.Detect | backend/app.py:118-152 | no anomalies for no data; at most ten; they are the first ten of the full scan, or all of it when it finds ten or fewer |
| Anomalies.ScanDay | backend/app.py:139-150 | one step of the inner loop appends the day's anomaly, labelled with the next id, exactly when the rule fires |
| Anomalies.ScanSeries | backend/app.py:138-150 | the inner loop appends the spikes of the whole series, in series order |
| Anomalies.ScanService | backend/app.py:133-150 | one step of the outer loop appends the service's spikes, none for three daily totals or fewer |
| Anomalies.GenerateAnomalies | backend/app.py:118-152 | the nested loops and the final cut produce exactly `Detect` |
| Anomalies.SeriesEntry | backend/app.py:128-133 | each entry of a service's series is that service's summed cost on that date, and some record has that date and service |
| Anomalies.SeriesDatesDistinct | backend/app.py:129-133 | no date appears twice in a service's series |
| Anomalies.SpikeFacts | backend/app.py:139-148 | a spike is dated on its day, exceeds both mean + 2σ and 50, is high exactly above mean + 3σ and medium otherwise, and its impact is the excess over the mean rounded to cents |
| Anomalies.DetectSound | backend/app.py:132-152 | every reported anomaly is a daily total of a service with more than three daily totals that passes the rule; it carries the rule's severity, description and impact, the `i`-th id and today's date |
| Anomalies.ServiceListed | backend/app.py:132 | every service with a daily total is among the services the loop visits |
| Anomalies.DetectComplete | backend/app.py:132-152 | every daily total that passes the rule is found by the full scan with its service and date, and is reported unless ten anomalies come before it |
| Recommendations.ServiceTotalsSpec | backend/app.py:163 | one entry per service present, no service twice, each holding the service's summed cost, from the largest total down |
| Recommendations.TotalOfSpec | backend/app.py:169 | looking up a service gives its summed cost when it has records and nothing otherwise |
| Recommendations.FireRule | backend/app.py:169-181 | a fixed rule appends its recommendation with the next id exactly when the service's total passes the threshold |
| Recommendations.ApplyFixedRules | backend/app.py:166-211 | the three fixed rules in order produce the numbered fixed advice, and the counter equals the number of recommendations |
| Recommendations.FireGeneral | backend/app.py:215-227 | the general rule appends its recommendation with the next id exactly when it applies to the service |
| Recommendations.ApplyGeneralRules | backend/app.py:214-227 | the loop over the top services appends the advice of each service the general rule applies to, numbered on from the fixed rules |
| Recommendations.ApplyRules | backend/app.py:166-227 | all rules in order produce the full numbered advice |
| Recommendations.GenerateRecommendations | backend/app.py:154-229 | the method produces exactly `Recommend`: nothing for empty data, else the rules' recommendations, the first eight kept |
| Recommendations.RecommendShape | backend/app.py:158-229 | empty data gives none; there are at most six, so the cut to eight never applies; ids are `"1"`, `"2"`, … in order and distinct; every status is pending and every date is today |
| Recommendations.Ec2Rule | backend/app.py:169-181 | the EC2 rule fires exactly when EC2 costs more than 1000 in total; it then comes first with id `"1"` and savings of 40% of that total, rounded |
| Recommendations.S3Rule | backend/app.py:184-196 | the S3 rule fires exactly when S3 costs more than 500 in total, with savings of 25% of that total, rounded |
| Recommendations.RdsRule | backend/app.py:199-211 | the RDS rule fires exactly when RDS costs more than 800 in total, with savings of 30% of that total, rounded |
| Recommendations.GeneralAdviceGiven | backend/app.py:214-227 | each of the three largest services that costs more than 200 and is not EC2, S3 or RDS gets general advice |
| Recommendations.GeneralRuleSound | backend/app.py:214-227 | every general recommendation is for one of the three most expensive services, which costs more than 200 and is not EC2, S3 or RDS; it has that service's advice with 15% savings and an id from 1 to 8 |
| Recommendations.GeneralRuleComplete | backend/app.py:214-227 | every such service gets an "Optimize … Usage" recommendation |
| CostStore.WithStatus | frontend/src/store/cost-store.ts:68-73 | the new list has the same length and order; items with the id get the new status and nothing else changes; all other items are unchanged |
| CostStore.WithStatusUnknownId | frontend/src/store/cost-store.ts:70-71 | an id no item carries leaves the list equal to before |
| CostStore.WithStatusIdempotent | frontend/src/store/cost-store.ts:68-73 | applying the update twice equals applying it once |
| CostStore.WithStatusAnyTransition | frontend/src/store/cost-store.ts:68-73 | the store allows any status to follow any other, a return to pending included |
| CostStore.Store.constructor | frontend/src/store/cost-store.ts:58-63 | the store starts with four empty lists and `isLoading` false |
| CostStore.Store.SetCostData | frontend/src/store/cost-store.ts:65 | replaces the cost data and leaves every other field unchanged |
| CostStore.Store.SetAnomalies | frontend/src/store/cost-store.ts:66 | replaces the anomalies and leaves every other field unchanged |
| CostStore.Store.SetRecommendations | frontend/src/store/cost-store.ts:67 | replaces the recommendations and leaves every other field unchanged |
| CostStore.Store.UpdateRecommendationStatus | frontend/src/store/cost-store.ts:68-73 | the recommendations become `WithStatus` of the old list; every other field is unchanged |
| CostStore.Store.AddChatMessage | frontend/src/store/cost-store.ts:74-77 | appends: one more message, the new one last, the earlier ones and every other field untouched |
| CostStore.Store.SetLoading | frontend/src/store/cost-store.ts:78 | sets the loading flag and leaves every other field unchanged |
| CostStore.Store.Reset | frontend/src/store/cost-store.ts:79-85 | restores exactly the initial state |
| Periods.CurrentMonthSpec | frontend/src/components/ResourceTable.tsx:28-30 | the current month's records are, in order, exactly the records whose date parses to a time on or after the month's start |
| ResourceTable.AggregateResources | frontend/src/components/ResourceTable.tsx:21-64 | the memo with its `forEach` over the `Map` produces exactly the specified rows and service list |
| ResourceTable.BucketsSpec | frontend/src/components/ResourceTable.tsx:33-58 | one row per distinct key of this month's records, no key twice, never more rows than records |
| ResourceTable.RowEntry | frontend/src/components/ResourceTable.tsx:41-54 | each row's cost is the sum over its key's records; it shows the service, region and tags of the first of them, and its resource id or `'N/A'` |
| ResourceTable.SameKeySameRow | frontend/src/components/ResourceTable.tsx:42-46 | every record of this month is in exactly one row, the row of its key |
| ResourceTable.KeyCollision | frontend/src/components/ResourceTable.tsx:42 | the dash-joined key is not injective: (`us-east-1`, `a`) and (`us-east`, `1-a`) share a row |
| ResourceTable.AggregatedSorted | frontend/src/components/ResourceTable.tsx:22-58 | no rows and no services without data; the rows run from the highest cost down |
| ResourceTable.AggregatedTotal | frontend/src/components/ResourceTable.tsx:41-58 | the rows together cost exactly what this month's records cost |
| ResourceTable.ServiceListSpec | frontend/src/components/ResourceTable.tsx:61 | the service list is sorted, holds no service twice, and holds exactly the services of the rows |
| ResourceTable.AllServiceCollision | frontend/src/components/ResourceTable.tsx:123-134 | the filter is the option's text with `'all'` as its sentinel: picking a service named `all` lists the other services' rows too |
| ResourceTable.FilteredSpec | frontend/src/components/ResourceTable.tsx:66-84 | filtering keeps the rows that pass the service filter and the search, in order; `'all'` with an empty search keeps every row |
| ResourceTable.ListedRowPasses | frontend/src/components/ResourceTable.tsx:69-81 | every listed row is a row that matches the service filter and whose id, service or region contains the lower-cased search term |
| ResourceTable.PassingRowListed | frontend/src/components/ResourceTable.tsx:69-81 | every row that passes is listed |
| ResourceTable.Displayed | frontend/src/components/ResourceTable.tsx:157 | at most fifty rows are shown: the first fifty, or all when there are fewer |
| ServiceBreakdown.ChartData | frontend/src/components/ServiceBreakdown.tsx:27-68 | the memo with its `forEach` filling the `Map` produces exactly the specified chart |
| ServiceBreakdown.SortedSlicesSpec | frontend/src/components/ServiceBreakdown.tsx:34-52 | one slice per service of this month, no name twice, each holding the service's total rounded to cents, largest first |
| ServiceBreakdown.BreakdownSpec | frontend/src/components/ServiceBreakdown.tsx:28-67 | empty without data; at most nine slices; with eight services or fewer, the sorted slices; with more, the eight largest, then "Other" holding the rounded sum of the rest, present exactly when that sum is positive |
| ServiceBreakdown.BreakdownConservesTotal | frontend/src/components/ServiceBreakdown.tsx:41-64 | with non-negative costs the chart sums to the month's spend within half a cent per service plus half a cent for "Other" |
| ServiceBreakdown.BreakdownCloseToSlices | frontend/src/components/ServiceBreakdown.tsx:55-64 | folding the tail into "Other" moves the chart's sum by at most half a cent |
| ServiceBreakdown.FoldOthersClose | frontend/src/components/ServiceBreakdown.tsx:55-64 | with a non-negative tail, "Other" differs from the tail's sum by at most half a cent, or the tail sums to zero and is dropped |
| ServiceBreakdown.SlicesCloseToMonth | frontend/src/components/ServiceBreakdown.tsx:41-52 | rounding each service's total moves the month's spend by at most half a cent per service |
| CostTrends.ChartData | frontend/src/components/CostTrendsChart.tsx:18-39 | the memo with its `forEach` filling the `Map` produces exactly the specified series |
| CostTrends.LastN | frontend/src/components/CostTrendsChart.tsx:38 | `slice(-n)` keeps `min(\|s\|, n)` elements, and they are exactly the last ones of `s` |
| CostTrends.ByDateOrders | frontend/src/components/CostTrendsChart.tsx:35 | the `localeCompare` order on dates is total and transitive, as the sort needs |
| CostTrends.PointEntry | frontend/src/components/CostTrendsChart.tsx:22-34 | each point is a date some record carries, with that date's summed cost rounded to cents |
| CostTrends.PointsAscending | frontend/src/components/CostTrendsChart.tsx:30-35 | points come in strictly increasing date order, so no date appears twice |
| CostTrends.DateHasPoint | frontend/src/components/CostTrendsChart.tsx:24-35 | every record's date has a point in the full series |
| CostTrends.TrendSpec | frontend/src/components/CostTrendsChart.tsx:19-38 | empty without data; at most thirty points; they are the last points of the full date-ordered series |
| CostTrends.TrendKeepsLatest | frontend/src/components/CostTrendsChart.tsx:35-38 | a record whose date is not shown is dated before every point shown |
| RecommendationsPanel.EmptyStateIff | frontend/src/components/RecommendationsPanel.tsx:42-57 | the empty state shows exactly when there are no recommendations |
| RecommendationsPanel.FilterSpec | frontend/src/components/RecommendationsPanel.tsx:24-27 | `'all'` shows every item; a status shows exactly the items with that status, in their order |
| RecommendationsPanel.TotalSavingsSpec | frontend/src/components/RecommendationsPanel.tsx:29-31 | the potential savings are the savings of the pending items: the same under "all" and "pending", zero under "implemented" and "ignored" |
| RecommendationsPanel.CountsPartition | frontend/src/components/RecommendationsPanel.tsx:76-90 | the pending, implemented and ignored counts add up to the total count |
| RecommendationsPanel.CountZeroIff | frontend/src/components/RecommendationsPanel.tsx:83-90 | a status count is zero exactly when no item has that status |
| RecommendationsPanel.CountsSpec | frontend/src/components/RecommendationsPanel.tsx:76-90 | the pending and implemented counts add up to at most the total, and to exactly the total when nothing is ignored |
| RecommendationsPanel.PressOnlyFromPending | frontend/src/components/RecommendationsPanel.tsx:142-160 | buttons exist only on pending items and set implemented or ignored; with unique ids, pressing one changes that item's status and nothing else |
| RecommendationsPanel.PressSharedId | frontend/src/components/RecommendationsPanel.tsx:147-155 | when two items share an id, pressing a button on one changes the other too |
| CostOverview.StatsWithoutData | frontend/src/components/CostOverview.tsx:10-19 | with no cost data every figure is zero, the anomaly counts included, even when there are anomalies |
| CostOverview.StatsSpec | frontend/src/components/CostOverview.tsx:38-47 | the change is the difference of the two months; the percentage is `change / previous × 100` when last month's spend is positive and 0 otherwise, with the change's sign; the total anomaly count is the list's length; the high count is at most the total and equals it exactly when every anomaly is high |
| CostOverview.HighCountIff | frontend/src/components/CostOverview.tsx:47 | the high-severity count equals the anomaly count exactly when every anomaly is high |
| CostOverview.MonthsWithinTotal | frontend/src/components/CostOverview.tsx:22-36 | the two month windows are disjoint, so with non-negative costs the two figures together never exceed the total spend |
| CostOverview.StatsIgnoreOtherRecords | frontend/src/components/CostOverview.tsx:26-36 | a record dated outside both windows changes no figure |
| AiAnalysis.AnswerOrder | frontend/src/lib/ai-analysis.ts:29-129 | each canned answer is given exactly when its keyword test passes on the lower-cased question and every earlier test fails; the default answer comes when none passes |
| AiAnalysis.AnswerIgnoresCase | frontend/src/lib/ai-analysis.ts:29 | a question and its lower-cased form get the same answer |
| AiAnalysis.AnswerIgnoresData | frontend/src/lib/ai-analysis.ts:21-146 | the answer does not depend on the cost data |
| AiAnalysis.AnswerExamples | frontend/src/lib/ai-analysis.ts:31-63 | "s3" without "double" or "increase" never gets the S3 answer; "ec2" with "reduce" and without "s3" gets the EC2 answer |
| AiAnalysis.AnalyzeIgnoresData | frontend/src/lib/ai-analysis.ts:6-19 | `analyzeCostData` gives the same sample whatever the records |
| AiAnalysis.DayCosts | frontend/src/lib/ai-analysis.ts:164 | `actual` holds, for each sorted date, the summed cost of that date's records |
| AiAnalysis.ForecastValue | frontend/src/lib/ai-analysis.ts:180-181 | a forecast value is never negative and never below the linear estimate plus noise, and it is either 0 or exactly that estimate |
| AiAnalysis.SortDays | frontend/src/lib/ai-analysis.ts:156-163 | the `forEach` filling the `Map`, then the sort of its keys, gives exactly the sorted dates |
| AiAnalysis.ProjectDays | frontend/src/lib/ai-analysis.ts:174-182 | the loop gives the thirty shifted dates and the thirty forecast values, or fails when a shifted date is invalid |
| AiAnalysis.GenerateCostForecast | frontend/src/lib/ai-analysis.ts:148-189 | the method produces exactly the specified forecast |
| AiAnalysis.ForecastValuesNonNegative | frontend/src/lib/ai-analysis.ts:174-182 | the `i`-th forecast value is that of day `i + 1` and is never negative |
| AiAnalysis.ShiftedDatesLength | frontend/src/lib/ai-analysis.ts:174-177 | `k` shifted dates, when all are valid |
| AiAnalysis.ForecastOfNoData | frontend/src/lib/ai-analysis.ts:167-177 | without records there is no forecast: the last date is missing, so the date conversion throws |
| AiAnalysis.ForecastShape | frontend/src/lib/ai-analysis.ts:184-188 | the three arrays each have one entry per distinct date plus thirty; `actual` is filled for the dates of the data with their summed costs and `forecast` for the thirty days after, every forecast value at least zero; the dates after the data's are exactly the thirty shifted days |
| AiAnalysis.Layout | frontend/src/lib/ai-analysis.ts:184-188 | how the three arrays are laid out from the data's days and the thirty projected days |
| AiAnalysis.SortedDatesSpec | frontend/src/lib/ai-analysis.ts:156-163 | the dates are the distinct dates of the records, in increasing order |
| AiAnalysis.DateListed | frontend/src/lib/ai-analysis.ts:158-163 | every record's date is among the sorted dates |
| AiAnalysis.DateOrigin | frontend/src/lib/ai-analysis.ts:163 | every sorted date is some record's date |
| AiAnalysis.DatesDistinct | frontend/src/lib/ai-analysis.ts:163 | no date appears twice |
| Grouping.GroupSpec | frontend/src/components/CostTrendsChart.tsx:22-27 | grouping into a `Map` gives one bucket per distinct key, no key twice |
| Grouping.GroupBuckets | frontend/src/components/ServiceBreakdown.tsx:39-44 | every bucket holds the summed amount of exactly the items with its key |
| Grouping.GroupKeepsTotal | frontend/src/components/ResourceTable.tsx:41-56 | grouping neither creates nor loses money: the buckets add up to the items |
| Grouping.GroupInto | frontend/src/components/CostTrendsChart.tsx:24-27 | the `forEach` with `get(key) \|\| 0` and `set` builds exactly the grouping |
| Sorting.SortPermutes | frontend/src/components/ResourceTable.tsx:58 | sorting only reorders: the result is a permutation of the input |
| Sorting.SortSorted | frontend/src/components/ResourceTable.tsx:58 | under a total preorder the result is sorted |
| Sorting.SortKeepsTotal | frontend/src/components/ResourceTable.tsx:58 | sorting keeps the total of any amount the elements carry |
| Text.LexLeOrders | frontend/src/components/ResourceTable.tsx:61 | the order that stands for the default string sort (code-point order, see "Left out") is total and transitive |
| Common.Round2 | frontend/src/lib/csv-parser.ts:76 | rounding to cents moves an amount by at most half a cent and keeps a non-negative amount non-negative |
| Common.TinyAmountRoundsToZero | frontend/src/lib/csv-parser.ts:76 | a positive amount below half a cent rounds to zero |
| Common.Distinct | backend/app.py:290-291 | `set(...)` over a sequence keeps every element once and adds none, so its size is at most the sequence's length |

## Left out

- Floating point: costs are exact reals. `toFixed(2)` and Python's `round(x, 2)` (which rounds half to even on the binary value) are both the half-up `Common.Round2`. Sums are exact, so the effects of their order are not modelled.
- `changePercent` is the exact quotient. Division by a tiny positive float is not modelled.
- CSV tokenising (`Papa.parse`, `pd.read_csv`) and UTF-8 decoding are not modelled. The model starts from rows of (column, cell) pairs in header order. A failing read is the `Unreadable` outcome of `/upload`.
- Backend cells are strings, as in the client. pandas' type inference (numbers, NaN cells, which are truthy in the `or` chains) is not modelled. Nor is the `pd.notna` check on the cost.
- The backend stores tags as `str(tags)`, Python's printed form of the dictionary. The model keeps the tag map itself.
- JavaScript object quirks are not modelled: a column named like an `Object.prototype` member, and a tag or service name such as `__proto__`.
- Case mapping (`toLowerCase`, `upper()`, `lower()`) covers ASCII letters only. Non-ASCII letters whose upper case is an ASCII letter are not modelled, in the `SELECT` guard or elsewhere.
- Date parsing: `new Date(s)`, `toISOString` and `pd.to_datetime` are parameters (`toIsoDate`, `parse`). The client and the backend each get their own number and date parser, so `parseFloat` (which reads a numeric prefix) and `float()` (which refuses one), and `new Date` and `pd.to_datetime` (which accept different texts), may differ; `Backend.RowAgreesWithClient` holds only where they agree on the row. The backend's `pd.to_datetime(df['date'])` converts the whole column at once: the model takes it to succeed exactly when every record's date parses on its own (pandas' format inference across a column is not modelled), and groups the anomaly scan by the date text, which is the same grouping when a parsed `YYYY-MM-DD` date reads back unchanged. The difference between UTC-parsed `YYYY-MM-DD` dates and local month starts is not modelled.
- "Now": the month boundaries (`MonthBounds`, `monthStart`) and today's date (`today`) are parameters.
- `localeCompare`, JavaScript's default `.sort()` (in `ResourceTable`'s service list and the forecast's dates) and Python's string order are all code-point order (`Text.LexLe`). Locale-aware collation is not modelled, nor is the UTF-16 code-unit order of the default sort, which differs from code-point order when a character above U+FFFF meets one between U+E000 and U+FFFF (`ResourceTable.ServiceList`, `AiAnalysis.SortedDates`).
- Tie order: the backend's `sort_values` is not a stable sort. The model orders equal service totals by name, as `groupby` hands them over. The client's sorts are stable (`Sorting.Sort`).
- Anomalies.Detect: pandas' mean and sample standard deviation are taken as given. The mean is the exact mean and the deviation is the parameter `std`. The UUIDs are the parameter `ids`, and the description texts are the parameter `describe`.
- Recommendations: the description texts (which format the total with `:.2f`) are the parameter `describe`. Titles, categories, effort and risk are literal.
- The canned answers of `answerCostQuestion` and the sample data of `analyzeCostData` are opaque: an `Answer` value and a `sample` parameter. The delays (`setTimeout`) are not modelled.
- `generateCostForecast`: `Math.random()` is the parameter `noise`. Moving a date by `i` days is the parameter `shift`, which returns nothing for an invalid date. The `|| 0` in `actual` is not modelled separately, since every date in the map has a total.
- `/upload`'s SQLite writes (`to_sql`), the `table_name` form field, the `columns` list of the answer and the `message` text are not modelled. The routes `/schema`, `/ask`, `/query` (beyond its guard) and `/tables`, and the natural-language query service, are not modelled; they are database and LLM plumbing.
- The views' rendering (cards, charts, currency formatting, the badges in `ResourceTable`) is not modelled. Neither is the hard-coded savings figure in `CostOverview`.
- `CostStore.Store` methods: state updates are whole-field assignments to a single store object. React's re-rendering and zustand's subscription are not modelled.
