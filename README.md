# CI dashboard aggregation, modelled in Dafny

The dashboard (`main.mjs`) shows the GitHub Actions runs of one repository.
It does three things:

- It groups the runs by workflow name.
- It sets the page title to the date range over all workflows.
- It draws one chart per workflow, with per-day success and failure counts.

The runs come from a static `data.json`, from a cached snapshot in
`localStorage`, or from a paginated fetch of the workflow-runs listing that
keeps only the runs of branch `main`.

This project models four pieces of that code and proves properties of them.

- **Runs** (`runs.dfy`): the data model.
  - A run is its workflow name, its start instant in integer milliseconds, its conclusion and its head branch.
  - A day is 86400000 ms. Flooring to UTC midnight is `t - t % Day`.
- **Grouping** (`grouping.dfy`): the `forEach` of `maybeProcessData`. It builds the dictionary from name to entries, with the keys in insertion order.
  - An entry is identified by the position of its run in the input, so a group is a list of positions.
  - `GroupRuns` is the loop. It is proved equal to the function `GroupsOf`.
  - The lemmas prove that every run is in exactly its own group, that order is kept, and that the group sizes add up to the input length.
- **Chart** (`chart.dfy`): `createChart` without the DOM.
  - The two `reduce` folds are `EarliestIndex` and `LatestIndex`. Both pick the last of several equal elements.
  - The day walk is the method `WalkDays`. It is proved equal to the function `ChartOver`.
  - The lemmas cover:
    - the label count, span and order;
    - the exclusion of every conclusion other than success and failure;
    - the empty last bucket;
    - disjoint buckets that cover the group;
    - the success and failure totals.
- **Title** (`title.dfy`): `title`.
  - `MinPos` and `MaxPos` are the positions whose Date objects the nested reduces return.
  - `GlobalRange` is the range computed on copies.
  - `TitleInPlace` is the code as written, over an `array<int>` of the entries' Date objects. It floors one cell and moves another (or the same one, when a single entry is both earliest and latest), and the charts are drawn from that same array afterwards.
- **Process** (`process.dfy`): `maybeProcessData` as a whole, in two versions.
  - `ProcessDataAsWritten` is the code as written.
  - `ProcessData` is the evidently intended behaviour, with the title computed on copies.
- **Fetch** (`fetch.dfy`): the bookkeeping of `render`.
  - It covers the static-data gate, the one-hour cache freshness test, the `head_branch === 'main'` filter (`MainOnly`, `AppendMain`), the page cursor, and the `do … while (data.length < total_count && data.length)` loop (`FetchLoop`).
  - The replies to successive requests are a given sequence. Each reply also gives the clock reading at which its snapshot is written to the cache.
  - `FetchLoop` is proved against the predicate `FetchedFrom`. That predicate ties the final state, the cache slot and the lists drawn to the function `Accumulate` over the replies consumed.
- **Findings** (`findings.dfy`): concrete inputs on which the code as written and the intended behaviour differ.

### Behaviour of the code worth knowing

These points follow from the code. Two natural expectations do not hold: one label per day of the range, and `ceil(total_count / page size)` requests.

- Two runs of one workflow on the same UTC day give a chart with **two** labels: that day and the next. The label after the latest start is always drawn, and its bucket is always empty (`Chart.LastBucketEmpty`). As a result, a chart has `(floor(max) - floor(min)) / Day + 2` labels, not `+ 1` (`Chart.LabelsSpanRange`).
  - The intended rendering of the example with a success at 10:00 and a failure at 15:00 is therefore `[1, 0]` successes and `[1, 0]` failures over two labels (`Findings.IntendedKeepsRunsOnTheirDay`), rather than a single bucket.
  - As written, the code even charts the failure on the second day (see Findings).
- The number of requests is not `ceil(total_count / page size)`. Two things break that formula:
  - `total_count` counts the runs of every branch, while only the runs on `main` are kept. The loop can therefore go on while replies keep coming.
  - The loop also ends as soon as the gathered list is empty, even when `total_count > 0`.
  - `Fetch.FetchedFrom` states exactly when the loop goes on.
- Each iteration draws the dashboard **before** its request. So the list gathered after the last reply is written to the cache but never drawn: `shown` holds one list per request, drawn before that request (`Fetch.FetchedFrom`).
- Aggregating the same runs twice gives the same dashboard. `ProcessData` and `ProcessDataAsWritten` are each proved equal to a function of the input (`Rendered`, `RenderedAsWritten`).

## Model

| member | source | states |
|---|---|---|
| Runs.Floor | main.mjs:98 | `setUTCHours(0, 0, 0, 0)` gives a multiple of a day at most one day before the instant |
| Chart.EarliestIndex | main.mjs:97 | the min fold returns an entry no later than every entry, and no entry after it is as early (ties go to the later element) |
| Chart.LatestIndex | main.mjs:99 | the max fold returns an entry no earlier than every entry, and no entry after it is as late (ties go to the later element) |
| Chart.Lower | main.mjs:97-98 | minDate is a midnight; `Chart.RangeIsDayAligned` places every entry at or after it |
| Chart.Upper | main.mjs:99-101 | maxDate is a midnight; `Chart.RangeIsDayAligned` places every entry before it |
| Chart.RangeIsDayAligned | main.mjs:97-101 | minDate and maxDate are midnights, at least one day apart, and every entry of the group starts in `[minDate, maxDate)` |
| Chart.LabelCount | main.mjs:101-116 | the walk from minDate to maxDate inclusive has at least two labels, and maxDate is minDate plus (count - 1) days |
| Chart.CountIn | main.mjs:118-119 | the counting reduce never counts more entries than the group has |
| Chart.WalkDays | main.mjs:116-120 | the `for` loop pushes one label per day from minDate to maxDate inclusive, each with that day's success and failure counts |
| Chart.CreateChart | main.mjs:97-120 | createChart on a non-empty group yields the labels and counts of `SeriesOf` |
| Chart.SeriesOf | main.mjs:97-120 | the chart has at least two labels and one success count and one failure count per label |
| Chart.LabelsSpanRange | main.mjs:97-117 | the labels run from floor(min) to floor(max) + one day in one-day steps, strictly increasing, and number `(floor(max) - floor(min)) / Day + 2` |
| Chart.LastBucketEmpty | main.mjs:100-119 | the last label's bucket counts no success and no failure |
| Chart.CountInSplit | main.mjs:118-119 | counting over two adjacent windows is counting over their union |
| Chart.WindowPartition | main.mjs:118-119 | within a window, successes, failures and the other conclusions add up to the entries in the window |
| Chart.BucketBound | main.mjs:118-119 | each bucket counts the successes (failures) in `[d, d + Day)`; their sum is at most the entries of that day, with equality exactly when none of them has another conclusion |
| Chart.BucketedSum | main.mjs:116-119 | consecutive day buckets add up to the count over the whole span |
| Chart.BucketsCoverAll | main.mjs:116-119 | buckets whose span holds every entry add up to all entries of the conclusion |
| Chart.BucketsCoverGroup | main.mjs:116-119 | summed over all buckets, the success (failure) counts equal the group's number of successes (failures) |
| Chart.EachEntryInOneBucket | main.mjs:116-119 | every entry starts in exactly one bucket, the one of its floored start, which is never the last |
| Chart.EntryCountedOnItsDay | main.mjs:116-119 | the bucket of an entry's floored start has that midnight as label and counts the entry when it is a success or a failure |
| Grouping.Names | main.mjs:132-136 | the keys are the input's names, each once |
| Grouping.NamesInFirstOrder | main.mjs:133-135 | the keys come in order of first appearance: every run named a later key has a run named each earlier key before it |
| Grouping.Positions | main.mjs:137-143 | a group holds the positions of exactly the runs of its name, in increasing input order |
| Grouping.PositionsStep | main.mjs:132-143 | pushing run i changes only the group of its own name, by appending i |
| Grouping.GroupStep | main.mjs:133-137 | one iteration of the `forEach`, create-if-absent then push, keeps the dictionary equal to the grouping of the runs seen so far |
| Grouping.GroupsOf | main.mjs:131-144 | the dictionary holds a list for exactly its keys |
| Grouping.GroupRuns | main.mjs:131-144 | the `forEach` builds the keys and groups of `GroupsOf` |
| Grouping.EveryRunInItsGroup | main.mjs:132-143 | run i lies in the group of name n exactly when its name is n, the group is non-empty, and it holds no position twice |
| Grouping.GroupsWellFormed | main.mjs:132-143 | every key holds a non-empty list of positions within the input |
| Grouping.GroupSizesSum | main.mjs:132-143 | the group sizes add up to the input length |
| Title.EarliestOf | main.mjs:67 | the inner reduce for minDate returns an entry of its group no later than every entry of that group |
| Title.LatestOf | main.mjs:72 | the inner reduce for maxDate returns an entry of its group no earlier than every entry of that group |
| Title.MinPos | main.mjs:66-69 | minDate is the Date object of a grouped entry no later than every grouped entry |
| Title.MaxPos | main.mjs:71-74 | maxDate is the Date object of a grouped entry no earlier than every grouped entry |
| Title.MinPosTies | main.mjs:66-69 | the tie rule of minDate: every entry of a key after minDate's key starts strictly later, and no entry after minDate in its group starts as early |
| Title.MaxPosTies | main.mjs:71-74 | the tie rule of maxDate: every entry of a key after maxDate's key starts strictly earlier, and no entry after maxDate in its group starts as late |
| Title.MinKey | main.mjs:66-69 | the key the outer reduce for minDate settles on holds the entry minDate belongs to |
| Title.MaxKey | main.mjs:71-74 | the key the outer reduce for maxDate settles on holds the entry maxDate belongs to |
| Title.GlobalRange | main.mjs:65-76 | on copies, both ends of the title's range are midnights |
| Title.RangeCoversEntries | main.mjs:65-76 | every grouped entry starts within the title's range |
| Title.RangeIsTight | main.mjs:65-76 | some entry starts on the range's first day and some on its last day |
| Title.AfterTitle | main.mjs:70-76 | title keeps the number of entries; what it does to them is stated by `Title.TitleMovesLatestEntry` |
| Title.TitleShown | main.mjs:77 | both instants the title shows are midnights; which ones is stated by `Title.TitleMovesLatestEntry` |
| Title.TitleInPlace | main.mjs:65-77 | title over the entries' own Date objects leaves them as `AfterTitle` says and shows `TitleShown` |
| Title.LatestAfterFlooring | main.mjs:70-75 | flooring minDate in place does not change the midnight of the latest entry |
| Title.TitleMovesLatestEntry | main.mjs:65-77 | as written, the latest entry ends on the range's upper end; the earliest ends on its lower end unless they are one Date object; no other entry changes; the title shows the upper end twice when they are one object |
| Process.StartTimes | main.mjs:138 | each entry's Date is its run's `run_started_at` |
| Process.GroupOf | main.mjs:137-143 | a group's entries are its runs' dates and conclusions, in group order |
| Process.ChartsOf | main.mjs:148 | there is one chart per key |
| Process.LayoutOfGroups | main.mjs:146 | for non-empty input the dictionary has a key, and every group is non-empty and within the input |
| Process.DrawCharts | main.mjs:148 | `Object.keys(workflows).map(createChart)` draws `SeriesOf` of every key's group |
| Process.Rendered | main.mjs:146-148 | the intended rendering has a chart for exactly the input's names |
| Process.RenderedAsWritten | main.mjs:146-148 | the rendering as written has a chart for exactly the input's names |
| Process.ProcessData | main.mjs:130-150 | empty input sets no title and draws no chart; otherwise the intended rendering |
| Process.ProcessDataAsWritten | main.mjs:130-150 | empty input sets no title and draws no chart; otherwise the rendering as written, with title's in-place changes seen by the charts |
| Process.TitleSpansCharts | main.mjs:146-148 | on copies, every chart lies within the title's range; the chart of minDate's key starts at the range's start, and the chart of maxDate's key ends at its end |
| Process.ChartsWithinRange | main.mjs:146-148 | every chart's first and last labels lie within the title's range |
| Process.ChartWithinRange | main.mjs:146-148 | one key's chart lies within the title's range |
| Process.FirstChartStartsTitle | main.mjs:66-70 | the chart of minDate's key starts at the title's start |
| Process.LastChartEndsTitle | main.mjs:71-76 | the chart of maxDate's key ends at the title's end |
| Process.GroupWithinRange | main.mjs:65-101 | one group's label span lies within the title's range |
| Process.GroupStartsAt | main.mjs:66-98 | the group holding minDate's entry starts at the title's start |
| Process.GroupEndsAt | main.mjs:71-101 | the group holding maxDate's entry ends at the title's end |
| Process.RunCountedOnItsDay | main.mjs:132-148 | in the intended rendering, every run's chart has a label for the midnight of its start, and counts it there when it is a success or a failure |
| Process.EntryCountedInChart | main.mjs:137-148 | an entry of a group is counted in that group's chart on its day |
| Fetch.IsFresh | main.mjs:22-24 | a snapshot is fresh exactly when it was written less than 3600000 ms (`1000 * 60 * 60 * 1`) before now |
| Fetch.Start | main.mjs:19-29 | a cached snapshot replaces data, total and page exactly when it is younger than one hour; otherwise the static data with total 0 and page 0 is kept |
| Fetch.FreshnessBoundary | main.mjs:22-24 | 59 minutes old is fresh; 60 and 61 minutes old are stale |
| Fetch.MainOnly | main.mjs:45-49 | the filter keeps exactly the runs on `main` and never adds any |
| Fetch.MainOnlyAppend | main.mjs:45-49 | filtering keeps order: filtering two lists in turn is filtering their concatenation |
| Fetch.AppendMain | main.mjs:45-49 | the `forEach` over a reply appends that reply's runs on `main` to data, in order |
| Fetch.Accumulate | main.mjs:31-61 | the gathered runs never shrink and grow by at most the runs the replies list |
| Fetch.AccumulateAppendsMain | main.mjs:31-61 | the loop keeps the starting runs as they are and only adds runs on `main` after them |
| Fetch.AccumulateExtends | main.mjs:31-61 | what was gathered after j replies is a prefix of what is gathered after all of them |
| Fetch.Request | main.mjs:34-49 | one request appends the reply's runs on `main`, takes its total and moves the page on by one |
| Fetch.After | main.mjs:31-61 | the page moves on once per reply and the gathered runs never shrink |
| Fetch.AfterStep | main.mjs:34-49 | the state after one more reply is one request further on |
| Fetch.LoopStep | main.mjs:31-61 | an iteration that gets a reply keeps the loop's invariant, including the cache slot it writes |
| Fetch.LoopExhausted | main.mjs:31-61 | running out of replies while the loop would go on ends the loop as exhausted |
| Fetch.MoreToFetch | main.mjs:61 | the loop goes on exactly when some runs are gathered and fewer than the total count |
| Fetch.LoopDone | main.mjs:61 | the loop condition failing after a reply ends the loop |
| Fetch.FetchLoop | main.mjs:31-61 | the do-while consumes replies in order; page and data move on per reply; the cache holds the last snapshot; each iteration draws the list gathered before its request; it goes on exactly while `data.length < total_count && data.length` holds |
| Fetch.Render | main.mjs:10-61 | with static data and no `live` parameter, the static data is shown and nothing is fetched; otherwise the loop runs from the cache-or-static start |
| Findings.SameDayGroups | main.mjs:131-144 | two runs of "A" group into one key holding both |
| Findings.SameDayNames | main.mjs:132-136 | two runs of "A" give the single key "A" |
| Findings.SameDayPositions | main.mjs:137-143 | the group of "A" holds positions 0 and 1 |
| Findings.SingleKey | main.mjs:131-144 | input with a single name groups into one key holding that name's positions |
| Findings.SameDayStarts | main.mjs:138 | the two entries' Dates are 10:00 and 15:00 on 2024-01-01 |
| Findings.AsWrittenCharts | main.mjs:146-148 | as written, the charts are drawn from the dates title has changed |
| Findings.IntendedCharts | main.mjs:146-148 | as intended, the charts are drawn from the runs' start times |
| Findings.SameDayTitle | main.mjs:65-77 | title as written floors the 10:00 Date to midnight and moves the 15:00 Date to the next midnight |
| Findings.SameDayEarliest | main.mjs:66-69 | minDate is the 10:00 entry |
| Findings.SameDayLatest | main.mjs:71-74 | after the flooring, maxDate is the 15:00 entry |
| Findings.SameDayAsWritten | main.mjs:146-148 | as written, the chart of "A" counts the success on the first day and the failure on the second |
| Findings.ChangedCharts | main.mjs:148 | the chart of the changed entries counts the success on 2024-01-01 and the failure on 2024-01-02 |
| Findings.TiedTitle | main.mjs:66-76 | of two entries starting at the same instant, title as written floors the second and moves the first to the next midnight |
| Findings.TiedEarliest | main.mjs:66-69 | of two entries starting at the same instant, minDate is the second |
| Findings.TiedLatest | main.mjs:71-74 | after the second is floored, maxDate is the first |
| Findings.MovedChart | main.mjs:97-120 | a success at midnight and a failure at the next midnight chart over three labels |
| Findings.AsWrittenMovesLatestRun | main.mjs:65-77 | as written, the chart of "A" has three labels, with the success on the first day and the failure on the second |
| Findings.IntendedKeepsRunsOnTheirDay | main.mjs:97-120 | as intended, the chart of "A" has two labels, with both runs counted on the first day |
| Findings.UnchangedCharts | main.mjs:148 | the chart of the unchanged entries counts both runs on 2024-01-01 |
| Findings.UnmovedChart | main.mjs:97-120 | a success at 10:00 and a failure at 15:00 on one day chart over two labels |
| Findings.TwoEntryChart | main.mjs:97-101 | a chart of two entries of any conclusions, the second later, starts at the first one's midnight and ends a day after the second one's |
| Findings.CountTwo | main.mjs:118-119 | counting over two entries counts each one that matches |
| Findings.AsWrittenTitleOfOneRun | main.mjs:65-77 | as written, one run makes the title read from the next midnight to the next midnight |
| Findings.IntendedTitleOfOneRun | main.mjs:65-77 | as intended, one run makes the title read from its midnight to the next |

## Left out

- **I/O:**
  - The requests to the workflow-runs listing, `fetch('data.json')`, `localStorage`, `JSON.parse`/`JSON.stringify`, the clock and `location.search` are not modelled as operations.
  - The model takes them as inputs instead: the static data, the `live` flag, the cache slot, the clock reading, and the sequence of replies with their clock readings.
  - Failures of the network or of parsing, which abort `render`, are not modelled.
- **The DOM and Chart.js** (main.mjs:81-95, 122-127) are not modelled. That covers creating or reusing the panel, clearing it before it is rebuilt, the heading, the canvas and the chart object. A chart is its labels and its two data series.
- **Local time:** `setDate(getDate() + 1)` steps in local time. The model uses a fixed 86400000 ms day and UTC flooring, so days across a daylight-saving change are not modelled.
- **The title string:** `Date.toString` output and the title string's format are not modelled. The title is the pair of instants its two Date objects end up holding.
- **Logging:** `console.log` is not modelled.
- **Key order:** `Object.keys` lists integer-like keys first, in numeric order. The model keeps plain insertion order.
- **Prototype names:** a workflow named like an `Object.prototype` member (e.g. `constructor`) makes `in` true. The code then fails on `push`. The model treats every name as an ordinary key.
- **Run fields:** the entries' `url`, `who` and `status` fields, and the run fields they come from, are not modelled. Nothing in the core reads them.
- **Invalid dates:** a `run_started_at` that parses to an invalid Date (NaN) is not modelled. Every start is an integer instant.
- **Cached records:** the records pushed by the loop carry no `head_branch`. So runs taken from a cached snapshot are not filtered again. The model keeps a `branch` field on every run and applies the filter only to replies, as the code does.
- **Requests beyond the replies:** when the loop would request more pages than the replies given, the model stops and reports `exhausted`, instead of waiting on the network.
- **Async:** `async`/`await` sequencing is modelled as ordinary sequential iteration. The code has one request outstanding at a time.
- Title.GlobalRange: its own contract states only that both ends are midnights. That every entry lies in the range, and that the range is tight, is stated by `Title.RangeCoversEntries` and `Title.RangeIsTight`.
- Chart.Lower, Chart.Upper: their own contracts state only that they are midnights. Where the entries lie relative to them is stated by `Chart.RangeIsDayAligned`.
- Title.TitleShown: its own contract states only that both instants are midnights. Their values are stated by `Title.TitleMovesLatestEntry`.
- Title.AfterTitle: its own contract states only that the length is kept. What it does to the entries is stated by `Title.TitleMovesLatestEntry`.
- Fetch.FetchedFrom: the pages requested are not listed one by one. Together, the final `page` (start page plus the number of replies consumed) and `Fetch.Request` state that each request moves the cursor on by one.

## Findings

| source | as written | input that shows it | evidently intended | confidence | as-written member | corrected member |
|---|---|---|---|---|---|---|
| main.mjs:65-77, 147-148 | `title` calls `setUTCHours` and `setDate` on the Date objects the reduces return. Those are the entries' own Dates, so the earliest run is moved to its midnight and the latest run to the next midnight before `createChart` reads them. With a single run, both ends are the same object, which ends on the next midnight. | runs of "A": a success at 2024-01-01T10:00Z and a failure at 2024-01-01T15:00Z. As written, the chart of "A" has labels 01-01, 01-02, 01-03 with successes [1, 0, 0] and failures [0, 1, 0]. With the success alone, the title reads from 01-02 to 01-02. | the title computed on copies: the chart has labels 01-01 and 01-02 with successes [1, 0] and failures [1, 0], every run is counted on its own day, and one run's title reads from 01-01 to 01-02 | high; not executed | Findings.AsWrittenMovesLatestRun, Findings.AsWrittenTitleOfOneRun, Process.ProcessDataAsWritten | Findings.IntendedKeepsRunsOnTheirDay, Findings.IntendedTitleOfOneRun, Process.RunCountedOnItsDay, Process.ProcessData |
