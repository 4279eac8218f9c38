# CI run metrics: month buckets, step table and chart series

This project models the metrics pipeline of the pipeline-metrics page
(`frontend/src/pages/Mvpmetrics.js`). It starts from the workflow runs the
page fetches for a repository. It sorts them by creation time. It groups them
into month buckets, which count successes and failures and keep run times and
averages. It tabulates every step name with its totals. Last, it flattens
these results into the parallel arrays that the charts read.

The pipeline is written in two styles, and the model keeps both:

- **The pure helpers are Dafny functions.** These are `createMonthYear`,
  `getMonthDate`, `timeDifSeconds`, `calcAvg` and `eachRunTime`.
- **The stateful parts are a class.** The module-level variables
  `shapedMetrics`, `stepMetrics` and `chartData` become the fields of
  `Metrics.MetricsPage`. `shapedMetrics` and `chartData` are objects of their
  own classes.
  - The `forEach` loops of `reformatData`, `reformatSteps`, `genChartData`
    and `genChartStepData` become methods with `while` loops. Each callback is
    a method of its own.
  - `sortRuns` is an in-place insertion sort on an `array<Run>`.
  - `resetChartData` and `resetShapedMetrics` assign fresh objects.

Every loop is proved against a specification function of its input:

- `MonthBuckets.Aggregate`: the buckets after a list of runs.
- `StepStats.StepTable`: the step entries after a list of steps.
- `Series.Map`, `Series.Deviations`, `Series.Repeat` and
  `MonthBuckets.SumOver`: the chart series.

Lemmas then prove what these functions guarantee. They are checked against
reference definitions computed from the runs alone:

- `RunsIn`: the runs of one month.
- `CountSuccess` and `CountFailure`: the conclusions counted.
- `Occurrences` and `Successes`: how often a step name occurs, and how often
  it succeeds.
- `FirstIndexOf`: first-seen order.

Modules, one per file:

| file | module | contents |
|---|---|---|
| options.dfy | Options | `Option`, standing for JavaScript `null` |
| timestamps.dfy | Timestamps | timestamp record, month key and label, `timeDifSeconds`, `eachRunTime` and a parser for its labels |
| averages.dfy | Averages | `calcAvg`, with `toFixed(1)` as `RoundTenths` |
| runs.dfy | Runs | run and step records, run duration, label and key |
| first_seen.dfy | FirstSeen | first-seen order of names |
| month_buckets.dfy | MonthBuckets | buckets as a function of the runs, with their properties |
| step_stats.dfy | StepStats | step table as a function of the steps, with its properties; step ratios |
| sort_runs.dfy | Sorting | `sortRuns` |
| series.dfy | Series | the chart series as functions of buckets and entries |
| metrics_page.dfy | Metrics | the module state and the functions that fill it, in `fetchData`'s order |

## Model

| member | source | states |
|---|---|---|
| Timestamps.YearSuffixIdentifiesYear | frontend/src/pages/Mvpmetrics.js:174 | For years from 10 on, two years get the same two-character suffix if and only if they agree modulo 100. So '24 and '25 differ, but 1924 and 2024 collide. |
| Timestamps.MonthKeyIdentifiesMonth | frontend/src/pages/Mvpmetrics.js:187-192 | Two timestamps get the same month key if and only if they fall in the same month and their years have the same suffix. |
| Timestamps.SameKeySameLabel | frontend/src/pages/Mvpmetrics.js:171-192 | Timestamps with the same key get the same display label, so the first run of a month fixes a label that every later run of that month would also produce. |
| Timestamps.GetMonthDate | frontend/src/pages/Mvpmetrics.js:187-192 | The bucket key: the lower-case month name followed by the year's last two characters. `MonthKeyIdentifiesMonth` proves which timestamps share a key. |
| Timestamps.MonthLabel | frontend/src/pages/Mvpmetrics.js:173-177 | The bucket label "Month 'YY". `SameKeySameLabel` proves that timestamps sharing a key share a label. |
| Timestamps.EachRunTime | frontend/src/pages/Mvpmetrics.js:209-229 | The run label: month and day unpadded, hours and minutes on two digits. `EachRunTimeRoundTrip` proves that it reads back. |
| Timestamps.TimeDifSeconds | frontend/src/pages/Mvpmetrics.js:194-198 | The difference is negative exactly when the end comes before the start, and zero exactly when the two are equal. It is never clamped. |
| Timestamps.TimeDifSecondsAlgebra | frontend/src/pages/Mvpmetrics.js:194-198 | Swapping the ends negates the difference, and consecutive differences add up. |
| Timestamps.Pad2 | frontend/src/pages/Mvpmetrics.js:224-225 | The padded numeral is at least two digits long, and exactly two digits for numbers below 100. |
| Timestamps.EachRunTimeRoundTrip | frontend/src/pages/Mvpmetrics.js:209-229 | Reading a run label back as "M/D HH:MM" gives the timestamp's month, day, hour and minute. |
| Averages.Sum | frontend/src/pages/Mvpmetrics.js:204 | The `reduce` sum, accumulated left to right from 0. `SumBounds` bounds it by the smallest and largest terms. |
| Averages.RoundTenths | frontend/src/pages/Mvpmetrics.js:206 | The result is a whole number of tenths within half a tenth of the input. A tie goes away from zero. |
| Averages.RoundTenthsKeepsTenths | frontend/src/pages/Mvpmetrics.js:206 | A value already in tenths is unchanged by rounding. |
| Averages.RoundTenthsMonotone | frontend/src/pages/Mvpmetrics.js:206 | Rounding preserves order. |
| Averages.CalcAvg | frontend/src/pages/Mvpmetrics.js:200-207 | Exactly 0 for an empty list. Otherwise a whole number of tenths within 0.05 of the arithmetic mean. |
| Averages.CalcAvgWithinBounds | frontend/src/pages/Mvpmetrics.js:200-207 | When every duration lies between two bounds given in tenths, so does the average. |
| MonthBuckets.CreateMonthYear | frontend/src/pages/Mvpmetrics.js:171-185 | A fresh bucket has no run times, a null average, a null ISO date and zero counters. Its name is `getMonthDate` of the same timestamp, and its label is "Month 'YY". |
| MonthBuckets.TallyCounts | frontend/src/pages/Mvpmetrics.js:55-62 | Counting a conclusion in a bucket (`Tally`) moves at most one counter, by one, and `total` by the same amount. `failure` moves exactly for 'failure' and 'cancelled', `success` exactly for 'success'. Nothing else in the bucket changes. |
| MonthBuckets.RecordRunTime | frontend/src/pages/Mvpmetrics.js:68-70 | Appends the run time and recomputes the bucket's average from all its run times. `AggregateAveragesCurrent` proves that the average stays current. |
| MonthBuckets.AddRun | frontend/src/pages/Mvpmetrics.js:38-74 | One loop turn on the buckets: find or create the run's bucket, then `Tally` and `RecordRunTime` in it. `AddRunShape` states the two cases. |
| MonthBuckets.Aggregate | frontend/src/pages/Mvpmetrics.js:38-75 | The buckets after visiting the runs in order. Its properties are `AggregateKeysUnique`, `AggregateFirstSeenOrder`, `AggregateSummarises` and `AggregateTotals`. |
| MonthBuckets.FindBucket | frontend/src/pages/Mvpmetrics.js:44 | Returns the first bucket with the name. Returns none if and only if no bucket has it. |
| MonthBuckets.AggregateKeysUnique | frontend/src/pages/Mvpmetrics.js:38-54 | After the runs are added, bucket names are pairwise distinct, and every run's key names a bucket. |
| MonthBuckets.SameBucketIffSameMonth | frontend/src/pages/Mvpmetrics.js:39-54 | Two runs land in the same bucket if and only if they started in the same month of years with the same suffix. |
| MonthBuckets.AggregateFirstSeenOrder | frontend/src/pages/Mvpmetrics.js:44-50 | Buckets follow the first occurrence of their month key among the runs. |
| MonthBuckets.AggregateSummarises | frontend/src/pages/Mvpmetrics.js:38-75 | Each bucket holds exactly the runs of its month. Their number is at least one. It has the label of the first of them and their durations in input order. It counts their successes and their failures ('failure' or 'cancelled'), with total equal to success plus failure. Its average is `calcAvg` of its run times, and its ISO date is null. |
| MonthBuckets.AggregateAveragesCurrent | frontend/src/pages/Mvpmetrics.js:68-70 | After every insert, each bucket's average is `calcAvg` of its run times, and no bucket gets an ISO date, since line 49 is commented out. |
| MonthBuckets.AggregateTotals | frontend/src/pages/Mvpmetrics.js:55-69 | Summed over the buckets, failures count the failed runs and successes count the successful runs. The run-time lists together hold one entry per run. |
| StepStats.CountStepCounts | frontend/src/pages/Mvpmetrics.js:98-106 | Counting a step (`CountStep`) adds one to `total` and one to exactly one of `success` and `fail`: to `success` exactly when the conclusion is 'success'. |
| StepStats.AddStep | frontend/src/pages/Mvpmetrics.js:84-106 | One inner-loop turn: find or create the step's entry, then `CountStep` in it. `AddStepNames` proves that names are kept, found and distinct. |
| StepStats.StepTable | frontend/src/pages/Mvpmetrics.js:82-107 | The entries after visiting the steps in order. Its properties are `StepTableNamesUnique`, `StepTableFirstSeenOrder` and `StepTableTallies`. |
| StepStats.FindStep | frontend/src/pages/Mvpmetrics.js:85 | Returns the first entry with the step name. Returns none if and only if no entry has it. |
| StepStats.StepTableNamesUnique | frontend/src/pages/Mvpmetrics.js:84-96 | Entry names are pairwise distinct, and every step visited has an entry. |
| StepStats.StepTableFirstSeenOrder | frontend/src/pages/Mvpmetrics.js:84-96 | Entries follow the first occurrence of their step name, and each entry's name occurs. |
| StepStats.StepTableTallies | frontend/src/pages/Mvpmetrics.js:98-106 | Each entry's total is the number of occurrences of its name, which is at least 1. Its success count is the occurrences that concluded 'success', and its fail count is all the others. |
| StepStats.Ratio | frontend/src/pages/Mvpmetrics.js:146-147 | `part / total` is a number exactly when total is positive, and that number times total gives part back. A zero total gives none, standing for NaN or Infinity. |
| StepStats.StepRatiosSumToOne | frontend/src/pages/Mvpmetrics.js:146-147 | For every entry of the table, both ratios are numbers in [0, 1] and they add up to 1. |
| Sorting.InsertLast | frontend/src/pages/Mvpmetrics.js:232-236 | One insertion step. The prefix up to `i` becomes ordered by `created_at`, the array stays a permutation, later cells stay put, and an ordered prefix is left untouched. |
| Sorting.SortRuns | frontend/src/pages/Mvpmetrics.js:231-237 | Returns the same array, reordered in place. It becomes non-decreasing by `created_at` and a permutation of its old contents; input already in order stays exactly as it was. |
| Runs.RunDuration | frontend/src/pages/Mvpmetrics.js:65-67 | From the first step's start to the last step's completion, in seconds. It is negative exactly when the last step completed before the first started, and zero exactly when the two coincide. |
| Runs.RunLabelReadsBack | frontend/src/pages/Mvpmetrics.js:72 | A run's label reads back as the month, day, hour and minute at which its first step started. |
| Series.Deviation | frontend/src/pages/Mvpmetrics.js:133 | One bar: `calcAvg` of the bucket's run times minus the lifetime average, with null read as 0. `DeviationsAreMonthAvgMinusLifetime` relates it to the stored average. |
| Series.AggregateIsoDatesNull | frontend/src/pages/Mvpmetrics.js:128 | The `monthIso` series built from the buckets is all nulls. |
| Series.DeviationsAreMonthAvgMinusLifetime | frontend/src/pages/Mvpmetrics.js:133 | For the buckets `reformatData` builds, each bar is that bucket's stored average minus the lifetime average. |
| Metrics.ShapedMetrics.constructor | frontend/src/pages/Mvpmetrics.js:115-119 | Empty run list and month list, and a null lifetime average. |
| Metrics.ChartData.constructor | frontend/src/pages/Mvpmetrics.js:152-166 | Every series is empty and the pie is [0, 0]. |
| Metrics.MetricsPage.constructor | frontend/src/pages/Mvpmetrics.js:115-166 | The module's initial state: empty `shapedMetrics`, empty `stepMetrics` and empty `chartData`. |
| Metrics.MetricsPage.ResetChartData | frontend/src/pages/Mvpmetrics.js:239-255 | `chartData` becomes a new empty object. The other variables keep their values. |
| Metrics.MetricsPage.ResetShapedMetrics | frontend/src/pages/Mvpmetrics.js:257-263 | `shapedMetrics` becomes a new empty object. `stepMetrics` and `chartData` keep their values. |
| Metrics.MetricsPage.ReformatData | frontend/src/pages/Mvpmetrics.js:35-77 | `monthData` is `Aggregate(runs)`. `lifetimeRuns` and the all-runs series each gain one duration or label per run, in input order. The lifetime average is `calcAvg` of all of `lifetimeRuns`. No other chart series changes. |
| Metrics.MetricsPage.ReformatRun | frontend/src/pages/Mvpmetrics.js:38-74 | One loop turn: the buckets become `AddRun` of the old buckets, and the lifetime and all-runs series gain this run's duration and label. `monthData`, the lifetime average and the month and step series are unchanged. |
| Metrics.MetricsPage.FindOrCreateMonth | frontend/src/pages/Mvpmetrics.js:39-54 | Returns the index of the run's month bucket. If the month was missing, a fresh bucket is appended first; otherwise the list is unchanged. |
| Metrics.MetricsPage.CountConclusion | frontend/src/pages/Mvpmetrics.js:55-62 | The bucket counted as `Tally` specifies. 'failure' and 'cancelled' increment failure and total, 'success' increments success and total, and anything else changes nothing. |
| Metrics.MetricsPage.ReformatSteps | frontend/src/pages/Mvpmetrics.js:79-112 | `stepMetrics` is the step table of every step of every run, in run order and step order. The other variables keep their objects. |
| Metrics.MetricsPage.CountRunSteps | frontend/src/pages/Mvpmetrics.js:83-107 | The inner loop: the table of the steps seen so far becomes the table of those steps followed by this run's steps. |
| Metrics.MetricsPage.CountStepIn | frontend/src/pages/Mvpmetrics.js:84-106 | One step is counted as `AddStep` specifies: find or create its entry, add 1 to total, then add 1 to success for 'success' and to fail otherwise. |
| Metrics.MetricsPage.GenChartData | frontend/src/pages/Mvpmetrics.js:125-140 | Each month series gains one element per bucket, in bucket order. The pie gains the buckets' summed failures and successes, each bar is the bucket's average minus the lifetime average (null read as 0), and the straight line repeats the lifetime average. The run and step series are unchanged. |
| Metrics.MetricsPage.AddMonthToChart | frontend/src/pages/Mvpmetrics.js:126-135 | One bucket's label, ISO date, counts, deviation, lifetime average and average are appended, and its counts are added to the pie. |
| Metrics.MetricsPage.GenChartStepData | frontend/src/pages/Mvpmetrics.js:143-149 | The step series gain each entry's name, fail ratio and success ratio, in table order. The other series are unchanged. |
| Metrics.MetricsPage.AddStepToChart | frontend/src/pages/Mvpmetrics.js:144-148 | One entry's name, fail ratio and success ratio are appended to the step series. The other series are unchanged. |
| Metrics.MetricsPage.Refresh | frontend/src/pages/Mvpmetrics.js:618-625 | After `fetchData`'s sequence, only the page and the runs array have changed: the objects held before the resets are untouched. The runs array is sorted by `created_at` and a permutation of what it held. Every variable is the function of the sorted runs that `Shows` states. The pie is [failed runs, successful runs], each bar is its bucket's average minus the lifetime average, `monthIso` is all nulls, and every step's two ratios are numbers that add up to 1. |
| Metrics.MetricsPage.Rebuild | frontend/src/pages/Mvpmetrics.js:620-625 | From the reset state, on runs already sorted, the three aggregations leave the page showing exactly those runs. |
| Metrics.MetricsPage.GenCharts | frontend/src/pages/Mvpmetrics.js:624-625 | From empty month and step series, the two chart builders make them show `monthData`, the lifetime average and `stepMetrics`. |
| Metrics.ShownFacts | frontend/src/pages/Mvpmetrics.js:131-147 | Facts about a page that shows a list of runs: the pie counts the failed and successful runs, each bar is the bucket's average minus the lifetime average, `monthIso` is all nulls, and each step's ratios are numbers summing to 1. |

## Left out

- The React component, its state hooks, form handlers and cookie parsing are not part of this model. They are UI plumbing.
- The network calls (`fetch` to GitHub, `axios.get` in `fetchData`) are left out. `Refresh` takes the array of runs they return as a parameter. The `console.log` calls are left out too.
- The Chart.js configuration is left out: datasets, colours, `transparentize`, the animation delay and the axis bounds.
- The in-place `.reverse()` of `labels` and `horizBarData` when the horizontal bar chart is set (lines 681 and 685) is left out. It is a display-side mutation after the pipeline has finished.
- `Date` parsing, `toLocaleString`, the local time zone and the `get*` accessors are abstracted by the `Timestamp` record. The record holds local calendar fields plus epoch milliseconds, and a fixed table of English month names. Years are natural numbers; negative years are not modelled.
- Numbers are exact reals, not IEEE doubles. `toFixed(1)` followed by `parseFloat` is rounding to the nearest tenth with ties away from zero, with no binary-representation effects. A division by zero is `None` rather than NaN or Infinity.
- The sentinel branch at lines 41-43 is not modelled. Its result is always overwritten by lines 47-54.
- Metrics.MetricsPage.Refresh: requires every run to have at least one step. The source reads `run.steps[0]` unguarded (lines 65-66) and throws on an empty list. Skipping such runs with a warning would be a different behaviour; the model follows the code.
- Metrics.MetricsPage.ReformatData: requires every run to have at least one step, for the same reason as `Refresh`.
- Sorting.SortRuns: does not state stability. It proves order and permutation, but not that runs created at the same millisecond keep their relative order.
- Buckets and step entries are values in the model. The source mutates the object that `find` returned, and the model stores the updated value back at its index. The only alias of that object is its slot in the local array, so nothing observable is lost.
- Resets assign fresh objects. Any earlier object that React state may still hold is not touched, and the model does not track those outside holders.
- Behaviours that a more defensive version of the page might handle differently, modelled as the code does them:
  - The step ratios of a zero-total entry are NaN (`None`), not 0. Such an entry cannot occur (`StepStats.StepTableTallies`).
  - The lifetime average is null after a reset until `reformatData` sets it to `calcAvg` (0 for no runs).
  - The `monthIso` series holds only nulls, because the line that would set the ISO date is commented out.
