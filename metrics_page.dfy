/**
 * The module-level state of the metrics page (Mvpmetrics.js, lines 115-166)
 * and the functions that fill it: reformatData, reformatSteps, genChartData,
 * genChartStepData, resetChartData, resetShapedMetrics, and the order in which
 * fetchData calls them once the runs have arrived (lines 618-623).
 */
module Metrics {
  import opened Options
  import opened Timestamps
  import opened Averages
  import opened Runs
  import opened MonthBuckets
  import opened StepStats
  import opened Sorting
  import opened Series

  /** `shapedMetrics` (lines 115-119). */
  class ShapedMetrics {
    var lifetimeRuns: seq<real>
    var monthData: seq<MonthBucket>
    var lifetimeAvg: Option<real>

    constructor()
      ensures lifetimeRuns == [] && monthData == [] && lifetimeAvg == None
    {
      lifetimeRuns := [];
      monthData := [];
      lifetimeAvg := None;
    }
  }

  /** `chartData` (lines 152-166); `pieData` is the pair [failures, successes]. */
  class ChartData {
    var labels: seq<string>
    var success: seq<nat>
    var failure: seq<nat>
    var pieData: (nat, nat)
    var horizBarData: seq<real>
    var straightLine: seq<Option<real>>
    var monthAvg: seq<Option<real>>
    var eachRunLabel: seq<string>
    var eachRunDuration: seq<real>
    var monthIso: seq<Option<Timestamp>>
    var stepLabels: seq<string>
    var stepFailPct: seq<Option<real>>
    var stepSuccPct: seq<Option<real>>

    predicate IsEmpty()
      reads this
    {
      labels == [] && success == [] && failure == [] && pieData == (0, 0)
      && horizBarData == [] && straightLine == [] && monthAvg == []
      && eachRunLabel == [] && eachRunDuration == [] && monthIso == []
      && stepLabels == [] && stepFailPct == [] && stepSuccPct == []
    }

    constructor()
      ensures IsEmpty()
    {
      labels, success, failure, pieData := [], [], [], (0, 0);
      horizBarData, straightLine, monthAvg := [], [], [];
      eachRunLabel, eachRunDuration, monthIso := [], [], [];
      stepLabels, stepFailPct, stepSuccPct := [], [], [];
    }
  }

  /** The three module-level variables the page's metrics live in. */
  class MetricsPage {
    var shapedMetrics: ShapedMetrics
    var stepMetrics: seq<StepStat>
    var chartData: ChartData

    /** The state the module starts in (lines 115-122 and 152-166). */
    constructor()
      ensures fresh(shapedMetrics) && fresh(chartData)
      ensures shapedMetrics.lifetimeRuns == [] && shapedMetrics.monthData == [] && shapedMetrics.lifetimeAvg == None
      ensures stepMetrics == []
      ensures chartData.IsEmpty()
    {
      shapedMetrics := new ShapedMetrics();
      stepMetrics := [];
      chartData := new ChartData();
    }

    /**
     * resetChartData (lines 239-255): `chartData` becomes a new, empty object;
     * the old one, which earlier chart states may still hold, is not touched.
     */
    method ResetChartData()
      modifies this
      ensures fresh(chartData) && chartData.IsEmpty()
      ensures shapedMetrics == old(shapedMetrics) && stepMetrics == old(stepMetrics)
    {
      chartData := new ChartData();
    }

    /**
     * resetShapedMetrics (lines 257-263): `shapedMetrics` becomes a new, empty
     * object.  `stepMetrics` is not reset here.
     */
    method ResetShapedMetrics()
      modifies this
      ensures fresh(shapedMetrics)
      ensures shapedMetrics.lifetimeRuns == [] && shapedMetrics.monthData == [] && shapedMetrics.lifetimeAvg == None
      ensures chartData == old(chartData) && stepMetrics == old(stepMetrics)
    {
      shapedMetrics := new ShapedMetrics();
    }

    /**
     * reformatData (lines 35-77).  The month buckets are `Aggregate(runs)`;
     * every run's duration is appended to `lifetimeRuns` and to the all-runs
     * series, its label to the all-runs labels; the lifetime average is the
     * average of all of `lifetimeRuns`, including what it held before.
     */
    method ReformatData(runs: seq<Run>)
      requires AllHaveSteps(runs)
      modifies shapedMetrics, chartData
      ensures shapedMetrics.monthData == Aggregate(runs)
      ensures shapedMetrics.lifetimeRuns == old(shapedMetrics.lifetimeRuns) + Durations(runs)
      ensures shapedMetrics.lifetimeAvg == Some(CalcAvg(shapedMetrics.lifetimeRuns))
      ensures chartData.eachRunLabel == old(chartData.eachRunLabel) + RunLabels(runs)
      ensures chartData.eachRunDuration == old(chartData.eachRunDuration) + Durations(runs)
      ensures unchanged(chartData`labels, chartData`success, chartData`failure, chartData`pieData)
      ensures unchanged(chartData`horizBarData, chartData`straightLine, chartData`monthAvg, chartData`monthIso)
      ensures unchanged(chartData`stepLabels, chartData`stepFailPct, chartData`stepSuccPct)
    {
      ghost var lifetimeRuns0 := shapedMetrics.lifetimeRuns;
      ghost var eachRunLabel0, eachRunDuration0 := chartData.eachRunLabel, chartData.eachRunDuration;
      var monthDataArr: seq<MonthBucket> := [];
      var k := 0;
      while k < |runs|
        invariant 0 <= k <= |runs|
        invariant AllHaveSteps(runs[..k])
        invariant monthDataArr == Aggregate(runs[..k])
        invariant shapedMetrics.lifetimeRuns == lifetimeRuns0 + Durations(runs[..k])
        invariant chartData.eachRunLabel == eachRunLabel0 + RunLabels(runs[..k])
        invariant chartData.eachRunDuration == eachRunDuration0 + Durations(runs[..k])
        invariant unchanged(chartData`labels, chartData`success, chartData`failure, chartData`pieData)
        invariant unchanged(chartData`horizBarData, chartData`straightLine, chartData`monthAvg, chartData`monthIso)
        invariant unchanged(chartData`stepLabels, chartData`stepFailPct, chartData`stepSuccPct)
      {
        monthDataArr := ReformatRun(monthDataArr, runs[k]);
        PrefixSnoc(runs, k);
        AppendSnoc(lifetimeRuns0, Durations(runs[..k]), RunDuration(runs[k]));
        AppendSnoc(eachRunLabel0, RunLabels(runs[..k]), RunLabel(runs[k]));
        AppendSnoc(eachRunDuration0, Durations(runs[..k]), RunDuration(runs[k]));
        k := k + 1;
      }
      assert runs[..k] == runs;
      shapedMetrics.monthData := monthDataArr;
      shapedMetrics.lifetimeAvg := Some(CalcAvg(shapedMetrics.lifetimeRuns));
    }

    /**
     * The callback reformatData runs for each run (lines 39-72): find the
     * run's bucket in `monthDataArr` or append a new one, count and time the
     * run in it, and append the run's duration and label to the lifetime and
     * all-runs series.  The bucket is a value here, so the updated bucket is
     * stored back at its index where the source mutates the shared object.
     */
    method ReformatRun(monthDataArr: seq<MonthBucket>, run: Run) returns (arr: seq<MonthBucket>)
      requires |run.steps| > 0
      modifies shapedMetrics, chartData
      ensures arr == AddRun(monthDataArr, run)
      ensures shapedMetrics.lifetimeRuns == old(shapedMetrics.lifetimeRuns) + [RunDuration(run)]
      ensures unchanged(shapedMetrics`monthData, shapedMetrics`lifetimeAvg)
      ensures chartData.eachRunLabel == old(chartData.eachRunLabel) + [RunLabel(run)]
      ensures chartData.eachRunDuration == old(chartData.eachRunDuration) + [RunDuration(run)]
      ensures unchanged(chartData`labels, chartData`success, chartData`failure, chartData`pieData)
      ensures unchanged(chartData`horizBarData, chartData`straightLine, chartData`monthAvg, chartData`monthIso)
      ensures unchanged(chartData`stepLabels, chartData`stepFailPct, chartData`stepSuccPct)
    {
      var at: nat;
      arr, at := FindOrCreateMonth(monthDataArr, run.startedAt);
      ghost var found := arr[at];
      var monthObj := CountConclusion(arr[at], run.conclusion);
      var workFlowStart := run.steps[0].startedAt;
      var workFlowEnd := run.steps[|run.steps| - 1].completedAt;
      var runTime := TimeDifSeconds(workFlowStart, workFlowEnd);
      monthObj := monthObj.(runTimes := monthObj.runTimes + [runTime]);
      shapedMetrics.lifetimeRuns := shapedMetrics.lifetimeRuns + [runTime];
      monthObj := monthObj.(monthAvg := Some(CalcAvg(monthObj.runTimes)));
      assert monthObj == Updated(found, run);
      arr := arr[at := monthObj];
      AddRunShape(monthDataArr, run);
      if at == |monthDataArr| {
        ReplaceLast(monthDataArr, found, monthObj);
      }
      chartData.eachRunLabel := chartData.eachRunLabel + [EachRunTime(workFlowStart)];
      chartData.eachRunDuration := chartData.eachRunDuration + [runTime];
    }

    /**
     * Lines 39-53: the index of the bucket named like the month of `t`, after
     * appending a new bucket for that month when there was none.
     */
    static method FindOrCreateMonth(monthDataArr: seq<MonthBucket>, t: Timestamp) returns (arr: seq<MonthBucket>, at: nat)
      ensures at < |arr|
      ensures FindBucket(monthDataArr, GetMonthDate(t)).None? ==>
                arr == monthDataArr + [CreateMonthYear(t)] && at == |monthDataArr|
      ensures FindBucket(monthDataArr, GetMonthDate(t)).Some? ==>
                arr == monthDataArr && at == FindBucket(monthDataArr, GetMonthDate(t)).value
    {
      arr := monthDataArr;
      var runMonthYear := GetMonthDate(t);
      var existingMonth := FindBucket(arr, runMonthYear);
      if existingMonth.None? {
        var monthObj := CreateMonthYear(t);
        arr := arr + [monthObj];
        at := |arr| - 1;
      } else {
        at := existingMonth.value;
      }
    }

    /** Lines 54-62: count the run's conclusion in its bucket. */
    static method CountConclusion(monthObj: MonthBucket, conclusion: string) returns (counted: MonthBucket)
      ensures counted == Tally(monthObj, conclusion)
    {
      counted := monthObj;
      if conclusion == "cancelled" || conclusion == "failure" {
        counted := counted.(failure := counted.failure + 1, total := counted.total + 1);
      } else if conclusion == "success" {
        counted := counted.(success := counted.success + 1, total := counted.total + 1);
      }
    }

    /**
     * reformatSteps (lines 79-112): `stepMetrics` becomes the table of every
     * step of every run, visited run by run and step by step.
     */
    method ReformatSteps(runs: seq<Run>)
      modifies this
      ensures stepMetrics == StepTable(AllSteps(runs))
      ensures shapedMetrics == old(shapedMetrics) && chartData == old(chartData)
    {
      var stepDataArr: seq<StepStat> := [];
      var k := 0;
      while k < |runs|
        invariant 0 <= k <= |runs|
        invariant stepDataArr == StepTable(AllSteps(runs[..k]))
        invariant shapedMetrics == old(shapedMetrics) && chartData == old(chartData)
      {
        stepDataArr := CountRunSteps(stepDataArr, runs[k].steps, AllSteps(runs[..k]));
        assert runs[..k + 1][..k] == runs[..k];
        k := k + 1;
      }
      assert runs[..k] == runs;
      stepMetrics := stepDataArr;
    }

    /**
     * The inner `forEach` of reformatSteps (lines 84-107): the run's steps
     * counted in order into the table built from the steps `done` before them.
     */
    static method CountRunSteps(stepDataArr: seq<StepStat>, steps: seq<Step>, ghost done: seq<Step>) returns (arr: seq<StepStat>)
      requires stepDataArr == StepTable(done)
      ensures arr == StepTable(done + steps)
    {
      arr := stepDataArr;
      var m := 0;
      assert done + steps[..m] == done;
      while m < |steps|
        invariant 0 <= m <= |steps|
        invariant arr == StepTable(done + steps[..m])
      {
        arr := CountStepIn(arr, steps[m]);
        StepTableSnoc(done, steps, m);
        m := m + 1;
      }
      assert steps[..m] == steps;
    }

    /**
     * The callback reformatSteps runs for each step (lines 85-107): find the
     * step's entry or append a new one, then count the step in it; anything
     * but `success` counts as a failure.
     */
    static method CountStepIn(stepDataArr: seq<StepStat>, step: Step) returns (arr: seq<StepStat>)
      ensures arr == AddStep(stepDataArr, step)
    {
      arr := stepDataArr;
      AddStepShape(arr, step);
      var existingStep := FindStep(arr, step.name);
      var entry: StepStat;
      var at: nat;
      if existingStep.None? {
        entry := StepStat(step.name, 0, 0, 0);
        arr := arr + [entry];
        at := |arr| - 1;
      } else {
        at := existingStep.value;
        entry := arr[at];
      }
      ghost var found := entry;
      entry := entry.(total := entry.total + 1);
      if step.conclusion != "success" {
        entry := entry.(fail := entry.fail + 1);
      } else if step.conclusion == "success" {
        entry := entry.(success := entry.success + 1);
      }
      assert entry == CountStep(found, step);
      arr := arr[at := entry];
    }

    /**
     * genChartData (lines 125-140): one element per bucket appended to each
     * month series, and the buckets' failures and successes added to the pie.
     */
    method GenChartData(arr: seq<MonthBucket>)
      modifies chartData
      ensures chartData.labels == old(chartData.labels) + Map(arr, LabelOf)
      ensures chartData.monthIso == old(chartData.monthIso) + Map(arr, IsoDateOf)
      ensures chartData.success == old(chartData.success) + Map(arr, SuccessOf)
      ensures chartData.failure == old(chartData.failure) + Map(arr, FailureOf)
      ensures chartData.pieData == (old(chartData.pieData.0) + SumOver(arr, FailureOf), old(chartData.pieData.1) + SumOver(arr, SuccessOf))
      ensures chartData.horizBarData == old(chartData.horizBarData) + Deviations(arr, shapedMetrics.lifetimeAvg)
      ensures chartData.straightLine == old(chartData.straightLine) + Repeat(shapedMetrics.lifetimeAvg, |arr|)
      ensures chartData.monthAvg == old(chartData.monthAvg) + Map(arr, MonthAvgOf)
      ensures unchanged(chartData`eachRunLabel, chartData`eachRunDuration)
      ensures unchanged(chartData`stepLabels, chartData`stepFailPct, chartData`stepSuccPct)
    {
      ghost var labels0, monthIso0, success0, failure0 := chartData.labels, chartData.monthIso, chartData.success, chartData.failure;
      ghost var pie0, horizBar0, straightLine0, monthAvg0 := chartData.pieData, chartData.horizBarData, chartData.straightLine, chartData.monthAvg;
      var lifetimeAvg := shapedMetrics.lifetimeAvg;
      var i := 0;
      while i < |arr|
        invariant 0 <= i <= |arr|
        invariant chartData.labels == labels0 + Map(arr[..i], LabelOf)
        invariant chartData.monthIso == monthIso0 + Map(arr[..i], IsoDateOf)
        invariant chartData.success == success0 + Map(arr[..i], SuccessOf)
        invariant chartData.failure == failure0 + Map(arr[..i], FailureOf)
        invariant chartData.pieData == (pie0.0 + SumOver(arr[..i], FailureOf), pie0.1 + SumOver(arr[..i], SuccessOf))
        invariant chartData.horizBarData == horizBar0 + Deviations(arr[..i], lifetimeAvg)
        invariant chartData.straightLine == straightLine0 + Repeat(lifetimeAvg, i)
        invariant chartData.monthAvg == monthAvg0 + Map(arr[..i], MonthAvgOf)
        invariant unchanged(chartData`eachRunLabel, chartData`eachRunDuration, chartData`stepLabels, chartData`stepFailPct, chartData`stepSuccPct)
      {
        var el := arr[i];
        AddMonthToChart(el, lifetimeAvg);
        MapPrefixSnoc(labels0, arr, i, LabelOf);
        MapPrefixSnoc(monthIso0, arr, i, IsoDateOf);
        MapPrefixSnoc(success0, arr, i, SuccessOf);
        MapPrefixSnoc(failure0, arr, i, FailureOf);
        SumOverPrefixSnoc(arr, i, FailureOf);
        SumOverPrefixSnoc(arr, i, SuccessOf);
        DeviationsPrefixSnoc(horizBar0, arr, i, lifetimeAvg);
        RepeatPrefixSnoc(straightLine0, lifetimeAvg, i);
        MapPrefixSnoc(monthAvg0, arr, i, MonthAvgOf);
        i := i + 1;
      }
      assert arr[..i] == arr;
    }

    /** The callback genChartData runs for each bucket (lines 127-135). */
    method AddMonthToChart(el: MonthBucket, lifetimeAvg: Option<real>)
      modifies chartData
      ensures chartData.labels == old(chartData.labels) + [el.monthLabel]
      ensures chartData.monthIso == old(chartData.monthIso) + [el.isoDate]
      ensures chartData.success == old(chartData.success) + [el.success]
      ensures chartData.failure == old(chartData.failure) + [el.failure]
      ensures chartData.pieData == (old(chartData.pieData.0) + el.failure, old(chartData.pieData.1) + el.success)
      ensures chartData.horizBarData == old(chartData.horizBarData) + [Deviation(el, lifetimeAvg)]
      ensures chartData.straightLine == old(chartData.straightLine) + [lifetimeAvg]
      ensures chartData.monthAvg == old(chartData.monthAvg) + [el.monthAvg]
      ensures unchanged(chartData`eachRunLabel, chartData`eachRunDuration)
      ensures unchanged(chartData`stepLabels, chartData`stepFailPct, chartData`stepSuccPct)
    {
      chartData.labels := chartData.labels + [el.monthLabel];
      chartData.monthIso := chartData.monthIso + [el.isoDate];
      chartData.success := chartData.success + [el.success];
      chartData.failure := chartData.failure + [el.failure];
      chartData.pieData := (chartData.pieData.0 + el.failure, chartData.pieData.1 + el.success);
      chartData.horizBarData := chartData.horizBarData + [CalcAvg(el.runTimes) - NullAsZero(lifetimeAvg)];
      chartData.straightLine := chartData.straightLine + [lifetimeAvg];
      chartData.monthAvg := chartData.monthAvg + [el.monthAvg];
    }

    /**
     * genChartStepData (lines 143-149): each entry's name, failure ratio and
     * success ratio appended to the step series.
     */
    method GenChartStepData(arr: seq<StepStat>)
      modifies chartData
      ensures chartData.stepLabels == old(chartData.stepLabels) + Map(arr, StepNameOf)
      ensures chartData.stepFailPct == old(chartData.stepFailPct) + Map(arr, FailRatioOf)
      ensures chartData.stepSuccPct == old(chartData.stepSuccPct) + Map(arr, SuccessRatioOf)
      ensures unchanged(chartData`labels, chartData`success, chartData`failure, chartData`pieData)
      ensures unchanged(chartData`horizBarData, chartData`straightLine, chartData`monthAvg, chartData`monthIso)
      ensures unchanged(chartData`eachRunLabel, chartData`eachRunDuration)
    {
      var i := 0;
      while i < |arr|
        invariant 0 <= i <= |arr|
        invariant chartData.stepLabels == old(chartData.stepLabels) + Map(arr[..i], StepNameOf)
        invariant chartData.stepFailPct == old(chartData.stepFailPct) + Map(arr[..i], FailRatioOf)
        invariant chartData.stepSuccPct == old(chartData.stepSuccPct) + Map(arr[..i], SuccessRatioOf)
        invariant unchanged(chartData`labels, chartData`success, chartData`failure, chartData`pieData)
        invariant unchanged(chartData`horizBarData, chartData`straightLine, chartData`monthAvg, chartData`monthIso)
        invariant unchanged(chartData`eachRunLabel, chartData`eachRunDuration)
      {
        var el := arr[i];
        assert arr[..i + 1] == arr[..i] + [el];
        MapSnoc(arr[..i], el, StepNameOf);
        MapSnoc(arr[..i], el, FailRatioOf);
        MapSnoc(arr[..i], el, SuccessRatioOf);
        AddStepToChart(el);
        i := i + 1;
      }
      assert arr[..i] == arr;
    }

    /** The callback genChartStepData runs for each entry (lines 145-147). */
    method AddStepToChart(el: StepStat)
      modifies chartData
      ensures chartData.stepLabels == old(chartData.stepLabels) + [el.name]
      ensures chartData.stepFailPct == old(chartData.stepFailPct) + [Ratio(el.fail, el.total)]
      ensures chartData.stepSuccPct == old(chartData.stepSuccPct) + [Ratio(el.success, el.total)]
      ensures unchanged(chartData`labels, chartData`success, chartData`failure, chartData`pieData)
      ensures unchanged(chartData`horizBarData, chartData`straightLine, chartData`monthAvg, chartData`monthIso)
      ensures unchanged(chartData`eachRunLabel, chartData`eachRunDuration)
    {
      chartData.stepLabels := chartData.stepLabels + [el.name];
      chartData.stepFailPct := chartData.stepFailPct + [Ratio(el.fail, el.total)];
      chartData.stepSuccPct := chartData.stepSuccPct + [Ratio(el.success, el.total)];
    }

    /**
     * What the page holds once it has processed `runs`, starting from the
     * reset state: every part of the state as a function of the runs.
     */
    ghost predicate Shows(runs: seq<Run>)
      requires AllHaveSteps(runs)
      reads this, shapedMetrics, chartData
    {
      var months := Aggregate(runs);
      var steps := StepTable(AllSteps(runs));
      && shapedMetrics.monthData == months
      && shapedMetrics.lifetimeRuns == Durations(runs)
      && shapedMetrics.lifetimeAvg == Some(CalcAvg(Durations(runs)))
      && stepMetrics == steps
      && RunSeriesShow(runs)
      && MonthSeriesShow(months, Some(CalcAvg(Durations(runs))))
      && StepSeriesShow(steps)
    }

    /** The all-runs series hold every run's label and duration. */
    ghost predicate RunSeriesShow(runs: seq<Run>)
      requires AllHaveSteps(runs)
      reads this`chartData, chartData`eachRunLabel, chartData`eachRunDuration
    {
      chartData.eachRunLabel == RunLabels(runs) && chartData.eachRunDuration == Durations(runs)
    }

    /** The month series hold one element per bucket, and the pie the buckets' totals. */
    ghost predicate MonthSeriesShow(months: seq<MonthBucket>, lifetimeAvg: Option<real>)
      reads this`chartData, chartData`labels, chartData`success, chartData`failure, chartData`pieData
      reads chartData`horizBarData, chartData`straightLine, chartData`monthAvg, chartData`monthIso
    {
      && chartData.labels == Map(months, LabelOf)
      && chartData.success == Map(months, SuccessOf)
      && chartData.failure == Map(months, FailureOf)
      && chartData.pieData == (SumOver(months, FailureOf), SumOver(months, SuccessOf))
      && chartData.horizBarData == Deviations(months, lifetimeAvg)
      && chartData.straightLine == Repeat(lifetimeAvg, |months|)
      && chartData.monthAvg == Map(months, MonthAvgOf)
      && chartData.monthIso == Map(months, IsoDateOf)
    }

    /** The step series hold one element per step entry. */
    ghost predicate StepSeriesShow(steps: seq<StepStat>)
      reads this`chartData, chartData`stepLabels, chartData`stepFailPct, chartData`stepSuccPct
    {
      && chartData.stepLabels == Map(steps, StepNameOf)
      && chartData.stepFailPct == Map(steps, FailRatioOf)
      && chartData.stepSuccPct == Map(steps, SuccessRatioOf)
    }

    /**
     * What fetchData does with the runs it receives (lines 618-623): reset,
     * sort the runs in place, aggregate them, tabulate their steps and build
     * the chart series.  The page then shows the sorted runs; the pie holds
     * the failed and successful runs, each month's bar is its average minus
     * the lifetime average, the ISO-date series is all nulls, and every
     * step's two ratios are numbers adding up to 1.
     */
    method Refresh(runs: array<Run>)
      requires AllHaveSteps(runs[..])
      modifies this, runs
      ensures SortedByCreation(runs[..]) && multiset(runs[..]) == multiset(old(runs[..]))
      ensures AllHaveSteps(runs[..]) && Shows(runs[..])
      ensures fresh(shapedMetrics) && fresh(chartData)
      ensures chartData.pieData == (CountFailure(runs[..]), CountSuccess(runs[..]))
      ensures |chartData.horizBarData| == |shapedMetrics.monthData|
      ensures forall i :: 0 <= i < |chartData.horizBarData| ==>
                shapedMetrics.monthData[i].monthAvg.Some?
                && chartData.horizBarData[i] == shapedMetrics.monthData[i].monthAvg.value - shapedMetrics.lifetimeAvg.value
      ensures chartData.monthIso == Repeat(None, |shapedMetrics.monthData|)
      ensures |chartData.stepFailPct| == |chartData.stepSuccPct| == |stepMetrics|
      ensures forall i :: 0 <= i < |chartData.stepFailPct| ==>
                chartData.stepFailPct[i].Some? && chartData.stepSuccPct[i].Some?
                && chartData.stepFailPct[i].value + chartData.stepSuccPct[i].value == 1.0
    {
      ResetShapedMetrics();
      ResetChartData();
      var sorted := SortRuns(runs);
      AllHaveStepsPermutation(old(runs[..]), sorted[..]);
      Rebuild(sorted[..]);
      ShownFacts(this, sorted[..]);
    }

    /** Lines 620-623, from the reset state, on runs already sorted. */
    method Rebuild(runs: seq<Run>)
      requires AllHaveSteps(runs)
      requires shapedMetrics.lifetimeRuns == [] && chartData.IsEmpty()
      modifies this, shapedMetrics, chartData
      ensures shapedMetrics == old(shapedMetrics) && chartData == old(chartData)
      ensures Shows(runs)
    {
      ReformatData(runs);
      assert RunSeriesShow(runs);
      ReformatSteps(runs);
      GenCharts();
    }

    /** Lines 622-623: the chart series of the buckets and step entries just computed. */
    method GenCharts()
      requires chartData.labels == [] && chartData.success == [] && chartData.failure == [] && chartData.pieData == (0, 0)
      requires chartData.horizBarData == [] && chartData.straightLine == [] && chartData.monthAvg == [] && chartData.monthIso == []
      requires chartData.stepLabels == [] && chartData.stepFailPct == [] && chartData.stepSuccPct == []
      modifies chartData
      ensures MonthSeriesShow(shapedMetrics.monthData, shapedMetrics.lifetimeAvg)
      ensures StepSeriesShow(stepMetrics)
      ensures unchanged(chartData`eachRunLabel, chartData`eachRunDuration)
    {
      GenChartData(shapedMetrics.monthData);
      assert MonthSeriesShow(shapedMetrics.monthData, shapedMetrics.lifetimeAvg);
      GenChartStepData(stepMetrics);
    }
  }

  /** The consequences of `Shows` that the charts display. */
  lemma ShownFacts(page: MetricsPage, runs: seq<Run>)
    requires AllHaveSteps(runs) && page.Shows(runs)
    ensures page.chartData.pieData == (CountFailure(runs), CountSuccess(runs))
    ensures |page.chartData.horizBarData| == |page.shapedMetrics.monthData|
    ensures forall i :: 0 <= i < |page.chartData.horizBarData| ==>
              page.shapedMetrics.monthData[i].monthAvg.Some?
              && page.chartData.horizBarData[i]
                 == page.shapedMetrics.monthData[i].monthAvg.value - page.shapedMetrics.lifetimeAvg.value
    ensures page.chartData.monthIso == Repeat(None, |page.shapedMetrics.monthData|)
    ensures |page.chartData.stepFailPct| == |page.chartData.stepSuccPct| == |page.stepMetrics|
    ensures forall i :: 0 <= i < |page.chartData.stepFailPct| ==>
              page.chartData.stepFailPct[i].Some? && page.chartData.stepSuccPct[i].Some?
              && page.chartData.stepFailPct[i].value + page.chartData.stepSuccPct[i].value == 1.0
  {
    AggregateTotals(runs);
    AggregateIsoDatesNull(runs);
    DeviationsAreMonthAvgMinusLifetime(runs, CalcAvg(Durations(runs)));
    forall i | 0 <= i < |page.stepMetrics|
      ensures FailRatioOf(page.stepMetrics[i]).Some? && SuccessRatioOf(page.stepMetrics[i]).Some?
      ensures FailRatioOf(page.stepMetrics[i]).value + SuccessRatioOf(page.stepMetrics[i]).value == 1.0
    {
      StepRatiosSumToOne(AllSteps(runs), i);
    }
  }

  /** Replacing the element just appended. */
  lemma ReplaceLast<T>(s: seq<T>, x: T, y: T)
    ensures (s + [x])[|s| := y] == s + [y]
  {
  }

  lemma AppendSnoc<T>(front: seq<T>, back: seq<T>, x: T)
    ensures front + back + [x] == front + (back + [x])
  {
  }

  /** The prefixes reformatData's loop has visited grow one run at a time. */
  lemma PrefixSnoc(runs: seq<Run>, k: nat)
    requires k < |runs| && AllHaveSteps(runs[..k]) && |runs[k].steps| > 0
    ensures AllHaveSteps(runs[..k + 1])
    ensures runs[..k + 1][..k] == runs[..k] && runs[..k + 1][k] == runs[k]
    ensures Durations(runs[..k + 1]) == Durations(runs[..k]) + [RunDuration(runs[k])]
    ensures RunLabels(runs[..k + 1]) == RunLabels(runs[..k]) + [RunLabel(runs[k])]
  {
    assert runs[..k + 1] == runs[..k] + [runs[k]];
  }

  /** The steps reformatSteps has visited grow one step at a time. */
  lemma StepTableSnoc(done: seq<Step>, steps: seq<Step>, m: nat)
    requires m < |steps|
    ensures StepTable(done + steps[..m + 1]) == AddStep(StepTable(done + steps[..m]), steps[m])
  {
    var visited := done + steps[..m];
    assert steps[..m + 1] == steps[..m] + [steps[m]];
    assert done + steps[..m + 1] == visited + [steps[m]];
    StepTableAppend(visited, steps[m]);
  }

  /** Reordering the runs keeps every run's steps. */
  lemma AllHaveStepsPermutation(s: seq<Run>, t: seq<Run>)
    requires multiset(s) == multiset(t)
    requires AllHaveSteps(s)
    ensures AllHaveSteps(t)
  {
    forall k | 0 <= k < |t|
      ensures |t[k].steps| > 0
    {
      assert t[k] in multiset(s);
      var j :| 0 <= j < |s| && s[j] == t[k];
    }
  }
}
