/**
 * The chart series genChartData and genChartStepData (Mvpmetrics.js, lines
 * 125-149) append, one element per bucket or per step entry.
 */
module Series {
  import opened Options
  import opened Averages
  import opened MonthBuckets
  import opened StepStats

  /** One element per element of `s`, in order: what a `forEach` that pushes `f(el)` appends. */
  function Map<T, U>(s: seq<T>, f: T -> U): (r: seq<U>)
    ensures |r| == |s|
  {
    seq(|s|, i requires 0 <= i < |s| => f(s[i]))
  }

  lemma MapSnoc<T, U>(s: seq<T>, x: T, f: T -> U)
    ensures Map(s + [x], f) == Map(s, f) + [f(x)]
  {
  }

  /** A series grown by one more element of `s`, as the loops that fill it do. */
  lemma MapPrefixSnoc<T, U>(front: seq<U>, s: seq<T>, i: nat, f: T -> U)
    requires i < |s|
    ensures front + Map(s[..i + 1], f) == front + Map(s[..i], f) + [f(s[i])]
  {
    assert s[..i + 1] == s[..i] + [s[i]];
    MapSnoc(s[..i], s[i], f);
  }

  /** JavaScript's `number - null`: the null is read as 0. */
  function NullAsZero(x: Option<real>): real
  {
    match x
    case None => 0.0
    case Some(v) => v
  }

  function LabelOf(b: MonthBucket): string
  {
    b.monthLabel
  }

  function IsoDateOf(b: MonthBucket): Option<Timestamps.Timestamp>
  {
    b.isoDate
  }

  function MonthAvgOf(b: MonthBucket): Option<real>
  {
    b.monthAvg
  }

  /** Line 133: the bucket's average minus the lifetime average. */
  function Deviation(b: MonthBucket, lifetimeAvg: Option<real>): real
  {
    CalcAvg(b.runTimes) - NullAsZero(lifetimeAvg)
  }

  function Deviations(arr: seq<MonthBucket>, lifetimeAvg: Option<real>): (r: seq<real>)
    ensures |r| == |arr|
  {
    seq(|arr|, i requires 0 <= i < |arr| => Deviation(arr[i], lifetimeAvg))
  }

  /**
   * No bucket reformatData builds has an ISO date (the assignment at line 49
   * is commented out), so the `monthIso` series holds only nulls.
   */
  lemma AggregateIsoDatesNull(runs: seq<Runs.Run>)
    requires Runs.AllHaveSteps(runs)
    ensures Map(Aggregate(runs), IsoDateOf) == Repeat(None, |Aggregate(runs)|)
  {
    var arr := Aggregate(runs);
    AggregateAveragesCurrent(runs);
    var isos, nulls := Map(arr, IsoDateOf), Repeat(None, |arr|);
    forall i | 0 <= i < |arr|
      ensures isos[i] == nulls[i]
    {
      assert isos[i] == arr[i].isoDate;
    }
  }

  lemma DeviationsSnoc(arr: seq<MonthBucket>, b: MonthBucket, lifetimeAvg: Option<real>)
    ensures Deviations(arr + [b], lifetimeAvg) == Deviations(arr, lifetimeAvg) + [Deviation(b, lifetimeAvg)]
  {
  }

  lemma DeviationsPrefixSnoc(front: seq<real>, arr: seq<MonthBucket>, i: nat, lifetimeAvg: Option<real>)
    requires i < |arr|
    ensures front + Deviations(arr[..i + 1], lifetimeAvg) == front + Deviations(arr[..i], lifetimeAvg) + [Deviation(arr[i], lifetimeAvg)]
  {
    assert arr[..i + 1] == arr[..i] + [arr[i]];
    DeviationsSnoc(arr[..i], arr[i], lifetimeAvg);
  }

  lemma SumOverPrefixSnoc(arr: seq<MonthBucket>, i: nat, f: MonthBucket -> nat)
    requires i < |arr|
    ensures SumOver(arr[..i + 1], f) == SumOver(arr[..i], f) + f(arr[i])
  {
    assert arr[..i + 1][..i] == arr[..i];
  }

  /** Line 134: the lifetime average once per bucket. */
  function Repeat<T>(x: T, n: nat): (r: seq<T>)
    ensures |r| == n
  {
    seq(n, i requires 0 <= i < n => x)
  }

  lemma RepeatSnoc<T>(x: T, n: nat)
    ensures Repeat(x, n + 1) == Repeat(x, n) + [x]
  {
  }

  lemma RepeatPrefixSnoc<T>(front: seq<T>, x: T, n: nat)
    ensures front + Repeat(x, n + 1) == front + Repeat(x, n) + [x]
  {
    RepeatSnoc(x, n);
  }

  function StepNameOf(e: StepStat): string
  {
    e.name
  }

  function FailRatioOf(e: StepStat): Option<real>
  {
    Ratio(e.fail, e.total)
  }

  function SuccessRatioOf(e: StepStat): Option<real>
  {
    Ratio(e.success, e.total)
  }

  /**
   * On the buckets reformatData builds and the lifetime average it sets, the
   * deviation series is each bucket's stored average minus the lifetime
   * average.
   */
  lemma DeviationsAreMonthAvgMinusLifetime(runs: seq<Runs.Run>, lifetimeAvg: real)
    requires Runs.AllHaveSteps(runs)
    ensures var arr := Aggregate(runs);
      forall i :: 0 <= i < |arr| ==>
        arr[i].monthAvg.Some? && Deviations(arr, Some(lifetimeAvg))[i] == arr[i].monthAvg.value - lifetimeAvg
  {
    AggregateAveragesCurrent(runs);
  }
}
