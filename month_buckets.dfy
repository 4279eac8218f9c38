/**
 * The month buckets that reformatData (Mvpmetrics.js, lines 35-77) builds,
 * stated as a function of the runs it visits, and what every bucket holds
 * once all runs are in.
 */
module MonthBuckets {
  import opened Options
  import opened Timestamps
  import opened Averages
  import opened Runs
  import opened FirstSeen

  /** The object createMonthYear returns and reformatData updates. */
  datatype MonthBucket = MonthBucket(
    name: string,
    monthLabel: string,
    runTimes: seq<real>,
    monthAvg: Option<real>,
    success: nat,
    failure: nat,
    total: nat,
    isoDate: Option<Timestamp>)

  /**
   * createMonthYear: a bucket with no runs yet, named as getMonthDate names
   * the month of `t`, so that a later run of the month finds it.
   */
  function CreateMonthYear(t: Timestamp): (b: MonthBucket)
    ensures b.name == GetMonthDate(t) && b.monthLabel == MonthLabel(t)
    ensures b.runTimes == [] && b.monthAvg == None && b.isoDate == None
    ensures b.success == 0 && b.failure == 0 && b.total == 0
  {
    var month := MonthName(t.month);
    var year := YearSuffix(t.year);
    MonthBucket(ToLower(month) + year, month + " '" + year, [], None, 0, 0, 0, None)
  }

  predicate IsRunFailure(conclusion: string)
  {
    conclusion == "cancelled" || conclusion == "failure"
  }

  predicate IsRunSuccess(conclusion: string)
  {
    conclusion == "success"
  }

  /** Lines 55-62: `cancelled` and `failure` count as failures, `success` as a success, anything else not at all. */
  function Tally(b: MonthBucket, conclusion: string): MonthBucket
  {
    if IsRunFailure(conclusion) then b.(failure := b.failure + 1, total := b.total + 1)
    else if IsRunSuccess(conclusion) then b.(success := b.success + 1, total := b.total + 1)
    else b
  }

  /**
   * A conclusion moves at most one counter, by one, and `total` with it:
   * `failure` exactly for 'failure' and 'cancelled', `success` exactly for
   * 'success'.  Nothing else in the bucket changes.
   */
  lemma TallyCounts(b: MonthBucket, conclusion: string)
    ensures var t := Tally(b, conclusion);
      && (t.failure == b.failure + 1 <==> IsRunFailure(conclusion))
      && (t.success == b.success + 1 <==> IsRunSuccess(conclusion))
      && t.failure >= b.failure && t.success >= b.success
      && t.failure + t.success <= b.failure + b.success + 1
      && t.total - b.total == (t.failure - b.failure) + (t.success - b.success)
      && t.(failure := b.failure, success := b.success, total := b.total) == b
  {
    if IsRunFailure(conclusion) {
      assert !IsRunSuccess(conclusion);
    }
  }

  /** Lines 68 and 70: append the run time and recompute the bucket's average at once. */
  function RecordRunTime(b: MonthBucket, runTime: real): MonthBucket
  {
    var times := b.runTimes + [runTime];
    b.(runTimes := times, monthAvg := Some(CalcAvg(times)))
  }

  /** `monthDataArr.find(month => month.name === key)`, as an index. */
  function FindBucket(buckets: seq<MonthBucket>, key: string): (r: Option<nat>)
    ensures r.Some? ==> r.value < |buckets| && buckets[r.value].name == key
    ensures r.Some? ==> forall j :: 0 <= j < r.value ==> buckets[j].name != key
    ensures r.None? <==> forall j :: 0 <= j < |buckets| ==> buckets[j].name != key
  {
    if |buckets| == 0 then None
    else if buckets[0].name == key then Some(0)
    else match FindBucket(buckets[1..], key)
      case None => None
      case Some(i) => Some(i + 1)
  }

  /** One iteration of reformatData's loop: find or create the run's bucket, then count and time the run in it. */
  function AddRun(buckets: seq<MonthBucket>, run: Run): seq<MonthBucket>
    requires |run.steps| > 0
  {
    match FindBucket(buckets, RunKey(run))
    case None =>
      buckets + [RecordRunTime(Tally(CreateMonthYear(run.startedAt), run.conclusion), RunDuration(run))]
    case Some(i) =>
      buckets[i := RecordRunTime(Tally(buckets[i], run.conclusion), RunDuration(run))]
  }

  /** The buckets reformatData leaves in `monthDataArr` after visiting `runs` in order. */
  function Aggregate(runs: seq<Run>): seq<MonthBucket>
    requires AllHaveSteps(runs)
  {
    if |runs| == 0 then [] else AddRun(Aggregate(runs[..|runs| - 1]), runs[|runs| - 1])
  }

  // ---------------------------------------------------------------------------
  // Reference definitions: what a bucket should hold, computed from the runs alone

  /** The runs whose key is `key`, in input order. */
  function RunsIn(runs: seq<Run>, key: string): (mine: seq<Run>)
    ensures AllHaveSteps(runs) ==> AllHaveSteps(mine)
    ensures forall k :: 0 <= k < |mine| ==> RunKey(mine[k]) == key
  {
    if |runs| == 0 then []
    else
      var last := runs[|runs| - 1];
      RunsIn(runs[..|runs| - 1], key) + (if RunKey(last) == key then [last] else [])
  }

  function CountSuccess(runs: seq<Run>): nat
  {
    if |runs| == 0 then 0
    else CountSuccess(runs[..|runs| - 1]) + (if IsRunSuccess(runs[|runs| - 1].conclusion) then 1 else 0)
  }

  function CountFailure(runs: seq<Run>): nat
  {
    if |runs| == 0 then 0
    else CountFailure(runs[..|runs| - 1]) + (if IsRunFailure(runs[|runs| - 1].conclusion) then 1 else 0)
  }

  /**
   * A bucket holds exactly what the runs `mine` of its month give: at least
   * one run, their label, their durations in input order, their conclusions
   * counted, and the average of those durations.
   */
  predicate Holds(b: MonthBucket, mine: seq<Run>)
    requires AllHaveSteps(mine)
  {
    |mine| > 0
    && b.monthLabel == MonthLabel(mine[0].startedAt)
    && b.runTimes == Durations(mine)
    && b.success == CountSuccess(mine)
    && b.failure == CountFailure(mine)
    && b.total == b.success + b.failure
    && b.monthAvg == Some(CalcAvg(b.runTimes))
    && b.isoDate == None
  }

  /** A bucket summarises the runs of `runs` that carry its key. */
  predicate Summarises(b: MonthBucket, runs: seq<Run>)
    requires AllHaveSteps(runs)
  {
    Holds(b, RunsIn(runs, b.name))
  }

  predicate DistinctNames(buckets: seq<MonthBucket>)
  {
    forall i, j :: 0 <= i < j < |buckets| ==> buckets[i].name != buckets[j].name
  }

  // ---------------------------------------------------------------------------
  // Properties of Aggregate

  lemma RunsInSnoc(runs: seq<Run>, run: Run, key: string)
    ensures RunsIn(runs + [run], key) == RunsIn(runs, key) + (if RunKey(run) == key then [run] else [])
  {
    assert (runs + [run])[..|runs|] == runs;
  }

  lemma CountsSnoc(runs: seq<Run>, run: Run)
    ensures CountSuccess(runs + [run]) == CountSuccess(runs) + (if IsRunSuccess(run.conclusion) then 1 else 0)
    ensures CountFailure(runs + [run]) == CountFailure(runs) + (if IsRunFailure(run.conclusion) then 1 else 0)
  {
    assert (runs + [run])[..|runs|] == runs;
  }

  lemma DurationsSnoc(runs: seq<Run>, run: Run)
    requires AllHaveSteps(runs) && |run.steps| > 0
    ensures AllHaveSteps(runs + [run])
    ensures Durations(runs + [run]) == Durations(runs) + [RunDuration(run)]
  {
  }

  /** The bucket a run is counted and timed in, before it is stored back. */
  function Updated(b: MonthBucket, run: Run): MonthBucket
    requires |run.steps| > 0
  {
    RecordRunTime(Tally(b, run.conclusion), RunDuration(run))
  }

  /** AddRun either appends one new bucket for the run's key or updates the one bucket that has it. */
  lemma AddRunShape(bs: seq<MonthBucket>, run: Run)
    requires |run.steps| > 0
    ensures FindBucket(bs, RunKey(run)).None? ==>
              AddRun(bs, run) == bs + [Updated(CreateMonthYear(run.startedAt), run)]
    ensures FindBucket(bs, RunKey(run)).Some? ==>
              var j := FindBucket(bs, RunKey(run)).value;
              AddRun(bs, run) == bs[j := Updated(bs[j], run)]
  {
  }

  /**
   * Bucket names are pairwise distinct and every run's key names a bucket:
   * each run belongs to exactly one bucket.
   */
  lemma {:induction false} AggregateKeysUnique(runs: seq<Run>)
    requires AllHaveSteps(runs)
    ensures DistinctNames(Aggregate(runs))
    ensures forall k :: 0 <= k < |runs| ==> FindBucket(Aggregate(runs), RunKey(runs[k])).Some?
  {
    if |runs| > 0 {
      var prefix, run := runs[..|runs| - 1], runs[|runs| - 1];
      var bs := Aggregate(prefix);
      AggregateKeysUnique(prefix);
      AddRunNames(bs, run);
      AddRunFindsKey(bs, run);
      forall k | 0 <= k < |runs| - 1
        ensures FindBucket(Aggregate(runs), RunKey(runs[k])).Some?
      {
        assert runs[k] == prefix[k];
        FindBucketKept(bs, Aggregate(runs), RunKey(runs[k]));
      }
    }
  }

  /** AddRun keeps the names of the buckets it is given and at most appends the run's key. */
  lemma AddRunNames(bs: seq<MonthBucket>, run: Run)
    requires |run.steps| > 0
    ensures |AddRun(bs, run)| >= |bs|
    ensures forall i :: 0 <= i < |bs| ==> AddRun(bs, run)[i].name == bs[i].name
    ensures |AddRun(bs, run)| > |bs| ==> Names(AddRun(bs, run)) == Names(bs) + [RunKey(run)]
    ensures |AddRun(bs, run)| == |bs| ==> Names(AddRun(bs, run)) == Names(bs)
  {
    var found := FindBucket(bs, RunKey(run));
    AddRunShape(bs, run);
    if found.None? {
      var b := Updated(CreateMonthYear(run.startedAt), run);
      UpdatedKeepsName(CreateMonthYear(run.startedAt), run);
      AppendedNames(bs, b);
    } else {
      var b := Updated(bs[found.value], run);
      UpdatedKeepsName(bs[found.value], run);
      ReplacedNames(bs, found.value, b);
    }
  }

  /** After AddRun the run's key names a bucket, and bucket names stay distinct. */
  lemma AddRunFindsKey(bs: seq<MonthBucket>, run: Run)
    requires |run.steps| > 0
    ensures FindBucket(AddRun(bs, run), RunKey(run)).Some?
    ensures DistinctNames(bs) ==> DistinctNames(AddRun(bs, run))
  {
    var key := RunKey(run);
    var found := FindBucket(bs, key);
    var bs' := AddRun(bs, run);
    AddRunSize(bs, run);
    AddRunNames(bs, run);
    var at := if found.None? then |bs| else found.value;
    assert Names(bs')[at] == key;
    assert bs'[at].name == key;
  }

  lemma AddRunSize(bs: seq<MonthBucket>, run: Run)
    requires |run.steps| > 0
    ensures FindBucket(bs, RunKey(run)).None? ==> |AddRun(bs, run)| == |bs| + 1
    ensures FindBucket(bs, RunKey(run)).Some? ==> |AddRun(bs, run)| == |bs|
  {
    AddRunShape(bs, run);
  }

  lemma UpdatedKeepsName(b: MonthBucket, run: Run)
    requires |run.steps| > 0
    ensures Updated(b, run).name == b.name
  {
  }

  lemma AppendedNames(bs: seq<MonthBucket>, b: MonthBucket)
    ensures Names(bs + [b]) == Names(bs) + [b.name]
    ensures DistinctNames(bs) && (forall i :: 0 <= i < |bs| ==> bs[i].name != b.name) ==> DistinctNames(bs + [b])
  {
    assert Names(bs + [b]) == Names(bs) + [b.name];
  }

  lemma ReplacedNames(bs: seq<MonthBucket>, j: nat, b: MonthBucket)
    requires j < |bs| && b.name == bs[j].name
    ensures Names(bs[j := b]) == Names(bs)
    ensures DistinctNames(bs) ==> DistinctNames(bs[j := b])
  {
    assert Names(bs[j := b]) == Names(bs);
  }

  /** A name found among the buckets is still found once they have grown. */
  lemma FindBucketKept(bs: seq<MonthBucket>, bs': seq<MonthBucket>, key: string)
    requires |bs'| >= |bs|
    requires forall i :: 0 <= i < |bs| ==> bs'[i].name == bs[i].name
    requires FindBucket(bs, key).Some?
    ensures FindBucket(bs', key).Some?
  {
    var i := FindBucket(bs, key).value;
    assert bs'[i].name == key;
  }

  /** Every bucket summarises exactly the runs of its month. */
  lemma {:induction false} AggregateSummarises(runs: seq<Run>)
    requires AllHaveSteps(runs)
    ensures forall i :: 0 <= i < |Aggregate(runs)| ==> Summarises(Aggregate(runs)[i], runs)
  {
    if |runs| > 0 {
      var prefix, run := runs[..|runs| - 1], runs[|runs| - 1];
      assert runs == prefix + [run];
      var bs := Aggregate(prefix);
      AggregateKeysUnique(prefix);
      AggregateSummarises(prefix);
      var bs' := Aggregate(runs);
      var key := RunKey(run);
      AddRunShape(bs, run);
      forall i | 0 <= i < |bs'|
        ensures Summarises(bs'[i], runs)
      {
        SummarisesStep(prefix, run, bs, i);
      }
    }
  }

  lemma SummarisesUnrelated(prefix: seq<Run>, run: Run, b: MonthBucket)
    requires AllHaveSteps(prefix) && |run.steps| > 0
    requires Summarises(b, prefix) && b.name != RunKey(run)
    ensures AllHaveSteps(prefix + [run]) && Summarises(b, prefix + [run])
  {
    RunsInSnoc(prefix, run, b.name);
    assert RunsIn(prefix + [run], b.name) == RunsIn(prefix, b.name);
  }

  lemma SummarisesUpdated(prefix: seq<Run>, run: Run, b: MonthBucket)
    requires AllHaveSteps(prefix) && |run.steps| > 0
    requires Summarises(b, prefix) && b.name == RunKey(run)
    ensures AllHaveSteps(prefix + [run]) && Summarises(Updated(b, run), prefix + [run])
  {
    RunsInSnoc(prefix, run, b.name);
    var mine := RunsIn(prefix, b.name);
    assert RunsIn(prefix + [run], b.name) == mine + [run];
    HoldsSnoc(b, mine, run);
  }

  /** A bucket holding `mine` holds `mine + [run]` once the run is counted and timed in it. */
  lemma HoldsSnoc(b: MonthBucket, mine: seq<Run>, run: Run)
    requires AllHaveSteps(mine) && |run.steps| > 0 && Holds(b, mine)
    ensures AllHaveSteps(mine + [run]) && Holds(Updated(b, run), mine + [run])
  {
    var b' := Updated(b, run);
    CountsSnoc(mine, run);
    DurationsSnoc(mine, run);
    TallyCounts(b, run.conclusion);
    assert (mine + [run])[0] == mine[0];
    assert b'.monthLabel == b.monthLabel && b'.isoDate == b.isoDate;
    assert b'.runTimes == Durations(mine + [run]);
    assert b'.success == CountSuccess(mine + [run]) && b'.failure == CountFailure(mine + [run]);
  }

  lemma SummarisesCreated(prefix: seq<Run>, run: Run)
    requires AllHaveSteps(prefix) && |run.steps| > 0
    requires RunsIn(prefix, RunKey(run)) == []
    ensures AllHaveSteps(prefix + [run])
    ensures Summarises(Updated(CreateMonthYear(run.startedAt), run), prefix + [run])
  {
    RunsInSnoc(prefix, run, RunKey(run));
    assert RunsIn(prefix + [run], RunKey(run)) == [run];
    CreatedHolds(run);
  }

  lemma CreatedHolds(run: Run)
    requires |run.steps| > 0
    ensures Updated(CreateMonthYear(run.startedAt), run).name == RunKey(run)
    ensures Holds(Updated(CreateMonthYear(run.startedAt), run), [run])
  {
    CountsSnoc([], run);
    assert [] + [run] == [run];
    var b := Updated(CreateMonthYear(run.startedAt), run);
    assert b.runTimes == [RunDuration(run)] == Durations([run]);
    assert b.monthLabel == MonthLabel(run.startedAt);
  }

  lemma {:induction false} RunsInNone(runs: seq<Run>, key: string)
    requires forall k :: 0 <= k < |runs| ==> RunKey(runs[k]) != key
    ensures RunsIn(runs, key) == []
  {
    if |runs| > 0 {
      RunsInNone(runs[..|runs| - 1], key);
    }
  }

  /** A key no bucket has is the key of no run seen so far. */
  lemma NoBucketNoRuns(prefix: seq<Run>, bs: seq<MonthBucket>, key: string)
    requires forall k :: 0 <= k < |prefix| ==> FindBucket(bs, RunKey(prefix[k])).Some?
    requires FindBucket(bs, key).None?
    ensures RunsIn(prefix, key) == []
  {
    RunsInNone(prefix, key);
  }

  lemma SummarisesStep(prefix: seq<Run>, run: Run, bs: seq<MonthBucket>, i: nat)
    requires AllHaveSteps(prefix) && |run.steps| > 0
    requires DistinctNames(bs)
    requires forall k :: 0 <= k < |prefix| ==> FindBucket(bs, RunKey(prefix[k])).Some?
    requires forall j :: 0 <= j < |bs| ==> Summarises(bs[j], prefix)
    requires i < |AddRun(bs, run)|
    ensures AllHaveSteps(prefix + [run])
    ensures Summarises(AddRun(bs, run)[i], prefix + [run])
  {
    var key := RunKey(run);
    var bs' := AddRun(bs, run);
    AddRunShape(bs, run);
    match FindBucket(bs, key)
    case None =>
      if i < |bs| {
        assert bs'[i] == bs[i];
        SummarisesUnrelated(prefix, run, bs[i]);
      } else {
        assert bs'[i] == Updated(CreateMonthYear(run.startedAt), run);
        NoBucketNoRuns(prefix, bs, key);
        SummarisesCreated(prefix, run);
      }
    case Some(j) =>
      if i != j {
        assert bs'[i] == bs[i];
        SummarisesUnrelated(prefix, run, bs[i]);
      } else {
        assert bs'[i] == Updated(bs[i], run);
        SummarisesUpdated(prefix, run, bs[i]);
      }
  }

  /** A bucket whose stored average is that of its run times, and which has no ISO date. */
  predicate AverageCurrent(b: MonthBucket)
  {
    b.monthAvg == Some(CalcAvg(b.runTimes)) && b.isoDate == None
  }

  /**
   * Every bucket's average is the average of its run times, kept current as
   * each run is added, and no bucket has an ISO date.  These two conjuncts of
   * `Holds` follow from AggregateSummarises too; this induction proves them
   * alone, which is much cheaper for the solver where only they are needed.
   */
  lemma {:induction false} AggregateAveragesCurrent(runs: seq<Run>)
    requires AllHaveSteps(runs)
    ensures forall i :: 0 <= i < |Aggregate(runs)| ==> AverageCurrent(Aggregate(runs)[i])
  {
    if |runs| > 0 {
      var prefix, run := runs[..|runs| - 1], runs[|runs| - 1];
      var bs := Aggregate(prefix);
      AggregateAveragesCurrent(prefix);
      AddRunShape(bs, run);
      var bs' := AddRun(bs, run);
      var found := FindBucket(bs, RunKey(run));
      var at := if found.None? then |bs| else found.value;
      var b := if found.None? then CreateMonthYear(run.startedAt) else bs[found.value];
      assert bs'[at] == Updated(b, run);
      UpdatedAverageCurrent(b, run);
      forall i | 0 <= i < |bs'|
        ensures AverageCurrent(bs'[i])
      {
        if i != at {
          assert bs'[i] == bs[i];
        }
      }
    }
  }

  lemma UpdatedAverageCurrent(b: MonthBucket, run: Run)
    requires |run.steps| > 0
    ensures Updated(b, run).monthAvg == Some(CalcAvg(Updated(b, run).runTimes))
    ensures Updated(b, run).isoDate == b.isoDate
  {
  }

  /** Each run of `RunsIn(runs, key)` comes from `runs`. */
  lemma {:induction false} RunsInMember(runs: seq<Run>, key: string, m: nat)
    requires m < |RunsIn(runs, key)|
    ensures exists k :: 0 <= k < |runs| && runs[k] == RunsIn(runs, key)[m]
  {
    var prefix := runs[..|runs| - 1];
    var earlier := RunsIn(prefix, key);
    if m < |earlier| {
      RunsInMember(prefix, key, m);
      var k :| 0 <= k < |prefix| && prefix[k] == earlier[m];
      assert runs[k] == prefix[k];
    } else {
      assert RunsIn(runs, key)[m] == runs[|runs| - 1];
    }
  }

  // ---------------------------------------------------------------------------
  // Which bucket a run lands in, and in which order buckets appear

  /**
   * Two runs land in the same bucket exactly when they started in the same
   * month of years ending in the same two digits.
   */
  lemma SameBucketIffSameMonth(runs: seq<Run>, j: nat, k: nat)
    requires AllHaveSteps(runs) && j < |runs| && k < |runs|
    ensures var bs := Aggregate(runs);
      FindBucket(bs, RunKey(runs[j])) == FindBucket(bs, RunKey(runs[k])) <==>
        runs[j].startedAt.month == runs[k].startedAt.month &&
        YearSuffix(runs[j].startedAt.year) == YearSuffix(runs[k].startedAt.year)
  {
    var bs := Aggregate(runs);
    AggregateKeysUnique(runs);
    MonthKeyIdentifiesMonth(runs[j].startedAt, runs[k].startedAt);
    if FindBucket(bs, RunKey(runs[j])) == FindBucket(bs, RunKey(runs[k])) {
      var i := FindBucket(bs, RunKey(runs[j])).value;
      assert RunKey(runs[j]) == bs[i].name == RunKey(runs[k]);
    }
  }

  function Names(bs: seq<MonthBucket>): (names: seq<string>)
    ensures |names| == |bs|
  {
    seq(|bs|, i requires 0 <= i < |bs| => bs[i].name)
  }

  lemma FirstSeenOrderStep(prefix: seq<Run>, run: Run, bs: seq<MonthBucket>)
    requires AllHaveSteps(prefix) && |run.steps| > 0
    requires forall k :: 0 <= k < |prefix| ==> FindBucket(bs, RunKey(prefix[k])).Some?
    requires FirstSeenOrder(Names(bs), Keys(prefix))
    ensures FirstSeenOrder(Names(AddRun(bs, run)), Keys(prefix + [run]))
  {
    var keys, key := Keys(prefix), RunKey(run);
    assert Keys(prefix + [run]) == keys + [key];
    AddRunNames(bs, run);
    AddRunShape(bs, run);
    if FindBucket(bs, key).None? {
      KeyNotSeen(prefix, bs, key);
      FirstSeenOrderAppend(Names(bs), keys, key);
    } else {
      FirstSeenOrderExtend(Names(bs), keys, key);
    }
  }

  /** A key no bucket has is not among the keys of the runs seen so far. */
  lemma KeyNotSeen(prefix: seq<Run>, bs: seq<MonthBucket>, key: string)
    requires forall k :: 0 <= k < |prefix| ==> FindBucket(bs, RunKey(prefix[k])).Some?
    requires FindBucket(bs, key).None?
    ensures key !in Keys(prefix)
  {
    var keys := Keys(prefix);
    forall k | 0 <= k < |keys|
      ensures keys[k] != key
    {
      assert keys[k] == RunKey(prefix[k]);
    }
  }

  /**
   * Buckets come in the order in which their months first appear among the
   * runs, and every bucket's month does appear.
   */
  lemma {:induction false} AggregateFirstSeenOrder(runs: seq<Run>)
    requires AllHaveSteps(runs)
    ensures FirstSeenOrder(Names(Aggregate(runs)), Keys(runs))
  {
    if |runs| > 0 {
      var prefix, run := runs[..|runs| - 1], runs[|runs| - 1];
      assert runs == prefix + [run];
      AggregateKeysUnique(prefix);
      AggregateFirstSeenOrder(prefix);
      FirstSeenOrderStep(prefix, run, Aggregate(prefix));
    }
  }

  // ---------------------------------------------------------------------------
  // Totals over all buckets

  function FailureOf(b: MonthBucket): nat
  {
    b.failure
  }

  function SuccessOf(b: MonthBucket): nat
  {
    b.success
  }

  function RunCountOf(b: MonthBucket): nat
  {
    |b.runTimes|
  }

  /** The sum of `f` over the buckets, first to last. */
  function SumOver(bs: seq<MonthBucket>, f: MonthBucket -> nat): nat
  {
    if |bs| == 0 then 0 else SumOver(bs[..|bs| - 1], f) + f(bs[|bs| - 1])
  }

  lemma SumOverSnoc(bs: seq<MonthBucket>, b: MonthBucket, f: MonthBucket -> nat)
    ensures SumOver(bs + [b], f) == SumOver(bs, f) + f(b)
  {
    assert (bs + [b])[..|bs|] == bs;
  }

  lemma {:induction false} SumOverUpdate(bs: seq<MonthBucket>, i: nat, b: MonthBucket, f: MonthBucket -> nat)
    requires i < |bs|
    ensures SumOver(bs[i := b], f) + f(bs[i]) == SumOver(bs, f) + f(b)
  {
    var n := |bs| - 1;
    if i < n {
      assert bs[i := b][..n] == bs[..n][i := b];
      SumOverUpdate(bs[..n], i, b, f);
    } else {
      assert bs[i := b][..n] == bs[..n];
    }
  }

  /**
   * Summed over all buckets, the failure and success counters count the
   * failed and successful runs, and the run times number the runs.
   */
  lemma {:induction false} AggregateTotals(runs: seq<Run>)
    requires AllHaveSteps(runs)
    ensures SumOver(Aggregate(runs), FailureOf) == CountFailure(runs)
    ensures SumOver(Aggregate(runs), SuccessOf) == CountSuccess(runs)
    ensures SumOver(Aggregate(runs), RunCountOf) == |runs|
  {
    if |runs| > 0 {
      var prefix, run := runs[..|runs| - 1], runs[|runs| - 1];
      assert runs == prefix + [run];
      AggregateTotals(prefix);
      CountsSnoc(prefix, run);
      AddRunSums(Aggregate(prefix), run);
    }
  }

  /** Adding a run adds it to exactly one bucket's counters and run times. */
  lemma AddRunSums(bs: seq<MonthBucket>, run: Run)
    requires |run.steps| > 0
    ensures SumOver(AddRun(bs, run), FailureOf) == SumOver(bs, FailureOf) + (if IsRunFailure(run.conclusion) then 1 else 0)
    ensures SumOver(AddRun(bs, run), SuccessOf) == SumOver(bs, SuccessOf) + (if IsRunSuccess(run.conclusion) then 1 else 0)
    ensures SumOver(AddRun(bs, run), RunCountOf) == SumOver(bs, RunCountOf) + 1
  {
    AddRunShape(bs, run);
    match FindBucket(bs, RunKey(run))
    case None =>
      var b := Updated(CreateMonthYear(run.startedAt), run);
      UpdatedCounts(CreateMonthYear(run.startedAt), run);
      SumOverSnoc(bs, b, FailureOf);
      SumOverSnoc(bs, b, SuccessOf);
      SumOverSnoc(bs, b, RunCountOf);
    case Some(j) =>
      var b := Updated(bs[j], run);
      UpdatedCounts(bs[j], run);
      SumOverUpdate(bs, j, b, FailureOf);
      SumOverUpdate(bs, j, b, SuccessOf);
      SumOverUpdate(bs, j, b, RunCountOf);
  }

  lemma UpdatedCounts(b: MonthBucket, run: Run)
    requires |run.steps| > 0
    ensures FailureOf(Updated(b, run)) == FailureOf(b) + (if IsRunFailure(run.conclusion) then 1 else 0)
    ensures SuccessOf(Updated(b, run)) == SuccessOf(b) + (if IsRunSuccess(run.conclusion) then 1 else 0)
    ensures RunCountOf(Updated(b, run)) == RunCountOf(b) + 1
  {
  }
}
