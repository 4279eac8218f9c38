/**
 * The per-step table that reformatSteps (Mvpmetrics.js, lines 79-112) builds
 * from every step of every run, stated as a function of the steps it visits,
 * and what every entry holds once all steps are in.
 */
module StepStats {
  import opened Options
  import opened Runs
  import opened FirstSeen

  /** One entry of `stepMetrics`. */
  datatype StepStat = StepStat(name: string, total: nat, fail: nat, success: nat)

  predicate IsStepSuccess(conclusion: string)
  {
    conclusion == "success"
  }

  /** `stepDataArr.find(el => el.name === name)`, as an index. */
  function FindStep(entries: seq<StepStat>, name: string): (r: Option<nat>)
    ensures r.Some? ==> r.value < |entries| && entries[r.value].name == name
    ensures r.Some? ==> forall j :: 0 <= j < r.value ==> entries[j].name != name
    ensures r.None? <==> forall j :: 0 <= j < |entries| ==> entries[j].name != name
  {
    if |entries| == 0 then None
    else if entries[0].name == name then Some(0)
    else match FindStep(entries[1..], name)
      case None => None
      case Some(i) => Some(i + 1)
  }

  /** Lines 98-106: one more run of the step; anything but `success` is a failure. */
  function CountStep(e: StepStat, step: Step): StepStat
  {
    var e' := e.(total := e.total + 1);
    if !IsStepSuccess(step.conclusion) then e'.(fail := e'.fail + 1)
    else e'.(success := e'.success + 1)
  }

  /**
   * Counting a step adds one to `total` and one to exactly one of `success`
   * and `fail`: to `success` exactly when the conclusion is 'success'.
   */
  lemma CountStepCounts(e: StepStat, step: Step)
    ensures var c := CountStep(e, step);
      && c.name == e.name && c.total == e.total + 1
      && c.success + c.fail == e.success + e.fail + 1
      && (c.success == e.success + 1 <==> IsStepSuccess(step.conclusion))
      && (c.fail == e.fail + 1 <==> !IsStepSuccess(step.conclusion))
  {
  }

  /** One iteration of the inner loop: find or create the step's entry, then count the step in it. */
  function AddStep(entries: seq<StepStat>, step: Step): seq<StepStat>
  {
    match FindStep(entries, step.name)
    case None => entries + [CountStep(StepStat(step.name, 0, 0, 0), step)]
    case Some(i) => entries[i := CountStep(entries[i], step)]
  }

  /** The entries reformatSteps holds after visiting `steps` in order. */
  function StepTable(steps: seq<Step>): seq<StepStat>
  {
    if |steps| == 0 then [] else AddStep(StepTable(steps[..|steps| - 1]), steps[|steps| - 1])
  }

  /** Every step of every run, runs in order and each run's steps in order. */
  function AllSteps(runs: seq<Run>): seq<Step>
  {
    if |runs| == 0 then [] else AllSteps(runs[..|runs| - 1]) + runs[|runs| - 1].steps
  }

  lemma StepTableAppend(steps: seq<Step>, step: Step)
    ensures StepTable(steps + [step]) == AddStep(StepTable(steps), step)
  {
    assert (steps + [step])[..|steps|] == steps;
  }

  // ---------------------------------------------------------------------------
  // Reference definitions

  function StepNames(steps: seq<Step>): (names: seq<string>)
    ensures |names| == |steps|
  {
    seq(|steps|, k requires 0 <= k < |steps| => steps[k].name)
  }

  function EntryNames(entries: seq<StepStat>): (names: seq<string>)
    ensures |names| == |entries|
  {
    seq(|entries|, i requires 0 <= i < |entries| => entries[i].name)
  }

  /** How often a step called `name` occurs. */
  function Occurrences(steps: seq<Step>, name: string): nat
  {
    if |steps| == 0 then 0
    else Occurrences(steps[..|steps| - 1], name) + (if steps[|steps| - 1].name == name then 1 else 0)
  }

  /** How often a step called `name` occurs with conclusion `success`. */
  function Successes(steps: seq<Step>, name: string): nat
  {
    if |steps| == 0 then 0
    else
      var last := steps[|steps| - 1];
      Successes(steps[..|steps| - 1], name) + (if last.name == name && IsStepSuccess(last.conclusion) then 1 else 0)
  }

  /** An entry counts every occurrence of its step: at least one, split into successes and failures. */
  predicate Tallies(e: StepStat, steps: seq<Step>)
  {
    e.total == Occurrences(steps, e.name)
    && e.success == Successes(steps, e.name)
    && e.total == e.success + e.fail
    && e.total >= 1
  }

  // ---------------------------------------------------------------------------
  // Properties of StepTable

  lemma AddStepShape(entries: seq<StepStat>, step: Step)
    ensures FindStep(entries, step.name).None? ==>
              AddStep(entries, step) == entries + [CountStep(StepStat(step.name, 0, 0, 0), step)]
    ensures FindStep(entries, step.name).Some? ==>
              var j := FindStep(entries, step.name).value;
              AddStep(entries, step) == entries[j := CountStep(entries[j], step)]
  {
  }

  lemma CountSnoc(steps: seq<Step>, step: Step, name: string)
    ensures Occurrences(steps + [step], name) == Occurrences(steps, name) + (if step.name == name then 1 else 0)
    ensures Successes(steps + [step], name) ==
              Successes(steps, name) + (if step.name == name && IsStepSuccess(step.conclusion) then 1 else 0)
  {
    assert (steps + [step])[..|steps|] == steps;
  }

  lemma {:induction false} OccurrencesNone(steps: seq<Step>, name: string)
    requires forall k :: 0 <= k < |steps| ==> steps[k].name != name
    ensures Occurrences(steps, name) == 0 && Successes(steps, name) == 0
  {
    if |steps| > 0 {
      OccurrencesNone(steps[..|steps| - 1], name);
    }
  }

  /** Entry names are pairwise distinct and every step's name has an entry. */
  lemma {:induction false} StepTableNamesUnique(steps: seq<Step>)
    ensures forall i, j :: 0 <= i < j < |StepTable(steps)| ==> StepTable(steps)[i].name != StepTable(steps)[j].name
    ensures forall k :: 0 <= k < |steps| ==> FindStep(StepTable(steps), steps[k].name).Some?
  {
    if |steps| > 0 {
      var prefix, step := steps[..|steps| - 1], steps[|steps| - 1];
      var es := StepTable(prefix);
      StepTableNamesUnique(prefix);
      var es' := StepTable(steps);
      AddStepNames(es, step);
      forall k | 0 <= k < |steps| - 1
        ensures FindStep(es', steps[k].name).Some?
      {
        assert steps[k] == prefix[k];
        var i := FindStep(es, steps[k].name).value;
        assert es'[i].name == steps[k].name;
      }
    }
  }

  /** Adding a step keeps every entry's name and position, finds the step's name, and keeps names distinct. */
  lemma AddStepNames(es: seq<StepStat>, step: Step)
    requires forall i, j :: 0 <= i < j < |es| ==> es[i].name != es[j].name
    ensures |AddStep(es, step)| >= |es|
    ensures forall i :: 0 <= i < |es| ==> AddStep(es, step)[i].name == es[i].name
    ensures FindStep(AddStep(es, step), step.name).Some?
    ensures forall i, j :: 0 <= i < j < |AddStep(es, step)| ==> AddStep(es, step)[i].name != AddStep(es, step)[j].name
  {
    var es' := AddStep(es, step);
    AddStepShape(es, step);
    var at := if FindStep(es, step.name).Some? then FindStep(es, step.name).value else |es|;
    assert es'[at].name == step.name;
  }

  lemma TalliesStep(prefix: seq<Step>, step: Step, es: seq<StepStat>, i: nat)
    requires forall k :: 0 <= k < |prefix| ==> FindStep(es, prefix[k].name).Some?
    requires forall a, b :: 0 <= a < b < |es| ==> es[a].name != es[b].name
    requires forall j :: 0 <= j < |es| ==> Tallies(es[j], prefix)
    requires i < |AddStep(es, step)|
    ensures Tallies(AddStep(es, step)[i], prefix + [step])
  {
    AddStepShape(es, step);
    var e := AddStep(es, step)[i];
    CountSnoc(prefix, step, e.name);
    match FindStep(es, step.name)
    case None =>
      if i == |es| {
        assert e.name == step.name;
        OccurrencesNone(prefix, step.name);
      }
    case Some(j) =>
      if i != j {
        assert e == es[i] && e.name != step.name;
      }
  }

  /**
   * Every entry counts exactly the occurrences of its step name: `total` is
   * their number (at least one), `success` those that concluded `success`,
   * and `fail` the rest.
   */
  lemma {:induction false} StepTableTallies(steps: seq<Step>)
    ensures forall i :: 0 <= i < |StepTable(steps)| ==> Tallies(StepTable(steps)[i], steps)
  {
    if |steps| > 0 {
      var prefix, step := steps[..|steps| - 1], steps[|steps| - 1];
      assert steps == prefix + [step];
      StepTableNamesUnique(prefix);
      StepTableTallies(prefix);
      forall i | 0 <= i < |StepTable(steps)|
        ensures Tallies(StepTable(steps)[i], steps)
      {
        TalliesStep(prefix, step, StepTable(prefix), i);
      }
    }
  }

  /** Entries come in the order in which their step names first occur. */
  lemma {:induction false} StepTableFirstSeenOrder(steps: seq<Step>)
    ensures FirstSeenOrder(EntryNames(StepTable(steps)), StepNames(steps))
  {
    if |steps| > 0 {
      var prefix, step := steps[..|steps| - 1], steps[|steps| - 1];
      var es := StepTable(prefix);
      StepTableNamesUnique(prefix);
      StepTableFirstSeenOrder(prefix);
      var names := StepNames(prefix);
      assert StepNames(steps) == names + [step.name];
      AddStepShape(es, step);
      if FindStep(es, step.name).None? {
        assert EntryNames(StepTable(steps)) == EntryNames(es) + [step.name];
        assert step.name !in names by {
          forall k | 0 <= k < |names|
            ensures names[k] != step.name
          {
            assert names[k] == prefix[k].name;
          }
        }
        FirstSeenOrderAppend(EntryNames(es), names, step.name);
      } else {
        assert EntryNames(StepTable(steps)) == EntryNames(es);
        FirstSeenOrderExtend(EntryNames(es), names, step.name);
      }
    }
  }

  // ---------------------------------------------------------------------------
  // Ratios (genChartStepData, lines 146-147)

  /**
   * `part / total` in JavaScript: a number when `total` is positive; `None`
   * stands for the NaN or Infinity a zero total gives.
   */
  function Ratio(part: nat, total: nat): (r: Option<real>)
    ensures r.None? <==> total == 0
    ensures r.Some? ==> r.value * total as real == part as real
  {
    if total == 0 then None else Some(part as real / total as real)
  }

  /**
   * For every entry of the table, the failure and success ratios are numbers
   * between 0 and 1 that add up to 1.
   */
  lemma StepRatiosSumToOne(steps: seq<Step>, i: nat)
    requires i < |StepTable(steps)|
    ensures var e := StepTable(steps)[i];
      Ratio(e.fail, e.total).Some? && Ratio(e.success, e.total).Some?
      && 0.0 <= Ratio(e.fail, e.total).value <= 1.0
      && 0.0 <= Ratio(e.success, e.total).value <= 1.0
      && Ratio(e.fail, e.total).value + Ratio(e.success, e.total).value == 1.0
  {
    StepTableTallies(steps);
    var e := StepTable(steps)[i];
    RatioPair(e.fail, e.success);
  }

  lemma RatioPair(f: nat, s: nat)
    requires f + s > 0
    ensures Ratio(f, f + s).Some? && Ratio(s, f + s).Some?
    ensures 0.0 <= Ratio(f, f + s).value <= 1.0 && 0.0 <= Ratio(s, f + s).value <= 1.0
    ensures Ratio(f, f + s).value + Ratio(s, f + s).value == 1.0
  {
    var t := (f + s) as real;
    var a, b := f as real / t, s as real / t;
    assert a * t == f as real && b * t == s as real;
    assert t == f as real + s as real;
    assert (a + b) * t == a * t + b * t;
    assert (a + b - 1.0) * t == 0.0;
  }
}
