/**
 * The workflow-run records the page receives from the runs endpoint, reduced
 * to the fields the metrics read.
 */
module Runs {
  import opened Options
  import opened Timestamps

  /** One step of a workflow run. */
  datatype Step = Step(name: string, conclusion: string, startedAt: Timestamp, completedAt: Timestamp)

  /** One workflow run: `created_at`, `started_at`, `conclusion` and its ordered `steps`. */
  datatype Run = Run(createdAt: Timestamp, startedAt: Timestamp, conclusion: string, steps: seq<Step>)

  /**
   * reformatData reads `run.steps[0]` without a guard, so every run it is
   * given must have a step.
   */
  predicate AllHaveSteps(runs: seq<Run>)
  {
    forall k :: 0 <= k < |runs| ==> |runs[k].steps| > 0
  }

  /** Lines 65-67: from the first step's start to the last step's completion, in seconds. */
  function RunDuration(run: Run): (r: real)
    requires |run.steps| > 0
    ensures r < 0.0 <==> run.steps[|run.steps| - 1].completedAt.epochMs < run.steps[0].startedAt.epochMs
    ensures r == 0.0 <==> run.steps[|run.steps| - 1].completedAt.epochMs == run.steps[0].startedAt.epochMs
  {
    TimeDifSeconds(run.steps[0].startedAt, run.steps[|run.steps| - 1].completedAt)
  }

  /** Line 72: the label of a run on the all-runs chart, taken from its first step's start. */
  function RunLabel(run: Run): string
    requires |run.steps| > 0
  {
    EachRunTime(run.steps[0].startedAt)
  }

  /** A run's label reads back as the month, day, hour and minute its first step started. */
  lemma RunLabelReadsBack(run: Run)
    requires |run.steps| > 0
    ensures var t := run.steps[0].startedAt;
      ParseRunLabel(RunLabel(run)) == Some((t.month as nat, t.day as nat, t.hour as nat, t.minute as nat))
  {
    EachRunTimeRoundTrip(run.steps[0].startedAt);
  }

  /** The key of the month bucket a run belongs to (line 39). */
  function RunKey(run: Run): string
  {
    GetMonthDate(run.startedAt)
  }

  /** Every run's duration, in input order. */
  function Durations(runs: seq<Run>): (ds: seq<real>)
    requires AllHaveSteps(runs)
    ensures |ds| == |runs|
  {
    seq(|runs|, k requires 0 <= k < |runs| => RunDuration(runs[k]))
  }

  /** Every run's label, in input order. */
  function RunLabels(runs: seq<Run>): (ls: seq<string>)
    requires AllHaveSteps(runs)
    ensures |ls| == |runs|
  {
    seq(|runs|, k requires 0 <= k < |runs| => RunLabel(runs[k]))
  }

  /** Every run's bucket key, in input order. */
  function Keys(runs: seq<Run>): (ks: seq<string>)
    ensures |ks| == |runs|
  {
    seq(|runs|, k requires 0 <= k < |runs| => RunKey(runs[k]))
  }
}
