/**
 * `REGRESSION_METRICS` and `assert_no_regression`: each tracked metric that
 * the baseline block holds is compared, in table order, with the result of
 * the run scaled against the baseline by a fixed factor. The first check that
 * fails ends the test.
 *
 * Metrics and factors are reals; the results file and the baseline block are
 * maps from metric name to value.
 */
module Regression {

  /** The share of its baseline accuracy a model has to keep. */
  const ACCURACY_PERF_FACTOR: real := 0.99

  /** How much longer than its baseline a training may run. */
  const TRAINING_TIME_PERF_FACTOR: real := 1.05

  /** `assertGreaterEqual` or `assertLessEqual`. */
  datatype Direction = AtLeast | AtMost

  datatype Threshold = Threshold(metric: string, direction: Direction, factor: real)

  const REGRESSION_METRICS: seq<Threshold> := [
    Threshold("eval_f1", AtLeast, ACCURACY_PERF_FACTOR),
    Threshold("perplexity", AtMost, 2.0 - ACCURACY_PERF_FACTOR),
    Threshold("eval_rougeLsum", AtLeast, ACCURACY_PERF_FACTOR),
    Threshold("train_runtime", AtMost, TRAINING_TIME_PERF_FACTOR)
  ]

  /** How a test ends: no regression, a KeyError for a missing result, or a failed comparison. */
  datatype Verdict =
    | NoRegression
    | MissingResult(metric: string)
    | Regressed(metric: string, result: real, bound: real)

  /** The comparison of one metric: the result against the factor times the baseline. */
  predicate Meets(t: Threshold, result: real, base: real)
  {
    match t.direction
    case AtLeast => result >= t.factor * base
    case AtMost => result <= t.factor * base
  }

  /** One row of the table: skipped when the baseline lacks the metric, a KeyError when the results do. */
  function Check(t: Threshold, results: map<string, real>, baseline: map<string, real>): (v: Verdict)
    ensures v == NoRegression <==>
      t.metric !in baseline || (t.metric in results && Meets(t, results[t.metric], baseline[t.metric]))
    ensures v.MissingResult? <==> t.metric in baseline && t.metric !in results
    ensures v.Regressed? ==> t.metric in baseline && t.metric in results && v.metric == t.metric
                             && v.result == results[t.metric] && v.bound == t.factor * baseline[t.metric]
    ensures v.MissingResult? ==> v.metric == t.metric
  {
    if t.metric !in baseline then NoRegression
    else if t.metric !in results then MissingResult(t.metric)
    else if Meets(t, results[t.metric], baseline[t.metric]) then NoRegression
    else Regressed(t.metric, results[t.metric], t.factor * baseline[t.metric])
  }

  /** The rows in order: the verdict of the first row that does not pass. */
  function Judge(table: seq<Threshold>, results: map<string, real>, baseline: map<string, real>): Verdict
  {
    if table == [] then NoRegression
    else if Check(table[0], results, baseline) != NoRegression then Check(table[0], results, baseline)
    else Judge(table[1..], results, baseline)
  }

  /** Every tracked metric of the baseline has a result that meets its bound. */
  predicate AllMet(table: seq<Threshold>, results: map<string, real>, baseline: map<string, real>)
  {
    forall i :: 0 <= i < |table| && table[i].metric in baseline ==>
      table[i].metric in results && Meets(table[i], results[table[i].metric], baseline[table[i].metric])
  }

  /** `assert_no_regression`: the checks of the table, in order, until the first one that fails. */
  method AssertNoRegression(results: map<string, real>, baseline: map<string, real>) returns (v: Verdict)
    ensures v == Judge(REGRESSION_METRICS, results, baseline)
  {
    var table := REGRESSION_METRICS;
    var i := 0;
    while i < |table|
      invariant 0 <= i <= |table|
      invariant Judge(table, results, baseline) == Judge(table[i..], results, baseline)
    {
      var t := table[i];
      if t.metric in baseline {
        if t.metric !in results {
          return MissingResult(t.metric);
        }
        var result := results[t.metric];
        var bound := t.factor * baseline[t.metric];
        if !Meets(t, result, baseline[t.metric]) {
          return Regressed(t.metric, result, bound);
        }
      }
      assert table[i..][1..] == table[i + 1..];
      i := i + 1;
    }
    return NoRegression;
  }

  /** The test passes iff every tracked metric of the baseline has a result within its bound. */
  lemma {:induction false} JudgePassesIffAllMet(table: seq<Threshold>, results: map<string, real>,
                                                baseline: map<string, real>)
    ensures Judge(table, results, baseline) == NoRegression <==> AllMet(table, results, baseline)
  {
    if table != [] {
      JudgePassesIffAllMet(table[1..], results, baseline);
      assert forall i :: 1 <= i < |table| ==> table[i] == table[1..][i - 1];
    }
  }

  /** A failing verdict is the one of the first row that does not pass. */
  lemma {:induction false} JudgeStopsAtFirstFailure(table: seq<Threshold>, results: map<string, real>,
                                                    baseline: map<string, real>)
    ensures Judge(table, results, baseline) != NoRegression ==>
      exists k :: 0 <= k < |table| && Judge(table, results, baseline) == Check(table[k], results, baseline)
                  && forall j :: 0 <= j < k ==> Check(table[j], results, baseline) == NoRegression
  {
    if table != [] && Check(table[0], results, baseline) == NoRegression {
      JudgeStopsAtFirstFailure(table[1..], results, baseline);
      if Judge(table, results, baseline) != NoRegression {
        var k :| 0 <= k < |table[1..]| && Judge(table[1..], results, baseline) == Check(table[1..][k], results, baseline)
                 && forall j :: 0 <= j < k ==> Check(table[1..][j], results, baseline) == NoRegression;
        assert forall j :: 1 <= j < k + 1 ==> table[j] == table[1..][j - 1];
        assert Judge(table, results, baseline) == Check(table[k + 1], results, baseline);
      }
    } else if table != [] {
      assert Judge(table, results, baseline) == Check(table[0], results, baseline);
    }
  }

  /** Which way each tracked metric is compared, and with which factor. */
  lemma RegressionDirections(results: map<string, real>, baseline: map<string, real>)
    ensures "eval_f1" in baseline && "eval_f1" in results ==>
      (Check(REGRESSION_METRICS[0], results, baseline) == NoRegression <==> results["eval_f1"] >= 0.99 * baseline["eval_f1"])
    ensures "perplexity" in baseline && "perplexity" in results ==>
      (Check(REGRESSION_METRICS[1], results, baseline) == NoRegression <==> results["perplexity"] <= 1.01 * baseline["perplexity"])
    ensures "eval_rougeLsum" in baseline && "eval_rougeLsum" in results ==>
      (Check(REGRESSION_METRICS[2], results, baseline) == NoRegression
       <==> results["eval_rougeLsum"] >= 0.99 * baseline["eval_rougeLsum"])
    ensures "train_runtime" in baseline && "train_runtime" in results ==>
      (Check(REGRESSION_METRICS[3], results, baseline) == NoRegression
       <==> results["train_runtime"] <= 1.05 * baseline["train_runtime"])
  {
  }

  /** A tracked metric the baseline holds but the results lack is a failure, never a skip. */
  lemma MissingResultFails(results: map<string, real>, baseline: map<string, real>, i: int)
    requires 0 <= i < |REGRESSION_METRICS|
    requires REGRESSION_METRICS[i].metric in baseline && REGRESSION_METRICS[i].metric !in results
    ensures Judge(REGRESSION_METRICS, results, baseline) != NoRegression
  {
    JudgePassesIffAllMet(REGRESSION_METRICS, results, baseline);
  }

  predicate Tracked(table: seq<Threshold>, key: string)
  {
    exists i :: 0 <= i < |table| && table[i].metric == key
  }

  /** Keys the table does not track play no part, in the baseline or in the results. */
  lemma {:induction false} UntrackedIgnored(table: seq<Threshold>, results: map<string, real>, baseline: map<string, real>,
                                            key: string, x: real, y: real)
    requires !Tracked(table, key)
    ensures Judge(table, results[key := x], baseline[key := y]) == Judge(table, results, baseline)
  {
    if table != [] {
      assert table[0].metric != key;
      assert Check(table[0], results[key := x], baseline[key := y]) == Check(table[0], results, baseline);
      assert !Tracked(table[1..], key) by {
        forall i | 0 <= i < |table[1..]| ensures table[1..][i].metric != key {
          assert table[1..][i] == table[i + 1];
        }
      }
      UntrackedIgnored(table[1..], results, baseline, key, x, y);
    }
  }

  /**
   * `better` holds every result `results` holds, each tracked one moved (or
   * not) in its metric's good direction: up for `assertGreaterEqual`, down
   * for `assertLessEqual`.
   */
  predicate Improves(table: seq<Threshold>, results: map<string, real>, better: map<string, real>)
  {
    && results.Keys <= better.Keys
    && forall i :: 0 <= i < |table| && table[i].metric in results ==>
         if table[i].direction == AtLeast then better[table[i].metric] >= results[table[i].metric]
         else better[table[i].metric] <= results[table[i].metric]
  }

  /** A run that passes still passes when its results move in their metrics' good directions. */
  lemma BetterResultsStillPass(table: seq<Threshold>, results: map<string, real>, better: map<string, real>,
                               baseline: map<string, real>)
    requires Judge(table, results, baseline) == NoRegression
    requires Improves(table, results, better)
    ensures Judge(table, better, baseline) == NoRegression
  {
    JudgePassesIffAllMet(table, results, baseline);
    JudgePassesIffAllMet(table, better, baseline);
  }

  /** Baseline `eval_f1` 0.80: a result of 0.79 is below 0.792 and fails, 0.80 passes. */
  lemma EvalF1Example()
    ensures Judge(REGRESSION_METRICS, map["eval_f1" := 0.79], map["eval_f1" := 0.80]) == Regressed("eval_f1", 0.79, 0.792)
    ensures Judge(REGRESSION_METRICS, map["eval_f1" := 0.80], map["eval_f1" := 0.80]) == NoRegression
  {
    var b := map["eval_f1" := 0.80];
    var r := map["eval_f1" := 0.80];
    assert "perplexity" !in b && "eval_rougeLsum" !in b && "train_runtime" !in b;
    JudgePassesIffAllMet(REGRESSION_METRICS, r, b);
  }

  /** Baseline `train_runtime` 100: a run of 104 passes, one of 106 fails. */
  lemma TrainRuntimeExample()
    ensures Judge(REGRESSION_METRICS, map["train_runtime" := 104.0], map["train_runtime" := 100.0]) == NoRegression
    ensures Judge(REGRESSION_METRICS, map["train_runtime" := 106.0], map["train_runtime" := 100.0])
         == Regressed("train_runtime", 106.0, 105.0)
  {
    var b := map["train_runtime" := 100.0];
    var pass := map["train_runtime" := 104.0];
    var fail := map["train_runtime" := 106.0];
    assert "eval_f1" !in b && "perplexity" !in b && "eval_rougeLsum" !in b;
    JudgePassesIffAllMet(REGRESSION_METRICS, pass, b);
    var t := REGRESSION_METRICS;
    assert Judge(t, fail, b) == Judge(t[1..], fail, b) == Judge(t[2..], fail, b) == Judge(t[3..], fail, b);
    assert Check(t[3], fail, b) == Regressed("train_runtime", 106.0, 105.0);
  }
}
