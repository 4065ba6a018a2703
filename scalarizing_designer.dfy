/**
 * The scalarizing designer: it makes a single-objective designer usable on a
 * multi-objective problem. `update` writes a derived `scalarized` metric onto every
 * completed trial, in place, and forwards the trials to the wrapped designer; `suggest`
 * returns the wrapped designer's suggestions unchanged.
 *
 * The wrapped designer is a collaborator: its suggestions are a function of the
 * requested count, and the updates it receives are recorded.
 */
module ScalarizingDesigners {
  import opened Wrappers
  import opened Pyvizier
  import opened Scalarization

  /** The name of the derived metric. */
  const ScalarizedMetric := "scalarized"

  /** A trial: fixed parameters and the metrics of its final measurement. */
  class Trial {
    const id: nat
    const parameters: map<string, real>
    var metrics: map<string, Float>

    constructor (id: nat, parameters: map<string, real>, metrics: map<string, Float>)
      ensures this.id == id && this.parameters == parameters && this.metrics == metrics
    {
      this.id := id;
      this.parameters := parameters;
      this.metrics := metrics;
    }
  }

  datatype Suggestion = Suggestion(parameters: map<string, real>)

  /** One call of the wrapped designer's `update`. */
  datatype UpdateCall = UpdateCall(completed: seq<Trial>, active: seq<Trial>)

  /**
   * The objective value of one declared metric, oriented so that larger is better; NaN
   * when the measurement lacks the metric.
   */
  function Objective(metric: MetricInformation, metrics: map<string, Float>): (f: Float)
    ensures metric.name !in metrics ==> f == NaN
    ensures metric.name in metrics && metric.goal == Maximize ==> f == metrics[metric.name]
    ensures metric.name in metrics && metric.goal == Minimize ==> f == Negate(metrics[metric.name])
  {
    if metric.name !in metrics then NaN
    else if metric.goal == Maximize then metrics[metric.name]
    else Negate(metrics[metric.name])
  }

  /** The objective vector of a measurement: one entry per declared metric, in order. */
  function Objectives(declared: seq<MetricInformation>, metrics: map<string, Float>): (v: seq<Float>)
    ensures |v| == |declared|
    ensures forall i :: 0 <= i < |declared| ==> v[i] == Objective(declared[i], metrics)
  {
    seq(|declared|, i requires 0 <= i < |declared| => Objective(declared[i], metrics))
  }

  /** The scalarized value of a measurement. */
  function ScalarizedValue(problem: ProblemStatement, scalarization: Scalarization, metrics: map<string, Float>): Float
    requires WellFormed(scalarization) && |scalarization.weights| == |problem.metricInformation|
  {
    Apply(scalarization, Objectives(problem.metricInformation, metrics))
  }

  /** A trial lacking a declared metric gets NaN, whatever the scalarizer. */
  lemma MissingMetricGivesNaN(problem: ProblemStatement, scalarization: Scalarization,
                              metrics: map<string, Float>, k: nat)
    requires WellFormed(scalarization) && |scalarization.weights| == |problem.metricInformation|
    requires k < |problem.metricInformation| && problem.metricInformation[k].name !in metrics
    ensures ScalarizedValue(problem, scalarization, metrics) == NaN
  {
    assert Objectives(problem.metricInformation, metrics)[k] == NaN;
  }

  /**
   * A trial carrying every declared metric as a number gets a number: the scalarizer
   * applied to the goal-oriented values.
   */
  lemma CompleteMeasurementGivesNumber(problem: ProblemStatement, scalarization: Scalarization,
                                       metrics: map<string, Float>)
    requires WellFormed(scalarization) && |scalarization.weights| == |problem.metricInformation|
    requires forall i :: 0 <= i < |problem.metricInformation| ==>
               problem.metricInformation[i].name in metrics && metrics[problem.metricInformation[i].name].Num?
    ensures ScalarizedValue(problem, scalarization, metrics).Num?
  {
    var v := Objectives(problem.metricInformation, metrics);
    forall i | 0 <= i < |v| ensures v[i].Num? {
      assert v[i] == Objective(problem.metricInformation[i], metrics);
    }
  }

  /** The problem of the missing-metrics test: two maximised metrics, unit weights, only metric1 measured. */
  lemma MissingMetricExample(searchSpace: seq<string>)
    ensures var problem := ProblemStatement(searchSpace, [MetricInformation("metric1", Maximize),
                                                          MetricInformation("metric2", Maximize)]);
            ScalarizedValue(problem, HyperVolumeScalarization([1.0, 1.0]), map["metric1" := Num(0.4)]) == NaN
  {
    var problem := ProblemStatement(searchSpace, [MetricInformation("metric1", Maximize),
                                                  MetricInformation("metric2", Maximize)]);
    MissingMetricGivesNaN(problem, HyperVolumeScalarization([1.0, 1.0]), map["metric1" := Num(0.4)], 1);
  }

  class ScalarizingDesigner {
    /** The multi-objective problem. */
    const problem: ProblemStatement
    const scalarization: Scalarization
    /** The problem the wrapped designer is built for: one maximised `scalarized` metric. */
    const derivedProblem: ProblemStatement
    /** The updates forwarded to the wrapped designer so far. */
    var forwarded: seq<UpdateCall>

    ghost predicate Valid()
      reads this
    {
      && WellFormed(scalarization)
      && |scalarization.weights| == |problem.metricInformation|
      && derivedProblem == ProblemStatement(problem.searchSpace, [MetricInformation(ScalarizedMetric, Maximize)])
    }

    /** The weight vector has one entry per declared metric. */
    constructor (problem: ProblemStatement, scalarization: Scalarization)
      requires WellFormed(scalarization) && |scalarization.weights| == |problem.metricInformation|
      ensures Valid()
      ensures this.problem == problem && this.scalarization == scalarization && forwarded == []
    {
      this.problem := problem;
      this.scalarization := scalarization;
      this.derivedProblem := ProblemStatement(problem.searchSpace, [MetricInformation(ScalarizedMetric, Maximize)]);
      this.forwarded := [];
    }

    /** `suggest(count)`: the wrapped designer's suggestions, unchanged. */
    method Suggest(count: nat, wrapped: nat -> seq<Suggestion>) returns (suggestions: seq<Suggestion>)
      requires Valid()
      ensures suggestions == wrapped(count)
      ensures (forall c: nat :: |wrapped(c)| == c) ==> |suggestions| == count
    {
      suggestions := wrapped(count);
    }

    /**
     * `update(completed, active)`: every completed trial gets the `scalarized` metric
     * computed from its measurement before the call; nothing else about any trial
     * changes, and the wrapped designer receives both lists.
     */
    method Update(completed: seq<Trial>, active: seq<Trial>)
      requires Valid()
      modifies this, set t | t in completed
      ensures Valid()
      ensures forall t :: t in completed ==>
                t.metrics == old(t.metrics)[ScalarizedMetric := ScalarizedValue(problem, scalarization, old(t.metrics))]
      ensures forwarded == old(forwarded) + [UpdateCall(completed, active)]
    {
      var values := seq(|completed|, j requires 0 <= j < |completed| reads completed =>
                          ScalarizedValue(problem, scalarization, completed[j].metrics));
      for i := 0 to |completed|
        invariant forwarded == old(forwarded)
        invariant forall j :: 0 <= j < |completed| ==>
                    completed[j].metrics == if completed[j] in completed[..i]
                                            then old(completed[j].metrics)[ScalarizedMetric := values[j]]
                                            else old(completed[j].metrics)
      {
        completed[i].metrics := completed[i].metrics[ScalarizedMetric := values[i]];
      }
      forwarded := forwarded + [UpdateCall(completed, active)];
      forall t | t in completed
        ensures t.metrics == old(t.metrics)[ScalarizedMetric := ScalarizedValue(problem, scalarization, old(t.metrics))]
      {
        var j :| 0 <= j < |completed| && completed[j] == t;
        assert completed[j] in completed[..|completed|];
      }
    }
  }

  /**
   * The designer test's driver: `iters` rounds of `suggest(batch_size)`, each suggestion
   * turned into a fresh trial completed with the evaluator's metrics, then `update` on
   * the round's trials. With a wrapped designer that returns as many suggestions as
   * asked for, the run yields iters * batch_size trials, all carrying the derived metric.
   */
  method RunDesigner(designer: ScalarizingDesigner, iters: nat, batchSize: nat,
                     wrapped: nat -> seq<Suggestion>, evaluate: nat -> map<string, Float>)
    returns (trials: seq<Trial>)
    requires designer.Valid()
    requires forall c: nat :: |wrapped(c)| == c
    modifies designer
    ensures designer.Valid()
    ensures |trials| == iters * batchSize
    ensures forall t :: t in trials ==> fresh(t) && ScalarizedMetric in t.metrics
  {
    trials := [];
    for round := 0 to iters
      invariant designer.Valid()
      invariant |trials| == round * batchSize
      invariant forall t :: t in trials ==> fresh(t) && ScalarizedMetric in t.metrics
    {
      var suggestions := designer.Suggest(batchSize, wrapped);
      var batch: seq<Trial> := [];
      for k := 0 to |suggestions|
        invariant |batch| == k
        invariant forall t :: t in batch ==> fresh(t) && t !in trials
        invariant forall t :: t in trials ==> ScalarizedMetric in t.metrics
      {
        var id := |trials| + k + 1;
        var trial := new Trial(id, suggestions[k].parameters, evaluate(id));
        batch := batch + [trial];
      }
      designer.Update(batch, []);
      trials := trials + batch;
    }
  }

  /** The designer test: three rounds of five suggestions give fifteen trials. */
  method ScalarizingEagleExample(designer: ScalarizingDesigner, wrapped: nat -> seq<Suggestion>,
                                 evaluate: nat -> map<string, Float>)
    returns (trials: seq<Trial>)
    requires designer.Valid()
    requires forall c: nat :: |wrapped(c)| == c
    modifies designer
    ensures |trials| == 15
  {
    trials := RunDesigner(designer, 3, 5, wrapped, evaluate);
  }

  /**
   * The missing-metrics test: trial 1 completed with only metric1 = 0.4 is updated in
   * place and then carries `scalarized`, equal to NaN.
   */
  method MissingMetricsExample(searchSpace: seq<string>, suggestion: Suggestion) returns (value: Float)
    ensures value == NaN
  {
    var problem := ProblemStatement(searchSpace, [MetricInformation("metric1", Maximize),
                                                  MetricInformation("metric2", Maximize)]);
    var designer := new ScalarizingDesigner(problem, HyperVolumeScalarization([1.0, 1.0]));
    var trial := new Trial(1, suggestion.parameters, map["metric1" := Num(0.4)]);
    designer.Update([trial], []);
    MissingMetricExample(searchSpace);
    assert ScalarizedMetric in trial.metrics;
    value := trial.metrics[ScalarizedMetric];
  }
}
