/** The parts of a problem statement that the modelled code inspects. */
module Pyvizier {

  datatype ObjectiveMetricGoal = Maximize | Minimize

  /** One declared metric: its name and the direction in which it is optimised. */
  datatype MetricInformation = MetricInformation(name: string, goal: ObjectiveMetricGoal)

  /**
   * A problem statement: a search space (only its parameter names matter here) and the
   * ordered collection of declared metrics. Two statements are equal iff both parts are.
   */
  datatype ProblemStatement = ProblemStatement(searchSpace: seq<string>, metricInformation: seq<MetricInformation>)

  /** The names of the declared metrics, in declaration order. */
  function MetricNames(metrics: seq<MetricInformation>): (names: seq<string>)
    ensures |names| == |metrics|
    ensures forall i :: 0 <= i < |metrics| ==> names[i] == metrics[i].name
  {
    seq(|metrics|, i requires 0 <= i < |metrics| => metrics[i].name)
  }
}
