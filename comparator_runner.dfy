/**
 * Comparison tests between a baseline and a candidate algorithm.
 *
 * The benchmark runner, the convergence-curve converter, curve alignment, the
 * log-efficiency score, `GetBestTrials`, the vectorized optimizers and the one-sided
 * t-test are collaborators whose code is not modelled: they are passed in as functions.
 * A state factory is a function of its invocation number, so that every call may return
 * a fresh, differently seeded benchmark state. What remains is the testers' own logic:
 * the validation, the number and order of the runs and samples, the runner
 * configurations, and the pass/fail decisions.
 */
module ComparatorRunner {
  import opened Wrappers
  import opened Pyvizier

  /** A trial as the testers see it: its final measurement, if it has one. */
  datatype Trial = Trial(id: nat, finalMeasurement: Option<map<string, real>>)

  /** A benchmark state: the experimenter's problem statement and the trials of its algorithm. */
  datatype BenchmarkState = BenchmarkState(statement: ProblemStatement, history: seq<Trial>)

  /**
   * The configuration of a benchmark runner with one generate-and-evaluate subroutine:
   * its batch size (None: the subroutine's default) and its number of rounds.
   */
  datatype RunnerConfig = RunnerConfig(batchSize: Option<int>, numRepeats: int)

  /** One call `runner.run(state)`. */
  datatype RunCall = RunCall(state: BenchmarkState, config: RunnerConfig)

  /** A convergence curve; its contents only matter to the collaborators. */
  datatype ConvergenceCurve = ConvergenceCurve(xs: seq<real>, ys: seq<seq<real>>)

  /** The collaborators of both testers. */
  datatype Benchmarks = Benchmarks(
    run: (BenchmarkState, RunnerConfig) -> BenchmarkState,
    convert: (MetricInformation, seq<Trial>) -> ConvergenceCurve,
    alignXs: seq<ConvergenceCurve> -> ConvergenceCurve,
    logEfficiencyScore: (ConvergenceCurve, ConvergenceCurve) -> real,
    getBestTrials: (BenchmarkState, nat) -> seq<Trial>,
    tTestLessMeanScore: (seq<real>, seq<real>) -> real)

  /** The n-th call of a benchmark-state factory. */
  type StateFactory = nat -> BenchmarkState

  datatype OptimizeRequest = OptimizeRequest(count: nat, maxEvaluations: int)

  /** The n-th call `optimize(converter, score_fn, count, max_evaluations)` of an optimizer. */
  type VectorizedOptimizer = (nat, OptimizeRequest) -> seq<Trial>

  /** The exceptions the testers raise, or let through from the expressions they evaluate. */
  datatype Failure =
    | MultimetricNotSupported
    | DifferentStatements(baseline: ProblemStatement, candidate: ProblemStatement)
    | NotSingleMetric
    | IndexOutOfRange
    | NoFinalMeasurement
    | MissingMetric(name: string)
    | ZeroDivision
    | InvalidAlpha(alpha: real)
    | FailedComparisonTest(score: real, threshold: real)
    | FailedSimpleRegretConvergenceTest(pValue: real, alpha: real, baselineSamples: seq<real>, candidateSamples: seq<real>)

  /** What a tester call did: its outcome and the runner calls it made, in order. */
  datatype Verdict = Verdict(outcome: Outcome<Failure>, runs: seq<RunCall>)

  /** The number of iterations of Python's `range(n)`. */
  function RangeLen(n: int): nat
  {
    if n < 0 then 0 else n
  }

  /** Python's floor division `a // b`; Dafny's `/` is Euclidean, which differs for b < 0. */
  function FloorDiv(a: int, b: int): (q: int)
    requires b != 0
    ensures b > 0 ==> q * b <= a < q * b + b
    ensures b < 0 ==> q * b + b < a <= q * b
  {
    if b > 0 then a / b else (-a) / (-b)
  }

  /** `metric_information.item()` and `single_objective_metric_name`: the one declared metric. */
  function SingleMetric(statement: ProblemStatement): (r: Result<MetricInformation, Failure>)
    ensures r.Ok? <==> |statement.metricInformation| == 1
    ensures r.Ok? ==> r.value == statement.metricInformation[0]
    ensures r.Err? ==> r.error == NotSingleMetric
  {
    if |statement.metricInformation| == 1 then Ok(statement.metricInformation[0]) else Err(NotSingleMetric)
  }

  /** `trial.final_measurement.metrics[name].value`. */
  function MetricValue(trial: Trial, name: string): (r: Result<real, Failure>)
    ensures r.Ok? <==> trial.finalMeasurement.Some? && name in trial.finalMeasurement.value
    ensures r.Ok? ==> r.value == trial.finalMeasurement.value[name]
  {
    match trial.finalMeasurement
    case None => Err(NoFinalMeasurement)
    case Some(metrics) => if name in metrics then Ok(metrics[name]) else Err(MissingMetric(name))
  }

  // ---------------------------------------------------------------------------------
  // EfficiencyComparisonTester
  // ---------------------------------------------------------------------------------

  datatype EfficiencyComparisonTester = EfficiencyComparisonTester(numTrials: int, numRepeats: int)

  /** Both attributes default to 1. */
  const DefaultEfficiencyComparisonTester := EfficiencyComparisonTester(1, 1)

  /** The runner shared by all repeats: `num_trials` rounds of the default batch. */
  function EfficiencyRunner(tester: EfficiencyComparisonTester): (c: RunnerConfig)
    ensures c.numRepeats == tester.numTrials && c.batchSize.None?
  {
    RunnerConfig(None, tester.numTrials)
  }

  /** The checks made on the two statements before either run of a repeat. */
  function StatementCheck(baseline: ProblemStatement, candidate: ProblemStatement): (r: Option<Failure>)
    ensures r.None? <==> |baseline.metricInformation| <= 1 && baseline == candidate
    ensures |baseline.metricInformation| > 1 ==> r == Some(MultimetricNotSupported)
    ensures |baseline.metricInformation| <= 1 && baseline != candidate ==>
              r == Some(DifferentStatements(baseline, candidate))
  {
    if |baseline.metricInformation| > 1 then Some(MultimetricNotSupported)
    else if baseline != candidate then Some(DifferentStatements(baseline, candidate))
    else None
  }

  datatype CurvePair = CurvePair(baseline: ConvergenceCurve, candidate: ConvergenceCurve)
  datatype Curves = Curves(baseline: seq<ConvergenceCurve>, candidate: seq<ConvergenceCurve>)
  datatype Step<T> = Step(result: Result<T, Failure>, runs: seq<RunCall>)

  /** Repeat number i of `assert_better_efficiency`: its two curves, and the runs it made. */
  function EfficiencyRepeat(env: Benchmarks, tester: EfficiencyComparisonTester,
                            baselineFactory: StateFactory, candidateFactory: StateFactory, i: nat): Step<CurvePair>
  {
    var baselineState := baselineFactory(i);
    var candidateState := candidateFactory(i);
    match StatementCheck(baselineState.statement, candidateState.statement)
    case Some(f) => Step(Err(f), [])
    case None =>
      var runner := EfficiencyRunner(tester);
      var runs := [RunCall(baselineState, runner), RunCall(candidateState, runner)];
      match SingleMetric(baselineState.statement)
      case Err(f) => Step(Err(f), runs)
      case Ok(metric) =>
        Step(Ok(CurvePair(env.convert(metric, env.run(baselineState, runner).history),
                          env.convert(metric, env.run(candidateState, runner).history))), runs)
  }

  /** The first n repeats: the curves accumulated so far, or the first failure. */
  function EfficiencyLoop(env: Benchmarks, tester: EfficiencyComparisonTester,
                          baselineFactory: StateFactory, candidateFactory: StateFactory, n: nat): Step<Curves>
  {
    if n == 0 then Step(Ok(Curves([], [])), [])
    else
      var prev := EfficiencyLoop(env, tester, baselineFactory, candidateFactory, n - 1);
      if prev.result.Err? then prev
      else
        var step := EfficiencyRepeat(env, tester, baselineFactory, candidateFactory, n - 1);
        var runs := prev.runs + step.runs;
        match step.result
        case Err(f) => Step(Err(f), runs)
        case Ok(pair) =>
          Step(Ok(Curves(prev.result.value.baseline + [pair.baseline],
                         prev.result.value.candidate + [pair.candidate])), runs)
  }

  /** The final decision: the test fails iff the score is strictly below the threshold. */
  function EfficiencyDecision(score: real, threshold: real): (r: Outcome<Failure>)
    ensures r == Pass <==> threshold <= score
    ensures r != Pass ==> r == Fail(FailedComparisonTest(score, threshold))
  {
    if score < threshold then Fail(FailedComparisonTest(score, threshold)) else Pass
  }

  /** What `assert_better_efficiency` does, as a function of its inputs. */
  function BetterEfficiencyVerdict(env: Benchmarks, tester: EfficiencyComparisonTester,
                                   candidateFactory: StateFactory, baselineFactory: StateFactory,
                                   scoreThreshold: real): Verdict
  {
    var loop := EfficiencyLoop(env, tester, baselineFactory, candidateFactory, RangeLen(tester.numRepeats));
    match loop.result
    case Err(f) => Verdict(Fail(f), loop.runs)
    case Ok(curves) =>
      var score := env.logEfficiencyScore(env.alignXs(curves.baseline), env.alignXs(curves.candidate));
      Verdict(EfficiencyDecision(score, scoreThreshold), loop.runs)
  }

  /** One more repeat after i successful ones: its runs are appended, and its failure or curves decide the result. */
  lemma EfficiencyLoopNext(env: Benchmarks, tester: EfficiencyComparisonTester,
                           bf: StateFactory, cf: StateFactory, i: nat)
    requires EfficiencyLoop(env, tester, bf, cf, i).result.Ok?
    ensures var prev := EfficiencyLoop(env, tester, bf, cf, i);
            var step := EfficiencyRepeat(env, tester, bf, cf, i);
            var next := EfficiencyLoop(env, tester, bf, cf, i + 1);
            && next.runs == prev.runs + step.runs
            && (step.result.Err? ==> next.result == Err(step.result.error))
            && (step.result.Ok? ==>
                  next.result == Ok(Curves(prev.result.value.baseline + [step.result.value.baseline],
                                           prev.result.value.candidate + [step.result.value.candidate])))
  {
  }

  /** Once a repeat has failed, no later repeat changes the outcome or makes a run. */
  lemma {:induction false} EfficiencyLoopStopsAtFailure(env: Benchmarks, tester: EfficiencyComparisonTester,
                                                        bf: StateFactory, cf: StateFactory, k: nat, n: nat)
    requires k <= n
    requires EfficiencyLoop(env, tester, bf, cf, k).result.Err?
    ensures EfficiencyLoop(env, tester, bf, cf, n) == EfficiencyLoop(env, tester, bf, cf, k)
    decreases n - k
  {
    if k < n {
      EfficiencyLoopStopsAtFailure(env, tester, bf, cf, k, n - 1);
    }
  }

  /** Repeat i passes its checks and its statement declares exactly one metric. */
  ghost predicate RepeatOk(tester: EfficiencyComparisonTester, bf: StateFactory, cf: StateFactory, i: nat)
  {
    StatementCheck(bf(i).statement, cf(i).statement).None? && |bf(i).statement.metricInformation| == 1
  }

  /**
   * The curves, when every repeat succeeds: exactly n of each, the i-th converted from the
   * i-th state's history after its run, using the baseline statement's metric; the runs are
   * baseline then candidate for each repeat in turn, all with `num_trials` rounds.
   */
  lemma {:induction false} EfficiencyLoopCurves(env: Benchmarks, tester: EfficiencyComparisonTester,
                                                bf: StateFactory, cf: StateFactory, n: nat)
    ensures var loop := EfficiencyLoop(env, tester, bf, cf, n);
            loop.result.Ok? <==> forall i :: 0 <= i < n ==> RepeatOk(tester, bf, cf, i)
    ensures var loop := EfficiencyLoop(env, tester, bf, cf, n);
            loop.result.Ok? ==>
              && |loop.result.value.baseline| == n && |loop.result.value.candidate| == n && |loop.runs| == 2 * n
              && forall i :: 0 <= i < n ==>
                   RepeatOk(tester, bf, cf, i) &&
                   var runner := EfficiencyRunner(tester);
                   var metric := bf(i).statement.metricInformation[0];
                   && loop.result.value.baseline[i] == env.convert(metric, env.run(bf(i), runner).history)
                   && loop.result.value.candidate[i] == env.convert(metric, env.run(cf(i), runner).history)
                   && loop.runs[2 * i] == RunCall(bf(i), runner)
                   && loop.runs[2 * i + 1] == RunCall(cf(i), runner)
  {
    EfficiencyLoopOk(env, tester, bf, cf, n);
    if forall i :: 0 <= i < n ==> RepeatOk(tester, bf, cf, i) {
      EfficiencyLoopValues(env, tester, bf, cf, n);
      EfficiencyLoopRuns(env, tester, bf, cf, n);
      RepeatRunsAt(tester, bf, cf, n);
    }
  }

  /** Repeat i succeeds iff its checks pass and its statement has one metric; it then makes both runs. */
  lemma EfficiencyRepeatOk(env: Benchmarks, tester: EfficiencyComparisonTester,
                           bf: StateFactory, cf: StateFactory, i: nat)
    ensures EfficiencyRepeat(env, tester, bf, cf, i).result.Ok? <==> RepeatOk(tester, bf, cf, i)
    ensures RepeatOk(tester, bf, cf, i) ==>
              EfficiencyRepeat(env, tester, bf, cf, i).runs
              == [RunCall(bf(i), EfficiencyRunner(tester)), RunCall(cf(i), EfficiencyRunner(tester))]
    ensures RepeatOk(tester, bf, cf, i) ==>
              EfficiencyRepeat(env, tester, bf, cf, i).result
              == Ok(CurvePair(RepeatCurve(env, tester, bf(i).statement, bf(i)), RepeatCurve(env, tester, bf(i).statement, cf(i))))
  {
  }

  lemma {:induction false} EfficiencyLoopOk(env: Benchmarks, tester: EfficiencyComparisonTester,
                                            bf: StateFactory, cf: StateFactory, n: nat)
    ensures EfficiencyLoop(env, tester, bf, cf, n).result.Ok? <==> forall i :: 0 <= i < n ==> RepeatOk(tester, bf, cf, i)
  {
    if n > 0 {
      EfficiencyLoopOk(env, tester, bf, cf, n - 1);
      EfficiencyRepeatOk(env, tester, bf, cf, n - 1);
      if !EfficiencyLoop(env, tester, bf, cf, n - 1).result.Ok? {
        var k :| 0 <= k < n - 1 && !RepeatOk(tester, bf, cf, k);
      }
    }
  }

  /** The curve of one run of a repeat: the state's history after the run, converted with the statement's metric. */
  function RepeatCurve(env: Benchmarks, tester: EfficiencyComparisonTester,
                       statement: ProblemStatement, state: BenchmarkState): ConvergenceCurve
    requires |statement.metricInformation| == 1
  {
    env.convert(statement.metricInformation[0], env.run(state, EfficiencyRunner(tester)).history)
  }

  lemma {:induction false} EfficiencyLoopValues(env: Benchmarks, tester: EfficiencyComparisonTester,
                                                bf: StateFactory, cf: StateFactory, n: nat)
    requires forall i :: 0 <= i < n ==> RepeatOk(tester, bf, cf, i)
    ensures var loop := EfficiencyLoop(env, tester, bf, cf, n);
            && loop.result.Ok?
            && |loop.result.value.baseline| == n && |loop.result.value.candidate| == n
            && forall i :: 0 <= i < n ==>
                 && RepeatOk(tester, bf, cf, i)
                 && loop.result.value.baseline[i] == RepeatCurve(env, tester, bf(i).statement, bf(i))
                 && loop.result.value.candidate[i] == RepeatCurve(env, tester, bf(i).statement, cf(i))
  {
    if n > 0 {
      EfficiencyLoopValues(env, tester, bf, cf, n - 1);
      EfficiencyRepeatOk(env, tester, bf, cf, n - 1);
      var prev := EfficiencyLoop(env, tester, bf, cf, n - 1).result.value;
      var pair := EfficiencyRepeat(env, tester, bf, cf, n - 1).result.value;
      assert EfficiencyLoop(env, tester, bf, cf, n).result
          == Ok(Curves(prev.baseline + [pair.baseline], prev.candidate + [pair.candidate]));
      AppendRepeatCurves(env, tester, bf, cf, prev.baseline, pair.baseline, true);
      AppendRepeatCurves(env, tester, bf, cf, prev.candidate, pair.candidate, false);
    }
  }

  /** Appending repeat n's curve to the curves of repeats 0 .. n-1 gives the curves of repeats 0 .. n. */
  lemma AppendRepeatCurves(env: Benchmarks, tester: EfficiencyComparisonTester, bf: StateFactory, cf: StateFactory,
                           curves: seq<ConvergenceCurve>, next: ConvergenceCurve, baseline: bool)
    requires forall i :: 0 <= i <= |curves| ==> |bf(i).statement.metricInformation| == 1
    requires forall i :: 0 <= i < |curves| ==>
               curves[i] == RepeatCurve(env, tester, bf(i).statement, if baseline then bf(i) else cf(i))
    requires next == RepeatCurve(env, tester, bf(|curves|).statement, if baseline then bf(|curves|) else cf(|curves|))
    ensures forall i :: 0 <= i < |curves| + 1 ==>
              (curves + [next])[i] == RepeatCurve(env, tester, bf(i).statement, if baseline then bf(i) else cf(i))
  {
  }

  /** The runs of the first n repeats when each makes both of its runs: baseline, then candidate. */
  function RepeatRuns(tester: EfficiencyComparisonTester, bf: StateFactory, cf: StateFactory, n: nat): seq<RunCall>
  {
    if n == 0 then []
    else RepeatRuns(tester, bf, cf, n - 1) + [RunCall(bf(n - 1), EfficiencyRunner(tester)), RunCall(cf(n - 1), EfficiencyRunner(tester))]
  }

  lemma {:induction false} RepeatRunsAt(tester: EfficiencyComparisonTester, bf: StateFactory, cf: StateFactory, n: nat)
    ensures |RepeatRuns(tester, bf, cf, n)| == 2 * n
    ensures forall i :: 0 <= i < n ==>
              && RepeatRuns(tester, bf, cf, n)[2 * i] == RunCall(bf(i), EfficiencyRunner(tester))
              && RepeatRuns(tester, bf, cf, n)[2 * i + 1] == RunCall(cf(i), EfficiencyRunner(tester))
  {
    if n > 0 {
      RepeatRunsAt(tester, bf, cf, n - 1);
      var prev := RepeatRuns(tester, bf, cf, n - 1);
      var runs := RepeatRuns(tester, bf, cf, n);
      forall i | 0 <= i < n - 1
        ensures runs[2 * i] == prev[2 * i] && runs[2 * i + 1] == prev[2 * i + 1]
      {
      }
    }
  }

  lemma {:induction false} EfficiencyLoopRuns(env: Benchmarks, tester: EfficiencyComparisonTester,
                                              bf: StateFactory, cf: StateFactory, n: nat)
    requires forall i :: 0 <= i < n ==> RepeatOk(tester, bf, cf, i)
    ensures EfficiencyLoop(env, tester, bf, cf, n).runs == RepeatRuns(tester, bf, cf, n)
  {
    if n > 0 {
      EfficiencyLoopRuns(env, tester, bf, cf, n - 1);
      EfficiencyLoopOk(env, tester, bf, cf, n - 1);
      EfficiencyRepeatOk(env, tester, bf, cf, n - 1);
    }
  }

  /**
   * Fail fast: when repeat k is the first whose statement check fails, the call fails with
   * that check's error after exactly the 2k runs of the earlier repeats, before either run
   * of repeat k.
   */
  lemma EfficiencyFailsBeforeRuns(env: Benchmarks, tester: EfficiencyComparisonTester,
                                  cf: StateFactory, bf: StateFactory, scoreThreshold: real, k: nat)
    requires k < RangeLen(tester.numRepeats)
    requires forall i :: 0 <= i < k ==> RepeatOk(tester, bf, cf, i)
    requires StatementCheck(bf(k).statement, cf(k).statement).Some?
    ensures var v := BetterEfficiencyVerdict(env, tester, cf, bf, scoreThreshold);
            && v.outcome == Fail(StatementCheck(bf(k).statement, cf(k).statement).value)
            && |v.runs| == 2 * k
            && forall i :: 0 <= i < k ==> v.runs[2 * i].state == bf(i) && v.runs[2 * i + 1].state == cf(i)
  {
    EfficiencyLoopOk(env, tester, bf, cf, k);
    EfficiencyLoopRuns(env, tester, bf, cf, k);
    RepeatRunsAt(tester, bf, cf, k);
    var prev := EfficiencyLoop(env, tester, bf, cf, k);
    assert EfficiencyRepeat(env, tester, bf, cf, k) == Step(Err(StatementCheck(bf(k).statement, cf(k).statement).value), []);
    assert EfficiencyLoop(env, tester, bf, cf, k + 1) == Step(Err(StatementCheck(bf(k).statement, cf(k).statement).value), prev.runs + []);
    EfficiencyLoopStopsAtFailure(env, tester, bf, cf, k + 1, RangeLen(tester.numRepeats));
  }

  /** The test passes iff every repeat succeeds and the score reaches the threshold. */
  lemma EfficiencyPassIff(env: Benchmarks, tester: EfficiencyComparisonTester,
                          cf: StateFactory, bf: StateFactory, scoreThreshold: real)
    ensures var n := RangeLen(tester.numRepeats);
            var loop := EfficiencyLoop(env, tester, bf, cf, n);
            BetterEfficiencyVerdict(env, tester, cf, bf, scoreThreshold).outcome == Pass <==>
              && (forall i :: 0 <= i < n ==> RepeatOk(tester, bf, cf, i))
              && loop.result.Ok?
              && scoreThreshold <= env.logEfficiencyScore(env.alignXs(loop.result.value.baseline),
                                                          env.alignXs(loop.result.value.candidate))
  {
    EfficiencyLoopCurves(env, tester, bf, cf, RangeLen(tester.numRepeats));
  }

  /** `EfficiencyComparisonTester.assert_better_efficiency`. */
  method AssertBetterEfficiency(tester: EfficiencyComparisonTester, env: Benchmarks,
                                candidateFactory: StateFactory, baselineFactory: StateFactory,
                                scoreThreshold: real)
    returns (outcome: Outcome<Failure>, runs: seq<RunCall>)
    ensures Verdict(outcome, runs) == BetterEfficiencyVerdict(env, tester, candidateFactory, baselineFactory, scoreThreshold)
  {
    var runner := RunnerConfig(None, tester.numTrials);
    var baselineCurves: seq<ConvergenceCurve> := [];
    var candidateCurves: seq<ConvergenceCurve> := [];
    runs := [];
    var n := RangeLen(tester.numRepeats);
    for i := 0 to n
      invariant EfficiencyLoop(env, tester, baselineFactory, candidateFactory, i)
             == Step(Ok(Curves(baselineCurves, candidateCurves)), runs)
    {
      EfficiencyLoopNext(env, tester, baselineFactory, candidateFactory, i);
      var baselineState := baselineFactory(i);
      var candidateState := candidateFactory(i);
      var baselineStatement := baselineState.statement;
      if |baselineStatement.metricInformation| > 1 {
        EfficiencyLoopStopsAtFailure(env, tester, baselineFactory, candidateFactory, i + 1, n);
        return Fail(MultimetricNotSupported), runs;
      }
      var candidateStatement := candidateState.statement;
      if baselineStatement != candidateStatement {
        EfficiencyLoopStopsAtFailure(env, tester, baselineFactory, candidateFactory, i + 1, n);
        return Fail(DifferentStatements(baselineStatement, candidateStatement)), runs;
      }
      var baselineRun := env.run(baselineState, runner);
      runs := runs + [RunCall(baselineState, runner)];
      var candidateRun := env.run(candidateState, runner);
      runs := runs + [RunCall(candidateState, runner)];
      if |baselineStatement.metricInformation| != 1 {
        EfficiencyLoopStopsAtFailure(env, tester, baselineFactory, candidateFactory, i + 1, n);
        return Fail(NotSingleMetric), runs;
      }
      var metric := baselineStatement.metricInformation[0];
      baselineCurves := baselineCurves + [env.convert(metric, baselineRun.history)];
      candidateCurves := candidateCurves + [env.convert(metric, candidateRun.history)];
    }
    var score := env.logEfficiencyScore(env.alignXs(baselineCurves), env.alignXs(candidateCurves));
    if score < scoreThreshold {
      return Fail(FailedComparisonTest(score, scoreThreshold)), runs;
    }
    return Pass, runs;
  }

  // ---------------------------------------------------------------------------------
  // SimpleRegretComparisonTester
  // ---------------------------------------------------------------------------------

  datatype SimpleRegretComparisonTester = SimpleRegretComparisonTester(
    baselineNumTrials: int, candidateNumTrials: int,
    baselineNumRepeats: int, candidateNumRepeats: int,
    alpha: real)

  const DefaultAlpha: real := 0.05

  /** Construction: the `alpha` validator accepts exactly 0 <= alpha <= 0.1. */
  function NewSimpleRegretComparisonTester(baselineNumTrials: int, candidateNumTrials: int,
                                           baselineNumRepeats: int, candidateNumRepeats: int,
                                           alpha: real): (r: Result<SimpleRegretComparisonTester, Failure>)
    ensures r.Ok? <==> 0.0 <= alpha <= 0.1
    ensures r.Ok? ==> r.value == SimpleRegretComparisonTester(baselineNumTrials, candidateNumTrials,
                                                             baselineNumRepeats, candidateNumRepeats, alpha)
    ensures r.Err? ==> r.error == InvalidAlpha(alpha)
  {
    if 0.0 <= alpha && alpha <= 0.1 then
      Ok(SimpleRegretComparisonTester(baselineNumTrials, candidateNumTrials,
                                      baselineNumRepeats, candidateNumRepeats, alpha))
    else Err(InvalidAlpha(alpha))
  }

  /** One sample, and the runs made to obtain it. */
  datatype Draw = Draw(sample: Result<real, Failure>, runs: seq<RunCall>)
  datatype Sampled = Sampled(result: Result<seq<real>, Failure>, runs: seq<RunCall>)

  /** A `for _ in range(n)` loop appending one sample per iteration; the first failure stops it. */
  function CollectSamples(draw: nat -> Draw, n: nat): Sampled
  {
    if n == 0 then Sampled(Ok([]), [])
    else
      var prev := CollectSamples(draw, n - 1);
      if prev.result.Err? then prev
      else
        var d := draw(n - 1);
        var runs := prev.runs + d.runs;
        match d.sample
        case Err(f) => Sampled(Err(f), runs)
        case Ok(v) => Sampled(Ok(prev.result.value + [v]), runs)
  }

  lemma {:induction false} CollectSamplesStopsAtFailure(draw: nat -> Draw, k: nat, n: nat)
    requires k <= n
    requires CollectSamples(draw, k).result.Err?
    ensures CollectSamples(draw, n) == CollectSamples(draw, k)
    decreases n - k
  {
    if k < n {
      CollectSamplesStopsAtFailure(draw, k, n - 1);
    }
  }

  /**
   * The samples, when every draw succeeds: exactly n of them, the i-th being the i-th draw's;
   * when every draw makes one run, the runs are those of the draws, in order.
   */
  lemma {:induction false} CollectSamplesOk(draw: nat -> Draw, n: nat)
    ensures CollectSamples(draw, n).result.Ok? <==> forall i :: 0 <= i < n ==> draw(i).sample.Ok?
    ensures var c := CollectSamples(draw, n);
            c.result.Ok? ==>
              && |c.result.value| == n
              && forall i :: 0 <= i < n ==> draw(i).sample == Ok(c.result.value[i])
    ensures var c := CollectSamples(draw, n);
            c.result.Ok? && (forall i :: 0 <= i < n ==> |draw(i).runs| == 1) ==>
              && |c.runs| == n
              && forall i :: 0 <= i < n ==> c.runs[i] == draw(i).runs[0]
  {
    if n > 0 {
      CollectSamplesOk(draw, n - 1);
      var prev := CollectSamples(draw, n - 1);
      if prev.result.Err? {
        var k :| 0 <= k < n - 1 && !draw(k).sample.Ok?;
      }
    }
  }

  /** The decision: the test passes iff the p-value is at most alpha. */
  function SimpleRegretDecision(alpha: real, pValue: real, baseline: seq<real>, candidate: seq<real>): (r: Outcome<Failure>)
    ensures r == Pass <==> pValue <= alpha
    ensures r != Pass ==> r == Fail(FailedSimpleRegretConvergenceTest(pValue, alpha, baseline, candidate))
  {
    if pValue <= alpha then Pass else Fail(FailedSimpleRegretConvergenceTest(pValue, alpha, baseline, candidate))
  }

  /**
   * Both simple-regret tests: the baseline samples, then the candidate samples, then the
   * t-test with the baseline samples first.
   */
  function SimpleRegretVerdict(tester: SimpleRegretComparisonTester, env: Benchmarks,
                               baselineDraw: nat -> Draw, candidateDraw: nat -> Draw): Verdict
  {
    var b := CollectSamples(baselineDraw, RangeLen(tester.baselineNumRepeats));
    if b.result.Err? then Verdict(Fail(b.result.error), b.runs)
    else
      var c := CollectSamples(candidateDraw, RangeLen(tester.candidateNumRepeats));
      if c.result.Err? then Verdict(Fail(c.result.error), b.runs + c.runs)
      else
        var pValue := env.tTestLessMeanScore(b.result.value, c.result.value);
        Verdict(SimpleRegretDecision(tester.alpha, pValue, b.result.value, c.result.value), b.runs + c.runs)
  }

  /** Either simple-regret test passes iff all samples were obtained and p(baseline, candidate) <= alpha. */
  lemma SimpleRegretPassIff(tester: SimpleRegretComparisonTester, env: Benchmarks,
                            baselineDraw: nat -> Draw, candidateDraw: nat -> Draw)
    ensures var nb := RangeLen(tester.baselineNumRepeats);
            var nc := RangeLen(tester.candidateNumRepeats);
            SimpleRegretVerdict(tester, env, baselineDraw, candidateDraw).outcome == Pass <==>
              && (forall i :: 0 <= i < nb ==> baselineDraw(i).sample.Ok?)
              && (forall i :: 0 <= i < nc ==> candidateDraw(i).sample.Ok?)
              && env.tTestLessMeanScore(seq(nb, i requires 0 <= i < nb => baselineDraw(i).sample.value),
                                        seq(nc, i requires 0 <= i < nc => candidateDraw(i).sample.value))
                 <= tester.alpha
  {
    var nb := RangeLen(tester.baselineNumRepeats);
    var nc := RangeLen(tester.candidateNumRepeats);
    CollectSamplesOk(baselineDraw, nb);
    CollectSamplesOk(candidateDraw, nc);
    var b := CollectSamples(baselineDraw, nb);
    var c := CollectSamples(candidateDraw, nc);
    if b.result.Ok? && c.result.Ok? {
      assert b.result.value == seq(nb, i requires 0 <= i < nb => baselineDraw(i).sample.value);
      assert c.result.value == seq(nc, i requires 0 <= i < nc => candidateDraw(i).sample.value);
    }
  }

  // The optimizer variant.

  const AcquisitionMetric := "acquisition"

  /** `trial[0].final_measurement.metrics['acquisition'].value`. */
  function Acquisition(trials: seq<Trial>): (r: Result<real, Failure>)
    ensures |trials| == 0 ==> r == Err(IndexOutOfRange)
    ensures r.Ok? <==> |trials| > 0 && MetricValue(trials[0], AcquisitionMetric).Ok?
    ensures r.Ok? ==> r.value == trials[0].finalMeasurement.value[AcquisitionMetric]
  {
    if |trials| == 0 then Err(IndexOutOfRange) else MetricValue(trials[0], AcquisitionMetric)
  }

  /** The i-th repeat of the optimizer variant: one `optimize(count=1, max_evaluations=num_trials)` call. */
  function OptimizerSample(optimizer: VectorizedOptimizer, numTrials: int, i: nat): Result<real, Failure>
  {
    Acquisition(optimizer(i, OptimizeRequest(1, numTrials)))
  }

  function OptimizerDraw(optimizer: VectorizedOptimizer, numTrials: int): nat -> Draw
  {
    (i: nat) => Draw(OptimizerSample(optimizer, numTrials, i), [])
  }

  function OptimizerVerdict(tester: SimpleRegretComparisonTester, env: Benchmarks,
                            baselineOptimizer: VectorizedOptimizer, candidateOptimizer: VectorizedOptimizer): Verdict
  {
    SimpleRegretVerdict(tester, env, OptimizerDraw(baselineOptimizer, tester.baselineNumTrials),
                        OptimizerDraw(candidateOptimizer, tester.candidateNumTrials))
  }

  /**
   * The optimizer variant passes iff every optimize call returned a trial carrying an
   * acquisition value and the t-test of the baseline's `baseline_num_repeats` values
   * (first) against the candidate's `candidate_num_repeats` values is at most alpha.
   */
  lemma OptimizerPassIff(tester: SimpleRegretComparisonTester, env: Benchmarks,
                         baselineOptimizer: VectorizedOptimizer, candidateOptimizer: VectorizedOptimizer)
    ensures var nb := RangeLen(tester.baselineNumRepeats);
            var nc := RangeLen(tester.candidateNumRepeats);
            var bt, ct := tester.baselineNumTrials, tester.candidateNumTrials;
            OptimizerVerdict(tester, env, baselineOptimizer, candidateOptimizer).outcome == Pass <==>
              && (forall i :: 0 <= i < nb ==> OptimizerSample(baselineOptimizer, bt, i).Ok?)
              && (forall i :: 0 <= i < nc ==> OptimizerSample(candidateOptimizer, ct, i).Ok?)
              && env.tTestLessMeanScore(seq(nb, i requires 0 <= i < nb => OptimizerSample(baselineOptimizer, bt, i).value),
                                        seq(nc, i requires 0 <= i < nc => OptimizerSample(candidateOptimizer, ct, i).value))
                 <= tester.alpha
  {
    var bd := OptimizerDraw(baselineOptimizer, tester.baselineNumTrials);
    var cd := OptimizerDraw(candidateOptimizer, tester.candidateNumTrials);
    assert forall i: nat :: bd(i).sample == OptimizerSample(baselineOptimizer, tester.baselineNumTrials, i);
    assert forall i: nat :: cd(i).sample == OptimizerSample(candidateOptimizer, tester.candidateNumTrials, i);
    SimpleRegretPassIff(tester, env, bd, cd);
    var nb := RangeLen(tester.baselineNumRepeats);
    var nc := RangeLen(tester.candidateNumRepeats);
    if (forall i :: 0 <= i < nb ==> bd(i).sample.Ok?) && (forall i :: 0 <= i < nc ==> cd(i).sample.Ok?) {
      assert seq(nb, i requires 0 <= i < nb => bd(i).sample.value)
          == seq(nb, i requires 0 <= i < nb => OptimizerSample(baselineOptimizer, tester.baselineNumTrials, i).value);
      assert seq(nc, i requires 0 <= i < nc => cd(i).sample.value)
          == seq(nc, i requires 0 <= i < nc => OptimizerSample(candidateOptimizer, tester.candidateNumTrials, i).value);
    }
  }

  /** `SimpleRegretComparisonTester.assert_optimizer_better_simple_regret`. */
  method AssertOptimizerBetterSimpleRegret(tester: SimpleRegretComparisonTester, env: Benchmarks,
                                           baselineOptimizer: VectorizedOptimizer,
                                           candidateOptimizer: VectorizedOptimizer)
    returns (outcome: Outcome<Failure>)
    ensures outcome == OptimizerVerdict(tester, env, baselineOptimizer, candidateOptimizer).outcome
  {
    var baselineDraw := OptimizerDraw(baselineOptimizer, tester.baselineNumTrials);
    var candidateDraw := OptimizerDraw(candidateOptimizer, tester.candidateNumTrials);
    var baselineSimpleRegrets: seq<real> := [];
    var candidateSimpleRegrets: seq<real> := [];
    var nb := RangeLen(tester.baselineNumRepeats);
    for i := 0 to nb
      invariant CollectSamples(baselineDraw, i) == Sampled(Ok(baselineSimpleRegrets), [])
    {
      var trial := baselineOptimizer(i, OptimizeRequest(1, tester.baselineNumTrials));
      var simpleRegret := Acquisition(trial);
      if simpleRegret.Err? {
        CollectSamplesStopsAtFailure(baselineDraw, i + 1, nb);
        return Fail(simpleRegret.error);
      }
      baselineSimpleRegrets := baselineSimpleRegrets + [simpleRegret.value];
    }
    var nc := RangeLen(tester.candidateNumRepeats);
    for i := 0 to nc
      invariant CollectSamples(candidateDraw, i) == Sampled(Ok(candidateSimpleRegrets), [])
    {
      var trial := candidateOptimizer(i, OptimizeRequest(1, tester.candidateNumTrials));
      var simpleRegret := Acquisition(trial);
      if simpleRegret.Err? {
        CollectSamplesStopsAtFailure(candidateDraw, i + 1, nc);
        return Fail(simpleRegret.error);
      }
      candidateSimpleRegrets := candidateSimpleRegrets + [simpleRegret.value];
    }
    var pValue := env.tTestLessMeanScore(baselineSimpleRegrets, candidateSimpleRegrets);
    if pValue <= tester.alpha {
      return Pass;
    }
    return Fail(FailedSimpleRegretConvergenceTest(pValue, tester.alpha, baselineSimpleRegrets, candidateSimpleRegrets));
  }

  // The benchmark-state variant.

  /** The runner of `_run_one`: `num_trials // batch_size` rounds of `batch_size` trials. */
  function BatchRunner(numTrials: int, batchSize: int): (c: RunnerConfig)
    requires batchSize != 0
    ensures c.batchSize == Some(batchSize)
    ensures batchSize > 0 ==> c.numRepeats * batchSize <= numTrials < c.numRepeats * batchSize + batchSize
  {
    RunnerConfig(Some(batchSize), FloorDiv(numTrials, batchSize))
  }

  /**
   * `_run_one`: a fresh state, one run, then the single-objective metric of the first best
   * trial. The state is made before `num_trials // batch_size` can divide by zero.
   */
  function RunOne(env: Benchmarks, factory: StateFactory, i: nat, numTrials: int, batchSize: int): Draw
  {
    var state := factory(i);
    if batchSize == 0 then Draw(Err(ZeroDivision), [])
    else
      var runner := BatchRunner(numTrials, batchSize);
      var ran := env.run(state, runner);
      var best := env.getBestTrials(ran, 1);
      var sample :=
        if |best| == 0 then Err(IndexOutOfRange)
        else match SingleMetric(ran.statement)
             case Err(f) => Err(f)
             case Ok(metric) => MetricValue(best[0], metric.name);
      Draw(sample, [RunCall(state, runner)])
  }

  function BenchmarkVerdict(tester: SimpleRegretComparisonTester, env: Benchmarks,
                            baselineFactory: StateFactory, candidateFactory: StateFactory,
                            baselineBatchSize: int, candidateBatchSize: int): Verdict
  {
    SimpleRegretVerdict(tester, env,
                        RunDraw(env, baselineFactory, tester.baselineNumTrials, baselineBatchSize),
                        RunDraw(env, candidateFactory, tester.candidateNumTrials, candidateBatchSize))
  }

  /** The i-th repeat of the benchmark-state variant is `_run_one` on the factory's i-th state. */
  function RunDraw(env: Benchmarks, factory: StateFactory, numTrials: int, batchSize: int): nat -> Draw
  {
    (i: nat) => RunOne(env, factory, i, numTrials, batchSize)
  }

  /**
   * In the benchmark-state variant, when the test reaches the t-test, the baseline made
   * exactly `baseline_num_repeats` runs and then the candidate `candidate_num_repeats`,
   * the i-th on the factory's i-th state with `num_trials // batch_size` rounds of
   * `batch_size`; the samples passed are the best trials' metric values.
   */
  lemma BenchmarkRuns(tester: SimpleRegretComparisonTester, env: Benchmarks,
                      baselineFactory: StateFactory, candidateFactory: StateFactory,
                      baselineBatchSize: int, candidateBatchSize: int)
    requires baselineBatchSize != 0 && candidateBatchSize != 0
    ensures var nb := RangeLen(tester.baselineNumRepeats);
            var nc := RangeLen(tester.candidateNumRepeats);
            var bd := RunDraw(env, baselineFactory, tester.baselineNumTrials, baselineBatchSize);
            var cd := RunDraw(env, candidateFactory, tester.candidateNumTrials, candidateBatchSize);
            var v := BenchmarkVerdict(tester, env, baselineFactory, candidateFactory, baselineBatchSize, candidateBatchSize);
            (forall i :: 0 <= i < nb ==> bd(i).sample.Ok?) && (forall i :: 0 <= i < nc ==> cd(i).sample.Ok?) ==>
              v.runs == BatchRuns(baselineFactory, nb, tester.baselineNumTrials, baselineBatchSize)
                        + BatchRuns(candidateFactory, nc, tester.candidateNumTrials, candidateBatchSize)
  {
    var nb := RangeLen(tester.baselineNumRepeats);
    var nc := RangeLen(tester.candidateNumRepeats);
    var bd := RunDraw(env, baselineFactory, tester.baselineNumTrials, baselineBatchSize);
    var cd := RunDraw(env, candidateFactory, tester.candidateNumTrials, candidateBatchSize);
    if (forall i :: 0 <= i < nb ==> bd(i).sample.Ok?) && (forall i :: 0 <= i < nc ==> cd(i).sample.Ok?) {
      BatchRunsOfDraws(env, baselineFactory, nb, tester.baselineNumTrials, baselineBatchSize);
      BatchRunsOfDraws(env, candidateFactory, nc, tester.candidateNumTrials, candidateBatchSize);
      SimpleRegretRuns(tester, env, bd, cd);
    }
  }

  /** The runs of the first n repeats: one `RunCall` per repeat, on the factory's i-th state. */
  function BatchRuns(factory: StateFactory, n: nat, numTrials: int, batchSize: int): (r: seq<RunCall>)
    requires batchSize != 0
    ensures |r| == n
  {
    seq(n, i requires 0 <= i < n => RunCall(factory(i), BatchRunner(numTrials, batchSize)))
  }

  /** Collecting n successful `_run_one` repeats makes `BatchRuns`. */
  lemma BatchRunsOfDraws(env: Benchmarks, factory: StateFactory, n: nat, numTrials: int, batchSize: int)
    requires batchSize != 0
    ensures var draw := RunDraw(env, factory, numTrials, batchSize);
            (forall i :: 0 <= i < n ==> draw(i).sample.Ok?) ==>
              && CollectSamples(draw, n).result.Ok?
              && CollectSamples(draw, n).runs == BatchRuns(factory, n, numTrials, batchSize)
  {
    var draw := RunDraw(env, factory, numTrials, batchSize);
    if forall i :: 0 <= i < n ==> draw(i).sample.Ok? {
      forall i: nat | i < n
        ensures draw(i).runs == [RunCall(factory(i), BatchRunner(numTrials, batchSize))]
      {
        RunOneRun(env, factory, i, numTrials, batchSize);
      }
      CollectSamplesRuns(draw, n);
    }
  }

  /** `_run_one` with a non-zero batch size makes exactly one run, on the factory's fresh state. */
  lemma RunOneRun(env: Benchmarks, factory: StateFactory, i: nat, numTrials: int, batchSize: int)
    requires batchSize != 0
    ensures RunOne(env, factory, i, numTrials, batchSize).runs == [RunCall(factory(i), BatchRunner(numTrials, batchSize))]
  {
  }

  /** When both sides' samples are obtained, a simple-regret test makes the baseline's runs, then the candidate's. */
  lemma SimpleRegretRuns(tester: SimpleRegretComparisonTester, env: Benchmarks,
                         baselineDraw: nat -> Draw, candidateDraw: nat -> Draw)
    ensures var b := CollectSamples(baselineDraw, RangeLen(tester.baselineNumRepeats));
            var c := CollectSamples(candidateDraw, RangeLen(tester.candidateNumRepeats));
            b.result.Ok? && c.result.Ok? ==>
              SimpleRegretVerdict(tester, env, baselineDraw, candidateDraw).runs == b.runs + c.runs
  {
  }

  /** The runs of a sample collection whose every draw succeeds with one run: one per draw, in order. */
  lemma CollectSamplesRuns(draw: nat -> Draw, n: nat)
    requires forall i :: 0 <= i < n ==> draw(i).sample.Ok? && |draw(i).runs| == 1
    ensures CollectSamples(draw, n).result.Ok?
    ensures CollectSamples(draw, n).runs == seq(n, i requires 0 <= i < n => draw(i).runs[0])
  {
    CollectSamplesOk(draw, n);
  }

  /** A zero batch size fails with a division error before any run, if there is a baseline repeat. */
  lemma BenchmarkZeroBatchSize(tester: SimpleRegretComparisonTester, env: Benchmarks,
                               baselineFactory: StateFactory, candidateFactory: StateFactory,
                               candidateBatchSize: int)
    requires tester.baselineNumRepeats > 0
    ensures BenchmarkVerdict(tester, env, baselineFactory, candidateFactory, 0, candidateBatchSize)
         == Verdict(Fail(ZeroDivision), [])
  {
    var bd := RunDraw(env, baselineFactory, tester.baselineNumTrials, 0);
    assert CollectSamples(bd, 1).result == Err(ZeroDivision);
    CollectSamplesStopsAtFailure(bd, 1, RangeLen(tester.baselineNumRepeats));
  }

  /** `SimpleRegretComparisonTester.assert_benchmark_state_better_simple_regret`. */
  method AssertBenchmarkStateBetterSimpleRegret(tester: SimpleRegretComparisonTester, env: Benchmarks,
                                                baselineFactory: StateFactory, candidateFactory: StateFactory,
                                                baselineBatchSize: int, candidateBatchSize: int)
    returns (outcome: Outcome<Failure>, runs: seq<RunCall>)
    ensures Verdict(outcome, runs)
         == SimpleRegretVerdict(tester, env, RunDraw(env, baselineFactory, tester.baselineNumTrials, baselineBatchSize),
                                RunDraw(env, candidateFactory, tester.candidateNumTrials, candidateBatchSize))
    ensures Verdict(outcome, runs)
         == BenchmarkVerdict(tester, env, baselineFactory, candidateFactory, baselineBatchSize, candidateBatchSize)
  {
    var baselineDraw := RunDraw(env, baselineFactory, tester.baselineNumTrials, baselineBatchSize);
    var candidateDraw := RunDraw(env, candidateFactory, tester.candidateNumTrials, candidateBatchSize);
    var baselineSimpleRegrets: seq<real> := [];
    var candidateSimpleRegrets: seq<real> := [];
    var baselineRuns: seq<RunCall> := [];
    var nb := RangeLen(tester.baselineNumRepeats);
    for i := 0 to nb
      invariant CollectSamples(baselineDraw, i) == Sampled(Ok(baselineSimpleRegrets), baselineRuns)
    {
      var d := baselineDraw(i);
      baselineRuns := baselineRuns + d.runs;
      if d.sample.Err? {
        CollectSamplesStopsAtFailure(baselineDraw, i + 1, nb);
        return Fail(d.sample.error), baselineRuns;
      }
      baselineSimpleRegrets := baselineSimpleRegrets + [d.sample.value];
    }
    var candidateRuns: seq<RunCall> := [];
    var nc := RangeLen(tester.candidateNumRepeats);
    for i := 0 to nc
      invariant CollectSamples(candidateDraw, i) == Sampled(Ok(candidateSimpleRegrets), candidateRuns)
    {
      var d := candidateDraw(i);
      candidateRuns := candidateRuns + d.runs;
      if d.sample.Err? {
        CollectSamplesStopsAtFailure(candidateDraw, i + 1, nc);
        return Fail(d.sample.error), baselineRuns + candidateRuns;
      }
      candidateSimpleRegrets := candidateSimpleRegrets + [d.sample.value];
    }
    runs := baselineRuns + candidateRuns;
    var pValue := env.tTestLessMeanScore(baselineSimpleRegrets, candidateSimpleRegrets);
    if pValue <= tester.alpha {
      return Pass, runs;
    }
    return Fail(FailedSimpleRegretConvergenceTest(pValue, tester.alpha, baselineSimpleRegrets, candidateSimpleRegrets)), runs;
  }
}
