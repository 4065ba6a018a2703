# Vizier core, modelled in Dafny

This project models five parts of the Vizier black-box optimisation service and proves
properties of them.

- **Comparison testers** check that a candidate algorithm beats a baseline.
  - `EfficiencyComparisonTester.assert_better_efficiency` validates the two problem
    statements of each repeat before it runs anything. It then converts the histories
    into convergence curves and compares their log-efficiency score with a threshold.
  - `SimpleRegretComparisonTester` collects simple-regret samples, either from vectorized
    optimizers or from benchmark states. It passes when a one-sided t-test gives a
    p-value of at most `alpha`; `alpha` is validated to lie in [0, 0.1] and defaults to
    0.05.
- **Scalarization.** The linear and hypervolume scalarizers turn a vector of objectives
  into one score. The `ScalarizingDesigner` writes the derived `scalarized` metric onto
  every completed trial, in place, before forwarding the trials to a single-objective
  designer. A trial that lacks a declared metric gets NaN.
- **Vectorized eagle strategy.** Its pool of fireflies has features, rewards and
  perturbations. The model covers:
  - the feature differences and squared distances of the batch;
  - the gravity / negative-gravity directions, including removed flies with reward −∞;
  - the pool update after a batch is evaluated;
  - the best-results list;
  - trimming of stale flies, which never removes the best one.
- **Eagle parameter handler.** It lays out the feature vector: one-hot blocks with an
  out-of-vocabulary (OOV) slot for the categorical parameters. The model covers the
  masks derived from that layout and categorical sampling.
- **Datastore.** The create/get/list/update/delete contract of the in-memory store of
  studies, trials, suggestion operations, early-stopping operations and metadata, and the
  five scenario checks that drive it.
- **Pythia server.** The registry that maps an algorithm name to a policy. The
  `PythiaService` handle on the Vizier service, which can be set once. The `Suggest` /
  `EarlyStop` handlers, with the wrapping of a policy's error.

The form the model takes:

- Collaborators whose code is not part of this model are function-valued parameters: the
  benchmark runner, curve conversion and alignment, the t-test, optimizers, designers,
  policies, stub creation and random draws.
- A state factory is a function of its invocation number.
- Stateful objects are classes with `modifies` clauses: the eagle strategy (arrays), the
  scalarizing designer and its trials, the datastore, and the Pythia service.
- Floating point is modelled only in the scalarizers (`NaN`) and the eagle strategy (−∞
  rewards). The comparator's scores and p-values are exact reals (see "Left out").

Files:

- `wrappers.dfy`: `Option`, `Result` and `Outcome`.
- `pyvizier.dfy`: problem statements.
- `comparator_runner.dfy`
- `scalarization.dfy` and `scalarizing_designer.dfy`
- `eagle_strategy.dfy` and `eagle_param_handler.dfy`
- `datastore.dfy` and `datastore_scenarios.dfy`
- `pythia_server.dfy`

## Model

| member | source | states |
|---|---|---|
| ComparatorRunner.FloorDiv | vizier/_src/algorithms/testing/comparator_runner.py:190 | Python's `//`: for a positive divisor q·b ≤ a < q·b + b; for a negative divisor the mirrored bounds |
| ComparatorRunner.SingleMetric | vizier/_src/algorithms/testing/comparator_runner.py:86-93 | `metric_information.item()` succeeds iff exactly one metric is declared, and then returns it |
| ComparatorRunner.MetricValue | vizier/_src/algorithms/testing/comparator_runner.py:193-196 | a metric value exists iff the trial has a final measurement containing the metric, and it is that measurement's value |
| ComparatorRunner.EfficiencyRunner | vizier/_src/algorithms/testing/comparator_runner.py:65-67 | the shared runner does `num_trials` rounds of the default batch |
| ComparatorRunner.StatementCheck | vizier/_src/algorithms/testing/comparator_runner.py:75-82 | a repeat passes iff the baseline declares at most one metric and the statements are equal; the multimetric error takes precedence over the different-statements error |
| ComparatorRunner.EfficiencyDecision | vizier/_src/algorithms/testing/comparator_runner.py:99-105 | pass iff the score is at least the threshold; otherwise a failure carrying both |
| ComparatorRunner.EfficiencyLoopStopsAtFailure | vizier/_src/algorithms/testing/comparator_runner.py:71-85 | after a failed repeat, later repeats change neither the outcome nor the runs |
| ComparatorRunner.EfficiencyLoopCurves | vizier/_src/algorithms/testing/comparator_runner.py:71-93 | all repeats succeed iff every repeat's check passes; then there are n curves of each kind, converted with the baseline's metric from each state after its run, and 2n runs alternating baseline and candidate |
| ComparatorRunner.EfficiencyRepeatOk | vizier/_src/algorithms/testing/comparator_runner.py:71-93 | one repeat succeeds iff both statements pass the checks and declare one metric; it then runs baseline and candidate and yields the two converted curves |
| ComparatorRunner.EfficiencyLoopOk | vizier/_src/algorithms/testing/comparator_runner.py:71-93 | the first n repeats succeed iff each of them passes its checks |
| ComparatorRunner.EfficiencyLoopValues | vizier/_src/algorithms/testing/comparator_runner.py:71-93 | when every repeat passes, there are n baseline and n candidate curves, the i-th converted with repeat i's baseline metric from the i-th states |
| ComparatorRunner.EfficiencyLoopRuns | vizier/_src/algorithms/testing/comparator_runner.py:71-85 | when every repeat passes, the runs made are baseline then candidate for each repeat in turn |
| ComparatorRunner.RepeatRunsAt | vizier/_src/algorithms/testing/comparator_runner.py:71-85 | that run list has 2n entries, run 2i on baseline state i and run 2i+1 on candidate state i, all with `num_trials` rounds |
| ComparatorRunner.EfficiencyFailsBeforeRuns | vizier/_src/algorithms/testing/comparator_runner.py:75-85 | when repeat k is the first to fail its check, the call fails with that error after exactly the 2k runs of the earlier repeats |
| ComparatorRunner.EfficiencyPassIff | vizier/_src/algorithms/testing/comparator_runner.py:57-105 | the test passes iff every repeat's check passes and the log-efficiency score of the aligned curves reaches the threshold |
| ComparatorRunner.AssertBetterEfficiency | vizier/_src/algorithms/testing/comparator_runner.py:57-105 | the loop's outcome and its runner calls are those of the specification function `BetterEfficiencyVerdict` |
| ComparatorRunner.NewSimpleRegretComparisonTester | vizier/_src/algorithms/testing/comparator_runner.py:124-131 | construction succeeds iff 0 ≤ alpha ≤ 0.1 and then keeps the four counts; otherwise an invalid-alpha error |
| ComparatorRunner.CollectSamplesStopsAtFailure | vizier/_src/algorithms/testing/comparator_runner.py:145-161 | once a sample fails, later iterations change nothing |
| ComparatorRunner.CollectSamplesOk | vizier/_src/algorithms/testing/comparator_runner.py:145-161 | collection succeeds iff every draw does; then the i-th sample is the i-th draw's value, and the runs are the draws' runs in order |
| ComparatorRunner.SimpleRegretDecision | vizier/_src/algorithms/testing/comparator_runner.py:163-172 | pass iff p ≤ alpha; otherwise a failure carrying p, alpha and both sample lists |
| ComparatorRunner.SimpleRegretPassIff | vizier/_src/algorithms/testing/comparator_runner.py:142-172 | a simple-regret test passes iff all samples are obtained and the t-test of the baseline (first) against the candidate is at most alpha |
| ComparatorRunner.Acquisition | vizier/_src/algorithms/testing/comparator_runner.py:151 | an empty result is an index error; otherwise the first trial's `acquisition` value, if present |
| ComparatorRunner.OptimizerPassIff | vizier/_src/algorithms/testing/comparator_runner.py:133-172 | the optimizer variant passes iff every optimize call yields an acquisition value and the t-test over `baseline_num_repeats` and `candidate_num_repeats` values is at most alpha |
| ComparatorRunner.AssertOptimizerBetterSimpleRegret | vizier/_src/algorithms/testing/comparator_runner.py:133-172 | the two loops and the decision give the outcome of `OptimizerVerdict` |
| ComparatorRunner.BatchRunner | vizier/_src/algorithms/testing/comparator_runner.py:188-190 | the runner of `_run_one` has the given batch size and floor(num_trials / batch_size) rounds |
| ComparatorRunner.BenchmarkRuns | vizier/_src/algorithms/testing/comparator_runner.py:184-208 | run order when all samples succeed: `baseline_num_repeats` runs, the i-th on the factory's i-th state with `num_trials // batch_size` rounds of `batch_size`, then the candidate's in the same way |
| ComparatorRunner.RunOneRun | vizier/_src/algorithms/testing/comparator_runner.py:184-195 | `_run_one` with a non-zero batch size makes exactly one run, on the factory's fresh state |
| ComparatorRunner.BatchRunsOfDraws | vizier/_src/algorithms/testing/comparator_runner.py:201-208 | a loop of successful `_run_one` repeats makes one run per repeat, in order |
| ComparatorRunner.SimpleRegretRuns | vizier/_src/algorithms/testing/comparator_runner.py:201-210 | once both loops finish, the runs are the baseline loop's followed by the candidate loop's |
| ComparatorRunner.CollectSamplesRuns | vizier/_src/algorithms/testing/comparator_runner.py:145-152 | a loop whose every draw succeeds with one run collects one run per draw, in order |
| ComparatorRunner.BenchmarkZeroBatchSize | vizier/_src/algorithms/testing/comparator_runner.py:184-191 | a zero baseline batch size fails with a division error before any run |
| ComparatorRunner.AssertBenchmarkStateBetterSimpleRegret | vizier/_src/algorithms/testing/comparator_runner.py:174-218 | outcome and runner calls are those of `BenchmarkVerdict` |
| Scalarization.MinRatio | vizier/_src/algorithms/designers/scalarizing_designer_test.py:36-40 | the minimum of v[i] / w[i]: a lower bound on every ratio and attained by one |
| Scalarization.Apply | vizier/_src/algorithms/designers/scalarizing_designer_test.py:31-40 | a scalarizer yields NaN iff some objective is NaN |
| Scalarization.LinearIsWeightedSum | vizier/_src/algorithms/designers/scalarizing_designer_test.py:31-34 | the linear scalarizer on numbers is the weighted sum |
| Scalarization.HyperVolumeIsMinRatio | vizier/_src/algorithms/designers/scalarizing_designer_test.py:36-40 | the hypervolume scalarizer on numbers is a number bounding every v[i] / w[i] from below and equal to one of them |
| Scalarization.DotMonotone | vizier/_src/algorithms/designers/scalarizing_designer_test.py:31-34 | with non-negative weights, raising objectives never lowers the linear score |
| Scalarization.MinRatioMonotone | vizier/_src/algorithms/designers/scalarizing_designer_test.py:36-40 | with positive weights, raising objectives never lowers the hypervolume score |
| Scalarization.LinearExample | vizier/_src/algorithms/designers/scalarizing_designer_test.py:30-34 | weights (0.1, 0.2) on (3.0, 4.5) give 1.2 |
| Scalarization.HyperVolumeExample | vizier/_src/algorithms/designers/scalarizing_designer_test.py:36-40 | weights (0.1, 0.2) on (3.0, 4.5) give 22.5 |
| ScalarizingDesigners.Objective | vizier/_src/algorithms/designers/scalarizing_designer_test.py:49-56 | a missing metric gives NaN; a maximised metric its value; a minimised one its negation |
| ScalarizingDesigners.Objectives | vizier/_src/algorithms/designers/scalarizing_designer_test.py:63-68 | one objective per declared metric, in declaration order |
| ScalarizingDesigners.MissingMetricGivesNaN | vizier/_src/algorithms/designers/scalarizing_designer_test.py:107-116 | a measurement lacking any declared metric is scalarized to NaN, whatever the scalarizer |
| ScalarizingDesigners.CompleteMeasurementGivesNumber | vizier/_src/algorithms/designers/scalarizing_designer_test.py:107-116 | a measurement with every declared metric as a number is scalarized to a number |
| ScalarizingDesigners.MissingMetricExample | vizier/_src/algorithms/designers/scalarizing_designer_test.py:81-116 | the test's problem with only metric1 = 0.4 measured scalarizes to NaN |
| ScalarizingDesigners.Trial.constructor | vizier/_src/algorithms/designers/scalarizing_designer_test.py:108-109 | a trial holds the given id, parameters and metrics |
| ScalarizingDesigners.ScalarizingDesigner.constructor | vizier/_src/algorithms/designers/scalarizing_designer_test.py:99-105 | the designer keeps the problem and the scalarizer; the wrapped designer sees one maximised `scalarized` metric |
| ScalarizingDesigners.ScalarizingDesigner.Suggest | vizier/_src/algorithms/designers/scalarizing_designer_test.py:107-108 | the wrapped designer's suggestions, unchanged, as many as asked for when it complies |
| ScalarizingDesigners.ScalarizingDesigner.Update | vizier/_src/algorithms/designers/scalarizing_designer_test.py:109-116 | every completed trial gains `scalarized` = the scalarized value of its prior metrics, nothing else of it changes, and the wrapped designer receives both lists |
| ScalarizingDesigners.RunDesigner | vizier/_src/algorithms/designers/scalarizing_designer_test.py:70-79 | `iters` rounds of `batch_size` suggestions yield iters·batch_size fresh trials, each carrying `scalarized` |
| ScalarizingDesigners.ScalarizingEagleExample | vizier/_src/algorithms/designers/scalarizing_designer_test.py:45-79 | three rounds of five give fifteen trials |
| ScalarizingDesigners.MissingMetricsExample | vizier/_src/algorithms/designers/scalarizing_designer_test.py:81-116 | after `update`, the trial completed with only metric1 carries `scalarized` = NaN |
| EagleStrategy.UpdateFlyImproves | vizier/_src/algorithms/optimizers/eagle_strategy_test.py:113-138 | a batch fly's reward never decreases; it changes iff the new reward is strictly greater; then features and reward are replaced and the perturbation is kept, otherwise only the perturbation is multiplied by the penalize factor |
| EagleStrategy.VectorDiff | vizier/_src/algorithms/optimizers/eagle_strategy_test.py:46-54 | the element-wise difference of two feature rows |
| EagleStrategy.SquaredNormOfNegation | vizier/_src/algorithms/optimizers/eagle_strategy_test.py:56-58 | u − v and v − u have the same squared norm, so the distances are symmetric |
| EagleStrategy.DistSelfAndSymmetry | vizier/_src/algorithms/optimizers/eagle_strategy_test.py:46-58 | a batch fly's distance to itself is 0, and its distance to fly j is the squared norm of their difference |
| EagleStrategy.DiffsExample | vizier/_src/algorithms/optimizers/eagle_strategy_test.py:46-54 | the test's pool gives the expected differences |
| EagleStrategy.DiffsExampleRow | vizier/_src/algorithms/optimizers/eagle_strategy_test.py:46-54 | row k of the differences is each pool row minus pool row k |
| EagleStrategy.DistsExample | vizier/_src/algorithms/optimizers/eagle_strategy_test.py:56-58 | those differences give distances [[0, 8, 61, 85], [8, 0, 25, 41]] |
| EagleStrategy.GravityIff | vizier/_src/algorithms/optimizers/eagle_strategy_test.py:71-81 | gravity applies iff pool − batch reward is ≥ 0, i.e. iff the pool reward is finite and at least the batch reward; −∞ − (−∞) is not ≥ 0 although −∞ ≥ −∞ |
| EagleStrategy.ScaledDirectionsExample | vizier/_src/algorithms/optimizers/eagle_strategy_test.py:60-69 | rewards (2, 3, 4, 1) give [[g, g, g, ng], [ng, g, g, ng]] |
| EagleStrategy.ScaledDirectionsRemovedFliesExample | vizier/_src/algorithms/optimizers/eagle_strategy_test.py:71-81 | rewards (−∞, 3, −∞, 1) give [[ng, g, ng, g], [ng, g, ng, ng]] |
| EagleStrategy.Insert | vizier/_src/algorithms/optimizers/eagle_strategy_test.py:140-168 | inserting a result adds exactly that result (multiset) |
| EagleStrategy.InsertSorted | vizier/_src/algorithms/optimizers/eagle_strategy_test.py:140-168 | insertion keeps the best results sorted by decreasing reward |
| EagleStrategy.InsertAllProperties | vizier/_src/algorithms/optimizers/eagle_strategy_test.py:140-168 | after a batch, the best results are sorted, min(cap, old + new) long, and drawn from the old and new results |
| EagleStrategy.InsertAllKeepsMaximum | vizier/_src/algorithms/optimizers/eagle_strategy_test.py:140-168 | the first best result has the highest reward of all old and new results |
| EagleStrategy.InsertHead | vizier/_src/algorithms/optimizers/eagle_strategy_test.py:140-168 | after one insertion into sorted results, the head has the highest reward of the old results and the new one |
| EagleStrategy.TruncateSorted | vizier/_src/algorithms/optimizers/eagle_strategy_test.py:140-168 | capping sorted results keeps them sorted, min(cap, length) long, with the same head when there is room |
| EagleStrategy.BestResultsExample | vizier/_src/algorithms/optimizers/eagle_strategy_test.py:140-168 | the test's three batches leave (5, [9, 9]), (5, [9, 9]) and (6, [1, 1]) on top |
| EagleStrategy.ArgMax | vizier/_src/algorithms/optimizers/eagle_strategy_test.py:193-197 | the index of the best fly: at least every reward, strictly greater than those before it |
| EagleStrategy.VectorizedEagleStrategy.constructor | vizier/_src/algorithms/optimizers/eagle_strategy_test.py:29-44 | the strategy holds the given configuration and initial pool, no iterations and no best results |
| EagleStrategy.VectorizedEagleStrategy.BatchStart | vizier/_src/algorithms/optimizers/eagle_strategy_test.py:37-44 | the current batch lies inside the pool |
| EagleStrategy.VectorizedEagleStrategy.UpdatePoolFeaturesAndRewards | vizier/_src/algorithms/optimizers/eagle_strategy_test.py:113-138 | every batch fly becomes `UpdateFly` of its row, suggestion and new reward; every other row is unchanged |
| EagleStrategy.VectorizedEagleStrategy.BatchResults | vizier/_src/algorithms/optimizers/eagle_strategy_test.py:146-149 | one result per batch reward, paired with the suggested features in order |
| EagleStrategy.VectorizedEagleStrategy.UpdateBestResults | vizier/_src/algorithms/optimizers/eagle_strategy_test.py:140-168 | the best results become `InsertAll` of the old ones and the batch, capped at `best_suggestions_count` |
| EagleStrategy.VectorizedEagleStrategy.TrimPool | vizier/_src/algorithms/optimizers/eagle_strategy_test.py:170-197 | every fly with perturbation 0 other than the best is re-drawn, with reward −∞ and the initial perturbation; the others are unchanged; the best fly's reward stays the maximum |
| EagleStrategy.TestStrategy | vizier/_src/algorithms/optimizers/eagle_strategy_test.py:29-44 | the test fixture: pool 4, batch 2, two features, two iterations, so the batch is rows 0 and 1 |
| EagleStrategy.FeaturesDiffsAndDistsTest | vizier/_src/algorithms/optimizers/eagle_strategy_test.py:46-58 | the fixture's differences and distances are the expected arrays |
| EagleStrategy.UpdatePoolTest | vizier/_src/algorithms/optimizers/eagle_strategy_test.py:113-138 | after rewards (5, 0.5): features [[9, 9], [3, 4], [7, 7], [8, 8]], rewards (5, 3, 4, 1), perturbations (1, pc, 1, 1) |
| EagleStrategy.UpdateBestResultsTest | vizier/_src/algorithms/optimizers/eagle_strategy_test.py:140-168 | the top result after each of the three batches |
| EagleStrategy.TrimPoolTest | vizier/_src/algorithms/optimizers/eagle_strategy_test.py:170-197 | only fly 1 is re-drawn, with reward −∞; perturbations become (pc, pc, 0, pc), the best fly 2 is kept |
| EagleParamHandler.Columns | vizier/_src/algorithms/optimizers/eagle_strategy_test.py:227-234 | the layout has `n_features` columns |
| EagleParamHandler.LayoutBlocks | vizier/_src/algorithms/optimizers/eagle_strategy_test.py:227-234 | slot s of categorical block r (its OOV slot included) is column offset + s, encoded as Slot(r, s, size), and every slot column belongs to a block |
| EagleParamHandler.BlocksLocate | vizier/_src/algorithms/optimizers/eagle_strategy_test.py:227-234 | the r-th categorical block of a parameter list covers the columns of the r-th categorical parameter, slot by slot |
| EagleParamHandler.FirstBlockColumns | vizier/_src/algorithms/optimizers/eagle_strategy_test.py:227-234 | a leading categorical parameter is block 0 and its slots are the first columns |
| EagleParamHandler.BlocksOfTail | vizier/_src/algorithms/optimizers/eagle_strategy_test.py:227-234 | past the first parameter, the blocks are those of the remaining parameters |
| EagleParamHandler.ColumnsOfTail | vizier/_src/algorithms/optimizers/eagle_strategy_test.py:227-234 | past the first parameter's columns, the columns are those of the remaining parameters |
| EagleParamHandler.CategoricalMaskIsUnionOfRows | vizier/_src/algorithms/optimizers/eagle_strategy_test.py:250-259 | a column is in the categorical mask iff it is in some row of the per-parameter mask, and no two rows share a column |
| EagleParamHandler.OovMaskAtLastSlots | vizier/_src/algorithms/optimizers/eagle_strategy_test.py:268-271 | the OOV mask is 0 exactly at the last slot of each categorical block and 1 on non-categorical columns |
| EagleParamHandler.AllColumnsCategorical | vizier/_src/algorithms/optimizers/eagle_strategy_test.py:244-248 | every column is a categorical slot iff every parameter is categorical |
| EagleParamHandler.AllFeaturesCategoricalIff | vizier/_src/algorithms/optimizers/eagle_strategy_test.py:244-248 | `all_features_categorical` holds iff every parameter is categorical |
| EagleParamHandler.TiebreakArray | vizier/_src/algorithms/optimizers/eagle_strategy_test.py:261-266 | −eps·(i + 1) for each column: n entries, negative and strictly decreasing for eps > 0 |
| EagleParamHandler.TestLayoutColumns | vizier/_src/algorithms/optimizers/eagle_strategy_test.py:227-234 | the test's search space encodes as [c1, c1, c1(oov), f1, c2, c2, c2, c2(oov), d1] |
| EagleParamHandler.TestLayoutMasks | vizier/_src/algorithms/optimizers/eagle_strategy_test.py:244-278 | 9 features, 2 categoricals, not all categorical; the per-parameter, categorical, OOV and perturbation-factor masks of the test |
| EagleParamHandler.TestLayoutSizes | vizier/_src/algorithms/optimizers/eagle_strategy_test.py:244-248 | `n_features` 9, `n_categorical` 2, `has_categorical` and not `all_features_categorical` |
| EagleParamHandler.TestCategoricalParamsMask | vizier/_src/algorithms/optimizers/eagle_strategy_test.py:250-254 | the per-parameter mask rows of the test |
| EagleParamHandler.TestCategoricalMask | vizier/_src/algorithms/optimizers/eagle_strategy_test.py:256-259 | the categorical mask of the test |
| EagleParamHandler.TestOovMask | vizier/_src/algorithms/optimizers/eagle_strategy_test.py:268-271 | the OOV mask of the test |
| EagleParamHandler.TestPerturbationFactors | vizier/_src/algorithms/optimizers/eagle_strategy_test.py:273-278 | the perturbation factors of the test |
| EagleParamHandler.TestLayoutColumnsOf | vizier/_src/algorithms/optimizers/eagle_strategy_test.py:227-234 | the test's columns, one block per parameter in order |
| EagleParamHandler.TestLayoutBlocksOf | vizier/_src/algorithms/optimizers/eagle_strategy_test.py:227-234 | the test's categorical blocks start at columns 0 and 4 |
| EagleParamHandler.SampleCategoricalRowProperties | vizier/_src/algorithms/optimizers/eagle_strategy_test.py:280-292 | sampling keeps non-categorical columns, makes each block one-hot at its chosen slot, and leaves the OOV slot 0 |
| EagleParamHandler.ForcedChoice | vizier/_src/algorithms/optimizers/eagle_strategy_test.py:280-292 | a block whose only positive entry is slot k must be sampled at k |
| EagleParamHandler.SampleTestRow | vizier/_src/algorithms/optimizers/eagle_strategy_test.py:280-292 | the sample of a row of the test layout, column by column |
| EagleParamHandler.ForcedTestChoices | vizier/_src/algorithms/optimizers/eagle_strategy_test.py:280-292 | rows of the test layout with one positive entry per block force the choices |
| EagleParamHandler.SampleCategoricalExample | vizier/_src/algorithms/optimizers/eagle_strategy_test.py:280-292 | any admissible draw turns the test's features into the expected sampled features |
| DataStores.MaxOfConsecutive | vizier/service/datastore_test_lib.py:58 | the largest of 1, 2, …, n is n |
| DataStores.AttachTrialMetadata | vizier/service/datastore_test_lib.py:140-146 | trial metadata attaches iff every entry names an existing trial; names and count of trials are kept |
| DataStores.MissingEntryOfTail | vizier/service/datastore_test_lib.py:140-146 | after the first entry attached, an entry is missing iff a remaining entry is missing from the updated trials |
| DataStores.AppendUnique | vizier/service/datastore_test_lib.py:28 | storing a record under a name not yet taken keeps names unique, and the record is found under its name |
| DataStores.ReplaceNode | vizier/service/datastore_test_lib.py:64-69 | replacing a study's record by one of the same name keeps names unique, and the study is found where it was |
| DataStores.DataStore.constructor | vizier/service/datastore_test_lib.py:26 | a new store is empty and valid |
| DataStores.DataStore.CreateStudy | vizier/service/datastore_test_lib.py:28 | a new study is appended with no trials; a duplicate name fails with AlreadyExists and changes nothing; on success it loads back |
| DataStores.DataStore.LoadStudy | vizier/service/datastore_test_lib.py:29-31 | found iff a study of that name is stored, and then it is that study; NotFound otherwise |
| DataStores.DataStore.ListStudies | vizier/service/datastore_test_lib.py:33-38 | exactly the stored studies of the owner |
| DataStores.DataStore.DeleteStudy | vizier/service/datastore_test_lib.py:44-46 | the study is removed, the others keep their order; afterwards it no longer loads; NotFound if absent |
| DataStores.DataStore.CreateTrial | vizier/service/datastore_test_lib.py:52-56 | the trial is appended to its study's trials; a missing study gives NotFound, a duplicate id AlreadyExists; on success it reads back |
| DataStores.DataStore.GetTrial | vizier/service/datastore_test_lib.py:54-56 | found iff its study and its id are stored, and then it is a stored trial of that study with that id |
| DataStores.DataStore.ListTrials | vizier/service/datastore_test_lib.py:60-62 | the study's trials in creation order; NotFound iff the study is absent |
| DataStores.DataStore.MaxTrialId | vizier/service/datastore_test_lib.py:58 | the largest trial id of the study, attained by one trial; 0 when it has none |
| DataStores.DataStore.UpdateTrial | vizier/service/datastore_test_lib.py:64-69 | the stored trial of that name is replaced in place; NotFound otherwise; on success it reads back |
| DataStores.DataStore.DeleteTrial | vizier/service/datastore_test_lib.py:71-74 | the trial is removed, the others keep their order; afterwards it is not found |
| DataStores.DataStore.CreateSuggestionOperation | vizier/service/datastore_test_lib.py:83-84 | a new operation is appended; a duplicate name gives AlreadyExists; on success it reads back |
| DataStores.DataStore.GetSuggestionOperation | vizier/service/datastore_test_lib.py:95-99 | found iff an operation of that name is stored, and then it is that operation |
| DataStores.DataStore.ListSuggestionOperations | vizier/service/datastore_test_lib.py:91-93 | exactly the stored operations of the owner and client |
| DataStores.DataStore.MaxSuggestionOperationNumber | vizier/service/datastore_test_lib.py:86-89 | the largest operation number of the owner and client, attained if any exist; 0 when none exists |
| DataStores.DataStore.UpdateSuggestionOperation | vizier/service/datastore_test_lib.py:101-104 | the stored operation of that name is replaced in place; NotFound otherwise; on success it reads back |
| DataStores.DataStore.CreateEarlyStoppingOperation | vizier/service/datastore_test_lib.py:117-118 | the operation is appended under its study; NotFound or AlreadyExists otherwise; on success it reads back |
| DataStores.DataStore.GetEarlyStoppingOperation | vizier/service/datastore_test_lib.py:120-125 | found iff its study and its trial id are stored, and then it is a stored operation of that study with that trial id; NotFound otherwise |
| DataStores.DataStore.UpdateEarlyStoppingOperation | vizier/service/datastore_test_lib.py:127-130 | the stored operation is replaced in place; NotFound otherwise; on success it reads back |
| DataStores.DataStore.UpdateMetadata | vizier/service/datastore_test_lib.py:140-151 | the study entries are appended to the study spec's metadata and each trial entry to its trial's metadata, all or nothing: NotFound for a missing study or trial |
| DataStoreScenarios.CreateFirstStudy | vizier/service/datastore_test_lib.py:28 | creating the first study of an owner succeeds and appends it |
| DataStoreScenarios.CreateTrials | vizier/service/datastore_test_lib.py:52-56 | trials created in turn each read back equal, and end up as the study's trials in order |
| DataStoreScenarios.StudyAPI | vizier/service/datastore_test_lib.py:26-46 | the study loads back and lists alone; changing the caller's copy leaves the stored study; after deletion the owner lists none |
| DataStoreScenarios.TrialAPI | vizier/service/datastore_test_lib.py:48-74 | the whole trial scenario: copies equal, max id = the number of trials, the list equals the trials, the update reads back, and deletion leaves `trials[1:]` |
| DataStoreScenarios.CreateAndListTrials | vizier/service/datastore_test_lib.py:51-62 | the creating half: copies equal, max id = n, list = trials |
| DataStoreScenarios.UpdateFirstTrial | vizier/service/datastore_test_lib.py:64-69 | the first trial's update replaces it in place and reads back |
| DataStoreScenarios.DeleteFirstTrial | vizier/service/datastore_test_lib.py:71-74 | deleting the first trial leaves the rest, in order |
| DataStoreScenarios.SuggestOpAPI | vizier/service/datastore_test_lib.py:76-104 | for operations numbered 1..n: the max number is n, the list equals them, number 1 is the first, and an update reads back |
| DataStoreScenarios.ListNewSuggestionOperations | vizier/service/datastore_test_lib.py:86-93 | after a fresh client's operations numbered 1..n are created, they list in order and the max number is n |
| DataStoreScenarios.CreateSuggestionOperations | vizier/service/datastore_test_lib.py:82-84 | operations of a fresh client are appended in order |
| DataStoreScenarios.UpdateFirstSuggestionOperation | vizier/service/datastore_test_lib.py:95-104 | operation number 1 reads back, and its update reads back |
| DataStoreScenarios.EarlyStoppingAPI | vizier/service/datastore_test_lib.py:106-130 | the operation of trial 1 is the first created, and its update reads back |
| DataStoreScenarios.CreateEarlyStoppingOperations | vizier/service/datastore_test_lib.py:117-118 | operations created in turn end up under the study in order |
| DataStoreScenarios.UpdateFirstEarlyStoppingOperation | vizier/service/datastore_test_lib.py:120-130 | the first operation reads back, and its update reads back |
| DataStoreScenarios.UpdateMetadataAPI | vizier/service/datastore_test_lib.py:132-151 | the study spec's metadata becomes [a/b/C] and trial 1's metadata [d/e/F] |
| DataStoreScenarios.AttachToFirstTrial | vizier/service/datastore_test_lib.py:140-146 | an entry for trial 1 attaches to the first trial, when that is trial 1 |
| DataStoreScenarios.UpdateLastStudyMetadata | vizier/service/datastore_test_lib.py:140-151 | one study entry and one trial-1 entry are appended and read back |
| PythiaServer.PolicyCreator | vizier/service/pythia_server.py:40-68 | a policy keeps the given supporter, a partially serializable policy the problem; an unregistered name raises `ValueError('Algorithm X is not registered.')` |
| PythiaServer.PolicyCreatorMatchesRegistry | vizier/service/pythia_server.py:43-68 | a name yields a policy iff it is one of the nine registered names, and then the policy kind and designer of the registry table |
| PythiaServer.DesignersAreDistinct | vizier/service/pythia_server.py:45-66 | two different registered names other than the random ones never select the same policy kind and designer |
| PythiaServer.SuggestAnswer | vizier/service/pythia_server.py:105-118 | the creator's error passes unchanged; the policy's decision is returned; its error becomes a `RuntimeError` = prefix + text |
| PythiaServer.SuggestErrorsAreRuntimeErrors | vizier/service/pythia_server.py:110-118 | for a registered algorithm every error of `Suggest` is a `RuntimeError` from which the policy's text can be recovered |
| PythiaServer.PythiaService.constructor | vizier/service/pythia_server.py:78-86 | the service starts with the given handle, or none |
| PythiaServer.PythiaService.ConnectToVizier | vizier/service/pythia_server.py:88-93 | with a handle already held: `ValueError` carrying it, unchanged; otherwise the endpoint's stub is held |
| PythiaServer.PythiaService.Suggest | vizier/service/pythia_server.py:95-120 | the answer is `SuggestAnswer` of the policy built for the request's study and the held service; an unregistered algorithm gives the creator's `ValueError` |
| PythiaServer.PythiaService.EarlyStop | vizier/service/pythia_server.py:122-140 | the same dispatch, with the policy's error propagated unwrapped |
| PythiaServer.ConnectAllKeepsFirst | vizier/service/pythia_server.py:88-93 | over any series of connections, a held handle is never replaced; from none, the first endpoint's stub is held |
| PythiaServer.SecondConnectionFails | vizier/service/pythia_server.py:88-93 | a first connection succeeds and a second fails with the held handle |

## Left out
- ComparatorRunner.EfficiencyDecision: the log-efficiency score is an exact real, so a NaN score is not represented. In the source `NaN < score_threshold` is false, so a NaN score passes (comparator_runner.py:99-100).
- ComparatorRunner.SimpleRegretDecision: the p-value is an exact real, so a NaN p-value is not represented. In the source `NaN <= alpha` is false, so a NaN p-value (as from samples of identical constants) fails.

- The collaborators are function parameters, and no property of them is assumed:
  - the benchmark runner and `GenerateAndEvaluate`;
  - `ConvergenceCurveConverter`, `align_xs` and `get_log_efficiency_score`;
  - `t_test_less_mean_score`;
  - the vectorized optimizers and the wrapped designers;
  - policies and their `suggest` / `early_stop`;
  - `create_vizier_server_stub`.
- `_generate_summary` and logging: string formatting and `np.mean`/`np.std`. Failures carry their data instead of a message.
- The `ValueError` message of `assert_better_efficiency` formats both statements; the model carries the two statements.
- `lbfgsb_optimizer.py`, `types.py` and `clients_test.py` are not part of this model. They hold a library optimizer, type declarations and end-to-end gRPC/SQL tests.
- Scalarization.Apply: the hypervolume scalarizer is modelled as min_i(v_i / w_i) for strictly positive weights. That formula is inferred from the test value 22.5 = min(3.0/0.1, 4.5/0.2), because `scalarizing_designer.py` is not part of this model.
- ScalarizingDesigners.Objective: that a minimised metric is negated is an assumption. The tests only use maximised metrics.
- EagleStrategy: floating-point rounding is not modelled; rewards and features are reals, and −∞ is explicit. The feature-change step with its exponential pull is left out: `_compute_features_changes`, `_create_features`, `_create_perturbations`, the end-to-end `optimize` and the factory. They are floating-point kernels over a random generator.
- EagleStrategy.VectorizedEagleStrategy.BatchStart: the batch start is (iterations mod (pool / batch)) · batch, which assumes the batch size divides the pool size. The strategy's own code is not part of this model.
- EagleStrategy.VectorizedEagleStrategy.UpdateBestResults: the whole order of the best results (decreasing reward, strict `>` to move ahead of an equal reward) is the model's own. The test reads only the first entry of a list capped at one; EagleStrategy.InsertSorted states that same model order.
- EagleStrategy.VectorizedEagleStrategy.TrimPool: the re-drawn features are a parameter. The test's check that every re-drawn coordinate differs from the old one depends on the random draw and is not stated. The removal criterion, a perturbation exactly 0, is inferred from the one test that sets a perturbation to 0; a threshold test would fit it as well. With `0 < penalize_factor < 1` exact-real penalising never reaches 0, so only flies whose perturbation is set to 0 are trimmed.
- EagleParamHandler: random draws are parameters.
  - `sample_categorical` takes its choices as an argument, constrained by `Admissible`.
  - The tie-break's effect on the arg-max and `pure_categorical_perturbation_factor` (used only when every feature is categorical) are not modelled.
- DataStores: the datastore implementation is not part of this model. The following are the model's own: its error cases (NotFound, AlreadyExists), the order of listings (creation order), and UpdateMetadata appending to existing metadata, all or nothing.
- DataStores: resource names are structured values; formatting them as strings and parsing them back is not modelled.
- DataStoreScenarios.UpdateMetadataAPI requires the study and trial 1 to start without metadata, which the exact equalities of the scenario presuppose.
- DataStoreScenarios.TrialAPI, DataStoreScenarios.SuggestOpAPI, DataStoreScenarios.EarlyStoppingAPI and DataStoreScenarios.UpdateMetadataAPI require ids and operation numbers 1..n in order. TrialAPI's and SuggestOpAPI's length checks presuppose this numbering. EarlyStoppingAPI and UpdateMetadataAPI only need trial 1 or operation 1 to be first, so their requires are stronger than the test needs.
- PythiaServer: the proto conversion of requests and decisions, the servicer context and logging are not modelled.
- ComparatorRunner.NewSimpleRegretComparisonTester follows the code: `ge(0)` accepts alpha = 0, so the accepted range is 0 ≤ alpha ≤ 0.1, not 0 < alpha ≤ 0.1.
