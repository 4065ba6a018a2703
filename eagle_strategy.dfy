/**
 * The bookkeeping of the vectorized eagle (firefly) strategy: a pool of flies, each a
 * feature row with a reward and a perturbation, of which one batch of consecutive rows
 * is suggested and updated per iteration.
 *
 * Rewards are floats that may be minus infinity for a removed fly; `Reward` makes that
 * value explicit and `Subtract`, `Greater` and `AtLeast` give the IEEE meaning of
 * `-`, `>` and `>=` on it.
 */
module EagleStrategy {

  /** A fly's reward: a finite number, or minus infinity for a removed fly. */
  datatype Reward = NegInf | Fin(value: real)

  /** The IEEE result of subtracting two rewards. */
  datatype RewardDifference = Finite(d: real) | PlusInfinity | MinusInfinity | NotANumber

  function Subtract(a: Reward, b: Reward): RewardDifference
  {
    match (a, b)
    case (Fin(x), Fin(y)) => Finite(x - y)
    case (Fin(_), NegInf) => PlusInfinity
    case (NegInf, Fin(_)) => MinusInfinity
    case (NegInf, NegInf) => NotANumber
  }

  /** IEEE `d >= 0`: false for NaN and minus infinity. */
  predicate NonNegative(d: RewardDifference)
  {
    d.PlusInfinity? || (d.Finite? && d.d >= 0.0)
  }

  /** IEEE `a > b`. */
  predicate Greater(a: Reward, b: Reward)
  {
    match (a, b)
    case (Fin(x), Fin(y)) => x > y
    case (Fin(_), NegInf) => true
    case (NegInf, _) => false
  }

  /** IEEE `a >= b`; note that minus infinity is at least minus infinity. */
  predicate AtLeast(a: Reward, b: Reward)
  {
    match (a, b)
    case (Fin(x), Fin(y)) => x >= y
    case (_, NegInf) => true
    case (NegInf, Fin(_)) => false
  }

  datatype EagleStrategyConfig = EagleStrategyConfig(
    visibility: real,
    gravity: real,
    negativeGravity: real,
    perturbation: real,
    categoricalPerturbationFactor: real,
    pureCategoricalPerturbationFactor: real,
    penalizeFactor: real)

  /** A perturbation scaled down after a batch fly failed to improve. */
  function Penalized(perturbation: real, penalizeFactor: real): real
  {
    perturbation * penalizeFactor
  }

  /** One fly of the pool. */
  datatype Fly = Fly(features: seq<real>, reward: Reward, perturbation: real)

  /**
   * A batch fly after its evaluation: a reward above the pool reward replaces the
   * features and the reward, and leaves the perturbation; otherwise only the
   * perturbation changes, multiplied by the penalize factor.
   */
  function UpdateFly(fly: Fly, suggested: seq<real>, batchReward: real, penalizeFactor: real): Fly
  {
    if Greater(Fin(batchReward), fly.reward) then Fly(suggested, Fin(batchReward), fly.perturbation)
    else Fly(fly.features, fly.reward, Penalized(fly.perturbation, penalizeFactor))
  }

  /**
   * A fly's reward never decreases; it changes exactly when the batch reward is above
   * it, and then it becomes that reward and the features become the suggested ones;
   * when it does not change the features stay and the perturbation is penalized.
   */
  lemma UpdateFlyImproves(fly: Fly, suggested: seq<real>, batchReward: real, penalizeFactor: real)
    ensures var after := UpdateFly(fly, suggested, batchReward, penalizeFactor);
            && AtLeast(after.reward, fly.reward)
            && (after.reward != fly.reward <==> Greater(Fin(batchReward), fly.reward))
            && (after.reward != fly.reward ==> after.reward == Fin(batchReward) && after.features == suggested
                                               && after.perturbation == fly.perturbation)
            && (after.reward == fly.reward ==> after.features == fly.features
                                               && after.perturbation == Penalized(fly.perturbation, penalizeFactor))
  {
  }

  /** One entry of the best results: a reward and the features that earned it. */
  datatype StrategyResult = StrategyResult(reward: real, features: seq<real>)

  // ---------------------------------------------------------------------------------
  // Feature differences and distances
  // ---------------------------------------------------------------------------------

  function VectorDiff(u: seq<real>, v: seq<real>): (d: seq<real>)
    requires |u| == |v|
    ensures |d| == |u| && forall i :: 0 <= i < |d| ==> d[i] == u[i] - v[i]
  {
    seq(|u|, i requires 0 <= i < |u| => u[i] - v[i])
  }

  /** x * x, written as 0 at x = 0 so that the zero case needs no product. */
  function Square(x: real): real
  {
    if x == 0.0 then 0.0 else x * x
  }

  function SquaredNorm(v: seq<real>): real
  {
    if |v| == 0 then 0.0 else Square(v[0]) + SquaredNorm(v[1..])
  }

  /** All rows of the pool have the same width. */
  ghost predicate Rectangular(pool: seq<seq<real>>, width: nat)
  {
    forall j :: 0 <= j < |pool| ==> |pool[j]| == width
  }

  /** diffs[k][j] = pool[j] - pool[start + k], for the batch rows start .. start + count - 1. */
  function FeatureDiffs(pool: seq<seq<real>>, width: nat, start: nat, count: nat): seq<seq<seq<real>>>
    requires Rectangular(pool, width) && start + count <= |pool|
  {
    seq(count, k requires 0 <= k < count =>
      seq(|pool|, j requires 0 <= j < |pool| => VectorDiff(pool[j], pool[start + k])))
  }

  /** dists[k][j] is the squared Euclidean norm of diffs[k][j]. */
  function FeatureDists(diffs: seq<seq<seq<real>>>): seq<seq<real>>
  {
    seq(|diffs|, k requires 0 <= k < |diffs| =>
      seq(|diffs[k]|, j requires 0 <= j < |diffs[k]| => SquaredNorm(diffs[k][j])))
  }

  /** A coordinate-wise zero vector has squared norm zero. */
  lemma {:induction false} SquaredNormOfZero(v: seq<real>)
    requires forall i :: 0 <= i < |v| ==> v[i] == 0.0
    ensures SquaredNorm(v) == 0.0
  {
    if |v| > 0 {
      assert forall i :: 0 <= i < |v[1..]| ==> v[1..][i] == v[i + 1];
      SquaredNormOfZero(v[1..]);
    }
  }

  /** Negating every coordinate leaves the squared norm unchanged. */
  lemma {:induction false} SquaredNormOfNegation(u: seq<real>, v: seq<real>)
    requires |u| == |v| && forall i :: 0 <= i < |u| ==> v[i] == -u[i]
    ensures SquaredNorm(u) == SquaredNorm(v)
  {
    if |u| > 0 {
      assert forall i :: 0 <= i < |u[1..]| ==> v[1..][i] == -u[1..][i];
      SquaredNormOfNegation(u[1..], v[1..]);
      assert Square(v[0]) == Square(u[0]);
    }
  }

  /**
   * A batch fly is at distance zero from its own pool row, and the distance from batch
   * fly k to pool fly j is the distance read the other way round, from j to k.
   */
  lemma DistSelfAndSymmetry(pool: seq<seq<real>>, width: nat, start: nat, count: nat, k: nat, j: nat)
    requires Rectangular(pool, width) && start + count <= |pool|
    requires k < count && j < |pool|
    ensures var dists := FeatureDists(FeatureDiffs(pool, width, start, count));
            && dists[k][start + k] == 0.0
            && dists[k][j] == SquaredNorm(VectorDiff(pool[start + k], pool[j]))
  {
    SquaredNormOfZero(VectorDiff(pool[start + k], pool[start + k]));
    SquaredNormOfNegation(VectorDiff(pool[j], pool[start + k]), VectorDiff(pool[start + k], pool[j]));
  }

  /** The differences of the test pool [[1,2],[3,4],[7,7],[8,8]] for batch rows 0 and 1. */
  lemma DiffsExample()
    ensures FeatureDiffs([[1.0, 2.0], [3.0, 4.0], [7.0, 7.0], [8.0, 8.0]], 2, 0, 2)
            == [[[0.0, 0.0], [2.0, 2.0], [6.0, 5.0], [7.0, 6.0]],
                [[-2.0, -2.0], [0.0, 0.0], [4.0, 3.0], [5.0, 4.0]]]
  {
    DiffsExampleRow(0, [[0.0, 0.0], [2.0, 2.0], [6.0, 5.0], [7.0, 6.0]]);
    DiffsExampleRow(1, [[-2.0, -2.0], [0.0, 0.0], [4.0, 3.0], [5.0, 4.0]]);
  }

  const ExamplePool: seq<seq<real>> := [[1.0, 2.0], [3.0, 4.0], [7.0, 7.0], [8.0, 8.0]]

  /** Row k of the example's differences: pool row j minus pool row k, coordinate by coordinate. */
  lemma DiffsExampleRow(k: nat, row: seq<seq<real>>)
    requires k < 2 && |row| == 4
    requires forall j :: 0 <= j < 4 ==>
               row[j] == [ExamplePool[j][0] - ExamplePool[k][0], ExamplePool[j][1] - ExamplePool[k][1]]
    ensures FeatureDiffs(ExamplePool, 2, 0, 2)[k] == row
  {
    var diffs := FeatureDiffs(ExamplePool, 2, 0, 2);
    forall j | 0 <= j < 4 ensures diffs[k][j] == row[j] {
      VectorDiffPair(ExamplePool[j], ExamplePool[k]);
    }
  }

  /** Their squared distances: [[0, 8, 61, 85], [8, 0, 25, 41]]. */
  lemma DistsExample()
    ensures FeatureDists([[[0.0, 0.0], [2.0, 2.0], [6.0, 5.0], [7.0, 6.0]],
                          [[-2.0, -2.0], [0.0, 0.0], [4.0, 3.0], [5.0, 4.0]]])
            == [[0.0, 8.0, 61.0, 85.0], [8.0, 0.0, 25.0, 41.0]]
  {
    var diffs := [[[0.0, 0.0], [2.0, 2.0], [6.0, 5.0], [7.0, 6.0]],
                  [[-2.0, -2.0], [0.0, 0.0], [4.0, 3.0], [5.0, 4.0]]];
    var dists := FeatureDists(diffs);
    assert SquaredNorm([0.0, 0.0]) == 0.0 && SquaredNorm([2.0, 2.0]) == 8.0;
    assert SquaredNorm([6.0, 5.0]) == 61.0 && SquaredNorm([7.0, 6.0]) == 85.0;
    assert SquaredNorm([-2.0, -2.0]) == 8.0 && SquaredNorm([4.0, 3.0]) == 25.0;
    assert SquaredNorm([5.0, 4.0]) == 41.0;
    assert dists[0] == [0.0, 8.0, 61.0, 85.0];
    assert dists[1] == [8.0, 0.0, 25.0, 41.0];
  }

  lemma VectorDiffPair(u: seq<real>, v: seq<real>)
    requires |u| == |v| == 2
    ensures VectorDiff(u, v) == [u[0] - v[0], u[1] - v[1]]
  {
  }

  // ---------------------------------------------------------------------------------
  // Scaled directions
  // ---------------------------------------------------------------------------------

  /** Gravity when `pool reward - batch reward >= 0` under IEEE rules, negative gravity otherwise. */
  function ScaledDirection(config: EagleStrategyConfig, poolReward: Reward, batchReward: Reward): real
  {
    if NonNegative(Subtract(poolReward, batchReward)) then config.gravity else -config.negativeGravity
  }

  /** directions[k][j] for batch fly start + k and pool fly j. */
  function ScaledDirections(config: EagleStrategyConfig, rewards: seq<Reward>, start: nat, count: nat): seq<seq<real>>
    requires start + count <= |rewards|
  {
    seq(count, k requires 0 <= k < count =>
      seq(|rewards|, j requires 0 <= j < |rewards| => ScaledDirection(config, rewards[j], rewards[start + k])))
  }

  /**
   * The IEEE test selects gravity exactly when the pool fly is not removed and its
   * reward is at least the batch fly's (a finite reward is above minus infinity). Two
   * removed flies repel each other although minus infinity is at least minus infinity.
   */
  lemma {:induction false} GravityIff(poolReward: Reward, batchReward: Reward)
    ensures NonNegative(Subtract(poolReward, batchReward)) <==> poolReward.Fin? && AtLeast(poolReward, batchReward)
    ensures !NonNegative(Subtract(NegInf, NegInf)) && AtLeast(NegInf, NegInf)
  {
    match (poolReward, batchReward)
    case (Fin(x), Fin(y)) =>
      assert NonNegative(Subtract(poolReward, batchReward)) <==> x - y >= 0.0;
    case _ =>
  }

  /** The directions test: rewards [2, 3, 4, 1] and batch rows 0 and 1. */
  lemma ScaledDirectionsExample(config: EagleStrategyConfig)
    ensures var g, ng := config.gravity, -config.negativeGravity;
            ScaledDirections(config, [Fin(2.0), Fin(3.0), Fin(4.0), Fin(1.0)], 0, 2)
              == [[g, g, g, ng], [ng, g, g, ng]]
  {
    var ds := ScaledDirections(config, [Fin(2.0), Fin(3.0), Fin(4.0), Fin(1.0)], 0, 2);
    assert ds[0] == [config.gravity, config.gravity, config.gravity, -config.negativeGravity];
    assert ds[1] == [-config.negativeGravity, config.gravity, config.gravity, -config.negativeGravity];
  }

  /** The removed-flies test: rewards [-inf, 3, -inf, 1] and batch rows 0 and 1. */
  lemma ScaledDirectionsRemovedFliesExample(config: EagleStrategyConfig)
    ensures var g, ng := config.gravity, -config.negativeGravity;
            ScaledDirections(config, [NegInf, Fin(3.0), NegInf, Fin(1.0)], 0, 2)
              == [[ng, g, ng, g], [ng, g, ng, ng]]
  {
    var ds := ScaledDirections(config, [NegInf, Fin(3.0), NegInf, Fin(1.0)], 0, 2);
    assert ds[0] == [-config.negativeGravity, config.gravity, -config.negativeGravity, config.gravity];
    assert ds[1] == [-config.negativeGravity, config.gravity, -config.negativeGravity, -config.negativeGravity];
  }

  // ---------------------------------------------------------------------------------
  // Best results
  // ---------------------------------------------------------------------------------

  /** Best results are kept in non-increasing order of reward. */
  ghost predicate SortedByReward(s: seq<StrategyResult>)
  {
    forall i, j :: 0 <= i < j < |s| ==> s[i].reward >= s[j].reward
  }

  /** Inserts a result after every result with an equal or higher reward. */
  function Insert(best: seq<StrategyResult>, r: StrategyResult): (s: seq<StrategyResult>)
    ensures |s| == |best| + 1
    ensures multiset(s) == multiset(best) + multiset{r}
  {
    if |best| == 0 then [r]
    else if best[0].reward < r.reward then [r] + best
    else
      assert best == [best[0]] + best[1..];
      [best[0]] + Insert(best[1..], r)
  }

  function Truncate(s: seq<StrategyResult>, cap: nat): seq<StrategyResult>
  {
    if |s| <= cap then s else s[..cap]
  }

  /** Offers the results one after the other, keeping at most `cap` of them. */
  function InsertAll(best: seq<StrategyResult>, results: seq<StrategyResult>, cap: nat): seq<StrategyResult>
    decreases |results|
  {
    if |results| == 0 then best
    else InsertAll(Truncate(Insert(best, results[0]), cap), results[1..], cap)
  }

  lemma {:induction false} InsertSorted(best: seq<StrategyResult>, r: StrategyResult)
    requires SortedByReward(best)
    ensures SortedByReward(Insert(best, r))
  {
    if |best| > 0 && best[0].reward >= r.reward {
      InsertSorted(best[1..], r);
      var rest := Insert(best[1..], r);
      assert multiset(rest) == multiset(best[1..]) + multiset{r};
      forall x | x in rest ensures best[0].reward >= x.reward {
        assert x in multiset(rest);
        if x != r {
          assert x in multiset(best[1..]);
          var i :| 0 <= i < |best[1..]| && best[1..][i] == x;
          assert best[i + 1] == x;
        }
      }
    }
  }

  /** The head after an insertion has the highest reward among the old results and the new one. */
  lemma InsertHead(best: seq<StrategyResult>, r: StrategyResult)
    requires SortedByReward(best)
    ensures |Insert(best, r)| > 0 && Insert(best, r)[0].reward >= r.reward
    ensures forall x :: x in best ==> Insert(best, r)[0].reward >= x.reward
  {
    if |best| > 0 {
      forall x | x in best ensures best[0].reward >= x.reward {
        var i :| 0 <= i < |best| && best[i] == x;
      }
    }
  }

  /**
   * The best results stay sorted, hold at most `cap` entries (exactly
   * min(cap, |best| + |results|) of them), and each of them was either already kept or
   * offered.
   */
  lemma {:induction false} InsertAllProperties(best: seq<StrategyResult>, results: seq<StrategyResult>, cap: nat)
    requires SortedByReward(best) && |best| <= cap
    ensures var s := InsertAll(best, results, cap);
            && SortedByReward(s)
            && |s| == (if |best| + |results| <= cap then |best| + |results| else cap)
            && forall x :: x in s ==> x in best || x in results
    decreases |results|
  {
    if |results| > 0 {
      var inserted := Insert(best, results[0]);
      InsertSorted(best, results[0]);
      var t := Truncate(inserted, cap);
      assert SortedByReward(t);
      forall x | x in t ensures x in best || x in results {
        assert x in inserted;
        assert x in multiset(inserted);
        assert results[0] in results;
      }
      InsertAllProperties(t, results[1..], cap);
      forall x | x in InsertAll(best, results, cap) ensures x in best || x in results {
        if x in results[1..] {
          var i :| 0 <= i < |results[1..]| && results[1..][i] == x;
          assert results[i + 1] == x;
        }
      }
    }
  }

  /**
   * With room for at least one result, the head of the kept results has the highest
   * reward among the results kept before and those offered now.
   */
  lemma {:induction false} InsertAllKeepsMaximum(best: seq<StrategyResult>, results: seq<StrategyResult>, cap: nat)
    requires SortedByReward(best) && |best| <= cap && cap >= 1
    requires |best| + |results| > 0
    ensures var s := InsertAll(best, results, cap);
            && |s| > 0
            && (forall x :: x in best ==> s[0].reward >= x.reward)
            && (forall x :: x in results ==> s[0].reward >= x.reward)
    decreases |results|
  {
    if |results| > 0 {
      var inserted := Insert(best, results[0]);
      InsertSorted(best, results[0]);
      InsertHead(best, results[0]);
      var t := Truncate(inserted, cap);
      TruncateSorted(inserted, cap);
      if |results| > 1 {
        InsertAllKeepsMaximum(t, results[1..], cap);
        var s := InsertAll(best, results, cap);
        assert s == InsertAll(t, results[1..], cap);
        assert t[0] in t;
        forall x | x in results ensures s[0].reward >= x.reward {
          if x != results[0] {
            var i :| 0 <= i < |results| && results[i] == x;
            assert results[1..][i - 1] == x;
          }
        }
      }
    }
  }

  /** A prefix of a sorted list is sorted, and keeps its head when there is room for one. */
  lemma TruncateSorted(s: seq<StrategyResult>, cap: nat)
    requires SortedByReward(s)
    ensures SortedByReward(Truncate(s, cap)) && |Truncate(s, cap)| == (if |s| <= cap then |s| else cap)
    ensures |s| > 0 && cap >= 1 ==> |Truncate(s, cap)| > 0 && Truncate(s, cap)[0] == s[0]
  {
  }

  /** Offering two results to a list with room for one. */
  lemma InsertAllPair(best: seq<StrategyResult>, r1: StrategyResult, r2: StrategyResult)
    ensures InsertAll(best, [r1, r2], 1) == Truncate(Insert(Truncate(Insert(best, r1), 1), r2), 1)
  {
    var once := Truncate(Insert(best, r1), 1);
    assert [r1, r2][0] == r1 && [r1, r2][1..] == [r2];
    assert InsertAll(best, [r1, r2], 1) == InsertAll(once, [r2], 1);
    assert [r2][0] == r2 && [r2][1..] == [];
    assert InsertAll(once, [r2], 1) == InsertAll(Truncate(Insert(once, r2), 1), [], 1);
  }

  /** The three batches of the best-results test, kept with room for one result. */
  lemma BestResultsExample()
    ensures InsertAll([], [StrategyResult(5.0, [9.0, 9.0]), StrategyResult(0.5, [10.0, 10.0])], 1)
            == [StrategyResult(5.0, [9.0, 9.0])]
    ensures InsertAll([StrategyResult(5.0, [9.0, 9.0])],
                      [StrategyResult(3.0, [2.0, 2.0]), StrategyResult(4.0, [1.0, 1.0])], 1)
            == [StrategyResult(5.0, [9.0, 9.0])]
    ensures InsertAll([StrategyResult(5.0, [9.0, 9.0])],
                      [StrategyResult(3.0, [4.0, 2.0]), StrategyResult(6.0, [1.0, 1.0])], 1)
            == [StrategyResult(6.0, [1.0, 1.0])]
  {
    var r5 := StrategyResult(5.0, [9.0, 9.0]);
    InsertAllPair([], r5, StrategyResult(0.5, [10.0, 10.0]));
    InsertAllPair([r5], StrategyResult(3.0, [2.0, 2.0]), StrategyResult(4.0, [1.0, 1.0]));
    InsertAllPair([r5], StrategyResult(3.0, [4.0, 2.0]), StrategyResult(6.0, [1.0, 1.0]));
    assert [r5][1..] == [];
  }

  // ---------------------------------------------------------------------------------
  // Pool maximum
  // ---------------------------------------------------------------------------------

  /** The index of the first highest reward (numpy's argmax). */
  function ArgMax(rewards: seq<Reward>): (a: nat)
    requires |rewards| > 0
    ensures a < |rewards|
    ensures forall i :: 0 <= i < |rewards| ==> AtLeast(rewards[a], rewards[i])
    ensures forall i :: 0 <= i < a ==> Greater(rewards[a], rewards[i])
  {
    if |rewards| == 1 then 0
    else
      var m := ArgMax(rewards[..|rewards| - 1]);
      assert forall i :: 0 <= i < |rewards| - 1 ==> rewards[..|rewards| - 1][i] == rewards[i];
      if Greater(rewards[|rewards| - 1], rewards[m]) then |rewards| - 1 else m
  }

  // ---------------------------------------------------------------------------------
  // The strategy
  // ---------------------------------------------------------------------------------

  class VectorizedEagleStrategy {
    const config: EagleStrategyConfig
    const poolSize: nat
    const batchSize: nat
    const nFeatures: nat
    const bestSuggestionsCount: nat
    /** One feature row per fly. */
    const features: array<seq<real>>
    const rewards: array<Reward>
    const perturbations: array<real>
    var iterations: nat
    /** The feature rows of the batch suggested last. */
    var lastSuggestedFeatures: seq<seq<real>>
    var bestResults: seq<StrategyResult>

    ghost predicate Valid()
      reads this, features
    {
      && 0 < batchSize <= poolSize
      && features.Length == poolSize && rewards.Length == poolSize && perturbations.Length == poolSize
      && Rectangular(features[..], nFeatures)
      && SortedByReward(bestResults) && |bestResults| <= bestSuggestionsCount
    }

    /** The initial pool, drawn at random by the source, is given. */
    constructor (config: EagleStrategyConfig, poolSize: nat, batchSize: nat, nFeatures: nat,
                 bestSuggestionsCount: nat, initialFeatures: seq<seq<real>>,
                 initialRewards: seq<Reward>, initialPerturbations: seq<real>)
      requires 0 < batchSize <= poolSize
      requires |initialFeatures| == poolSize && |initialRewards| == poolSize && |initialPerturbations| == poolSize
      requires Rectangular(initialFeatures, nFeatures)
      ensures Valid() && fresh(features) && fresh(rewards) && fresh(perturbations)
      ensures this.config == config && this.poolSize == poolSize && this.batchSize == batchSize
      ensures this.nFeatures == nFeatures && this.bestSuggestionsCount == bestSuggestionsCount
      ensures features[..] == initialFeatures && rewards[..] == initialRewards
      ensures perturbations[..] == initialPerturbations
      ensures iterations == 0 && lastSuggestedFeatures == [] && bestResults == []
    {
      this.config := config;
      this.poolSize := poolSize;
      this.batchSize := batchSize;
      this.nFeatures := nFeatures;
      this.bestSuggestionsCount := bestSuggestionsCount;
      this.features := new seq<real>[poolSize](j requires 0 <= j < poolSize => initialFeatures[j]);
      this.rewards := new Reward[poolSize](j requires 0 <= j < poolSize => initialRewards[j]);
      this.perturbations := new real[poolSize](j requires 0 <= j < poolSize => initialPerturbations[j]);
      this.iterations := 0;
      this.lastSuggestedFeatures := [];
      this.bestResults := [];
      new;
      assert features[..] == initialFeatures;
    }

    /**
     * The first pool row of the current batch: the pool is split into consecutive
     * batches, visited in turn as the iterations advance.
     */
    function BatchStart(): (start: nat)
      requires 0 < batchSize <= poolSize
      reads this
      ensures start + batchSize <= poolSize
    {
      var batches := poolSize / batchSize;
      BatchStartBound(iterations % batches, batches, batchSize, poolSize);
      (iterations % batches) * batchSize
    }

    /** `_compute_features_diffs_and_dists` on the current pool. */
    function FeaturesDiffsAndDists(): (r: (seq<seq<seq<real>>>, seq<seq<real>>))
      requires Valid()
      reads this, features
    {
      var diffs := FeatureDiffs(features[..], nFeatures, BatchStart(), batchSize);
      (diffs, FeatureDists(diffs))
    }

    /** `_compute_scaled_directions` on the current rewards. */
    function ScaledDirectionsNow(): seq<seq<real>>
      requires Valid()
      reads this, features, rewards
    {
      ScaledDirections(config, rewards[..], BatchStart(), batchSize)
    }

    /** The row of fly j: its features, reward and perturbation. */
    function FlyAt(j: nat): Fly
      requires j < features.Length && j < rewards.Length && j < perturbations.Length
      reads features, rewards, perturbations
    {
      Fly(features[j], rewards[j], perturbations[j])
    }

    /**
     * `_update_pool_features_and_rewards`: every batch fly is updated by `UpdateFly`
     * with its suggested features and its new reward; rows outside the batch are
     * unchanged.
     */
    method UpdatePoolFeaturesAndRewards(batchRewards: seq<real>)
      requires Valid()
      requires |batchRewards| == batchSize && |lastSuggestedFeatures| == batchSize
      requires Rectangular(lastSuggestedFeatures, nFeatures)
      modifies features, rewards, perturbations
      ensures Valid()
      ensures forall j :: 0 <= j < poolSize ==>
                FlyAt(j) == if BatchStart() <= j < BatchStart() + batchSize
                            then UpdateFly(old(FlyAt(j)), lastSuggestedFeatures[j - BatchStart()],
                                           batchRewards[j - BatchStart()], config.penalizeFactor)
                            else old(FlyAt(j))
    {
      var start := BatchStart();
      for k := 0 to batchSize
        invariant Rectangular(features[..], nFeatures)
        invariant forall j :: 0 <= j < poolSize ==>
                    FlyAt(j) == if start <= j < start + k
                                then UpdateFly(old(FlyAt(j)), lastSuggestedFeatures[j - start],
                                               batchRewards[j - start], config.penalizeFactor)
                                else old(FlyAt(j))
      {
        var j := start + k;
        if Greater(Fin(batchRewards[k]), rewards[j]) {
          features[j] := lastSuggestedFeatures[k];
          rewards[j] := Fin(batchRewards[k]);
        } else {
          perturbations[j] := Penalized(perturbations[j], config.penalizeFactor);
        }
      }
    }

    /** The batch's results, in batch order. */
    function BatchResults(batchRewards: seq<real>): (rs: seq<StrategyResult>)
      requires |batchRewards| == |lastSuggestedFeatures|
      reads this
      ensures |rs| == |batchRewards|
      ensures forall k :: 0 <= k < |rs| ==> rs[k] == StrategyResult(batchRewards[k], lastSuggestedFeatures[k])
    {
      var suggested := lastSuggestedFeatures;
      seq(|batchRewards|, k requires 0 <= k < |batchRewards| => StrategyResult(batchRewards[k], suggested[k]))
    }

    /**
     * `_update_best_results`: each result of the batch is offered in turn; a result
     * enters after every kept result with an equal or higher reward, and only the best
     * `best_suggestions_count` stay.
     */
    method UpdateBestResults(batchRewards: seq<real>)
      requires Valid()
      requires |batchRewards| == |lastSuggestedFeatures|
      modifies this`bestResults
      ensures Valid()
      ensures bestResults == InsertAll(old(bestResults), BatchResults(batchRewards), bestSuggestionsCount)
    {
      var results := BatchResults(batchRewards);
      ghost var initial := bestResults;
      for k := 0 to |results|
        invariant SortedByReward(bestResults) && |bestResults| <= bestSuggestionsCount
        invariant InsertAll(initial, results, bestSuggestionsCount)
                    == InsertAll(bestResults, results[k..], bestSuggestionsCount)
      {
        assert results[k..][1..] == results[k + 1..];
        InsertSorted(bestResults, results[k]);
        bestResults := Truncate(Insert(bestResults, results[k]), bestSuggestionsCount);
      }
      assert results[|results|..] == [];
    }

    /**
     * `_trim_pool`: every fly whose perturbation has reached zero, except the fly with
     * the highest reward, is removed and re-drawn: its reward becomes minus infinity,
     * its perturbation the configured initial perturbation and its features the new
     * draw. All other rows are untouched, so the highest-reward fly stays highest.
     */
    method TrimPool(draws: seq<seq<real>>)
      requires Valid()
      requires |draws| == poolSize && Rectangular(draws, nFeatures)
      modifies features, rewards, perturbations
      ensures Valid()
      ensures var best := ArgMax(old(rewards[..]));
              forall j :: 0 <= j < poolSize ==>
                if old(perturbations[j]) == 0.0 && j != best
                then features[j] == draws[j] && rewards[j] == NegInf && perturbations[j] == config.perturbation
                else features[j] == old(features[j]) && rewards[j] == old(rewards[j])
                     && perturbations[j] == old(perturbations[j])
      ensures var best := ArgMax(old(rewards[..]));
              forall j :: 0 <= j < poolSize ==> AtLeast(rewards[best], rewards[j])
    {
      var best := ArgMax(rewards[..]);
      ghost var before := rewards[..];
      for j := 0 to poolSize
        invariant Rectangular(features[..], nFeatures)
        invariant forall i :: 0 <= i < poolSize ==>
                    if i < j && old(perturbations[i]) == 0.0 && i != best
                    then features[i] == draws[i] && rewards[i] == NegInf && perturbations[i] == config.perturbation
                    else features[i] == old(features[i]) && rewards[i] == old(rewards[i])
                         && perturbations[i] == old(perturbations[i])
      {
        if perturbations[j] == 0.0 && j != best {
          features[j] := draws[j];
          rewards[j] := NegInf;
          perturbations[j] := config.perturbation;
        }
      }
      assert forall i :: 0 <= i < poolSize ==> AtLeast(before[best], before[i]);
    }
  }

  lemma BatchStartBound(m: nat, batches: nat, batchSize: nat, poolSize: nat)
    requires 0 < batchSize <= poolSize && batches == poolSize / batchSize && m < batches
    ensures m * batchSize + batchSize <= poolSize
  {
    assert poolSize == batches * batchSize + poolSize % batchSize;
    MulMonotone(m + 1, batches, batchSize);
  }

  lemma MulMonotone(a: nat, b: nat, c: nat)
    requires a <= b
    ensures a * c <= b * c
  {
    assert b * c == a * c + (b - a) * c;
  }

  /** The test's strategy: pool 4, batch 2, two features, one best result, at iteration 2. */
  method TestStrategy(config: EagleStrategyConfig, rewards: seq<Reward>, perturbations: seq<real>)
    returns (eagle: VectorizedEagleStrategy)
    requires |rewards| == 4 && |perturbations| == 4
    ensures eagle.Valid() && fresh(eagle) && fresh(eagle.features) && fresh(eagle.rewards) && fresh(eagle.perturbations)
    ensures eagle.config == config && eagle.poolSize == 4 && eagle.batchSize == 2 && eagle.nFeatures == 2
    ensures eagle.bestSuggestionsCount == 1 && eagle.iterations == 2 && eagle.BatchStart() == 0
    ensures eagle.features[..] == [[1.0, 2.0], [3.0, 4.0], [7.0, 7.0], [8.0, 8.0]]
    ensures eagle.rewards[..] == rewards && eagle.perturbations[..] == perturbations
    ensures eagle.lastSuggestedFeatures == [] && eagle.bestResults == []
  {
    eagle := new VectorizedEagleStrategy(config, 4, 2, 2, 1,
                                         [[1.0, 2.0], [3.0, 4.0], [7.0, 7.0], [8.0, 8.0]], rewards, perturbations);
    eagle.iterations := 2;
  }

  /** The differences-and-distances test at iteration 2: batch rows 0 and 1. */
  method FeaturesDiffsAndDistsTest(config: EagleStrategyConfig) returns (diffs: seq<seq<seq<real>>>, dists: seq<seq<real>>)
    ensures diffs == [[[0.0, 0.0], [2.0, 2.0], [6.0, 5.0], [7.0, 6.0]],
                      [[-2.0, -2.0], [0.0, 0.0], [4.0, 3.0], [5.0, 4.0]]]
    ensures dists == [[0.0, 8.0, 61.0, 85.0], [8.0, 0.0, 25.0, 41.0]]
  {
    var eagle := TestStrategy(config, [Fin(2.0), Fin(3.0), Fin(4.0), Fin(1.0)], [1.0, 1.0, 1.0, 1.0]);
    DiffsExample();
    DistsExample();
    var r := eagle.FeaturesDiffsAndDists();
    diffs, dists := r.0, r.1;
  }

  /**
   * The pool-update test: batch rewards [5, 0.5] for suggested rows [9, 9] and
   * [10, 10]; fly 0 is replaced, fly 1 is penalized.
   */
  method UpdatePoolTest(config: EagleStrategyConfig)
    returns (features: seq<seq<real>>, rewards: seq<Reward>, perturbations: seq<real>)
    ensures features == [[9.0, 9.0], [3.0, 4.0], [7.0, 7.0], [8.0, 8.0]]
    ensures rewards == [Fin(5.0), Fin(3.0), Fin(4.0), Fin(1.0)]
    ensures perturbations == [1.0, config.penalizeFactor, 1.0, 1.0]
  {
    var eagle := TestStrategy(config, [Fin(2.0), Fin(3.0), Fin(4.0), Fin(1.0)], [1.0, 1.0, 1.0, 1.0]);
    eagle.lastSuggestedFeatures := [[9.0, 9.0], [10.0, 10.0]];
    eagle.UpdatePoolFeaturesAndRewards([5.0, 0.5]);
    assert eagle.FlyAt(0) == Fly([9.0, 9.0], Fin(5.0), 1.0);
    assert eagle.FlyAt(1) == Fly([3.0, 4.0], Fin(3.0), config.penalizeFactor);
    assert eagle.FlyAt(2) == Fly([7.0, 7.0], Fin(4.0), 1.0);
    assert eagle.FlyAt(3) == Fly([8.0, 8.0], Fin(1.0), 1.0);
    assert eagle.features[..] == [eagle.features[0], eagle.features[1], eagle.features[2], eagle.features[3]];
    assert eagle.rewards[..] == [eagle.rewards[0], eagle.rewards[1], eagle.rewards[2], eagle.rewards[3]];
    assert eagle.perturbations[..]
        == [eagle.perturbations[0], eagle.perturbations[1], eagle.perturbations[2], eagle.perturbations[3]];
    features, rewards, perturbations := eagle.features[..], eagle.rewards[..], eagle.perturbations[..];
  }

  /**
   * The best-results test: 5 for [9, 9] is kept; a later batch [3, 4] does not replace
   * it; a batch [3, 6] does, with the features [1, 1] of the reward 6.
   */
  method UpdateBestResultsTest(config: EagleStrategyConfig)
    returns (first: StrategyResult, second: StrategyResult, third: StrategyResult)
    ensures first == StrategyResult(5.0, [9.0, 9.0])
    ensures second == StrategyResult(5.0, [9.0, 9.0])
    ensures third == StrategyResult(6.0, [1.0, 1.0])
  {
    var eagle := TestStrategy(config, [Fin(2.0), Fin(3.0), Fin(4.0), Fin(1.0)], [1.0, 1.0, 1.0, 1.0]);
    eagle.lastSuggestedFeatures := [[9.0, 9.0], [10.0, 10.0]];
    BestResultsExample();
    assert eagle.BatchResults([5.0, 0.5]) == [StrategyResult(5.0, [9.0, 9.0]), StrategyResult(0.5, [10.0, 10.0])];
    eagle.UpdateBestResults([5.0, 0.5]);
    first := eagle.bestResults[0];
    eagle.lastSuggestedFeatures := [[2.0, 2.0], [1.0, 1.0]];
    assert eagle.BatchResults([3.0, 4.0]) == [StrategyResult(3.0, [2.0, 2.0]), StrategyResult(4.0, [1.0, 1.0])];
    eagle.UpdateBestResults([3.0, 4.0]);
    second := eagle.bestResults[0];
    eagle.lastSuggestedFeatures := [[4.0, 2.0], [1.0, 1.0]];
    assert eagle.BatchResults([3.0, 6.0]) == [StrategyResult(3.0, [4.0, 2.0]), StrategyResult(6.0, [1.0, 1.0])];
    eagle.UpdateBestResults([3.0, 6.0]);
    third := eagle.bestResults[0];
  }

  /**
   * The trim test: perturbations [pc, 0, 0, pc] and rewards [2, 3, 4, 1]. Fly 2 has the
   * highest reward and stays; fly 1 is re-drawn with reward -inf and perturbation pc.
   */
  method TrimPoolTest(config: EagleStrategyConfig, draws: seq<seq<real>>)
    returns (features: seq<seq<real>>, rewards: seq<Reward>, perturbations: seq<real>)
    requires config.perturbation != 0.0
    requires |draws| == 4 && Rectangular(draws, 2)
    ensures features == [[1.0, 2.0], draws[1], [7.0, 7.0], [8.0, 8.0]]
    ensures rewards == [Fin(2.0), NegInf, Fin(4.0), Fin(1.0)]
    ensures perturbations == [config.perturbation, config.perturbation, 0.0, config.perturbation]
  {
    var pc := config.perturbation;
    var eagle := TestStrategy(config, [Fin(2.0), Fin(3.0), Fin(4.0), Fin(1.0)], [pc, 0.0, 0.0, pc]);
    eagle.bestResults := [StrategyResult(4.0, [1.0, 2.0])];
    assert ArgMax(eagle.rewards[..]) == 2;
    eagle.TrimPool(draws);
    features, rewards, perturbations := eagle.features[..], eagle.rewards[..], eagle.perturbations[..];
  }
}
