/**
 * Scalarization functions: they reduce a vector of objective values (one per declared
 * metric, oriented so that larger is better) to one score, given a weight vector.
 *
 * A floating-point NaN is the explicit value `NaN`; both scalarizers propagate it, as
 * IEEE arithmetic does for sums, products, quotients and `min`.
 */
module Scalarization {

  /** A floating-point value: a number, or NaN. */
  datatype Float = NaN | Num(x: real)

  /** Negation, which leaves NaN as NaN. */
  function Negate(f: Float): Float
  {
    match f
    case NaN => NaN
    case Num(x) => Num(-x)
  }

  datatype Scalarization =
    | LinearScalarization(weights: seq<real>)
    | HyperVolumeScalarization(weights: seq<real>)

  /**
   * The weight vectors the model covers: non-empty, and strictly positive for the
   * hypervolume scalarizer, whose ratios divide by the weights.
   */
  ghost predicate WellFormed(s: Scalarization)
  {
    && |s.weights| > 0
    && (s.HyperVolumeScalarization? ==> forall i :: 0 <= i < |s.weights| ==> s.weights[i] > 0.0)
  }

  /** The weighted sum of the values. */
  function Dot(w: seq<real>, v: seq<real>): real
    requires |w| == |v|
  {
    if |w| == 0 then 0.0 else w[0] * v[0] + Dot(w[1..], v[1..])
  }

  /** The smallest ratio v[i] / w[i]: no ratio is smaller, and some ratio equals it. */
  function MinRatio(v: seq<real>, w: seq<real>): (m: real)
    requires |v| == |w| > 0
    requires forall i :: 0 <= i < |w| ==> w[i] > 0.0
    ensures forall i :: 0 <= i < |v| ==> m <= v[i] / w[i]
    ensures exists i :: 0 <= i < |v| && m == v[i] / w[i]
  {
    if |v| == 1 then v[0] / w[0]
    else
      var rest := MinRatio(v[1..], w[1..]);
      assert forall i :: 1 <= i < |v| ==> v[1..][i - 1] == v[i] && w[1..][i - 1] == w[i];
      if v[0] / w[0] <= rest then v[0] / w[0] else rest
  }

  predicate AllNumbers(objectives: seq<Float>)
  {
    forall i :: 0 <= i < |objectives| ==> objectives[i].Num?
  }

  function Numbers(objectives: seq<Float>): (v: seq<real>)
    requires AllNumbers(objectives)
    ensures |v| == |objectives| && forall i :: 0 <= i < |v| ==> objectives[i] == Num(v[i])
  {
    seq(|objectives|, i requires 0 <= i < |objectives| => objectives[i].x)
  }

  /** `scalarization(objectives)`, for an objective vector with one entry per weight. */
  function Apply(s: Scalarization, objectives: seq<Float>): (r: Float)
    requires WellFormed(s) && |objectives| == |s.weights|
    ensures r == NaN <==> !AllNumbers(objectives)
  {
    if !AllNumbers(objectives) then NaN
    else match s
      case LinearScalarization(w) => Num(Dot(w, Numbers(objectives)))
      case HyperVolumeScalarization(w) => Num(MinRatio(Numbers(objectives), w))
  }

  /** The linear scalarizer on numbers is the weighted sum of the objectives. */
  lemma LinearIsWeightedSum(w: seq<real>, v: seq<real>)
    requires |w| == |v| > 0
    ensures Apply(LinearScalarization(w), seq(|v|, i requires 0 <= i < |v| => Num(v[i]))) == Num(Dot(w, v))
  {
    var objectives := seq(|v|, i requires 0 <= i < |v| => Num(v[i]));
    assert Numbers(objectives) == v;
  }

  /**
   * The hypervolume scalarizer on numbers is min_i(v[i] / w[i]): it is at most every
   * ratio and equal to one of them.
   */
  lemma HyperVolumeIsMinRatio(w: seq<real>, v: seq<real>)
    requires |w| == |v| > 0
    requires forall i :: 0 <= i < |w| ==> w[i] > 0.0
    ensures var r := Apply(HyperVolumeScalarization(w), seq(|v|, i requires 0 <= i < |v| => Num(v[i])));
            && r.Num?
            && (forall i :: 0 <= i < |v| ==> r.x <= v[i] / w[i])
            && (exists i :: 0 <= i < |v| && r.x == v[i] / w[i])
  {
    var objectives := seq(|v|, i requires 0 <= i < |v| => Num(v[i]));
    assert Numbers(objectives) == v;
  }

  /** Raising one objective never lowers the weighted sum when the weights are non-negative. */
  lemma {:induction false} DotMonotone(w: seq<real>, u: seq<real>, v: seq<real>)
    requires |w| == |u| == |v|
    requires forall i :: 0 <= i < |w| ==> w[i] >= 0.0 && u[i] <= v[i]
    ensures Dot(w, u) <= Dot(w, v)
  {
    if |w| > 0 {
      DotMonotone(w[1..], u[1..], v[1..]);
      assert w[0] * u[0] <= w[0] * v[0] by {
        assert w[0] * (v[0] - u[0]) >= 0.0;
      }
    }
  }

  /** Raising objectives never lowers the hypervolume score. */
  lemma MinRatioMonotone(w: seq<real>, u: seq<real>, v: seq<real>)
    requires |w| == |u| == |v| > 0
    requires forall i :: 0 <= i < |w| ==> w[i] > 0.0 && u[i] <= v[i]
    ensures MinRatio(u, w) <= MinRatio(v, w)
  {
    var i :| 0 <= i < |v| && MinRatio(v, w) == v[i] / w[i];
    DivMonotone(u[i], v[i], w[i]);
  }

  lemma DivMonotone(a: real, b: real, c: real)
    requires c > 0.0 && a <= b
    ensures a / c <= b / c
  {
    var qa, qb := a / c, b / c;
    assert qa * c == a && qb * c == b;
    assert (qb - qa) * c == b - a;
  }

  /** With weights [0.1, 0.2] the linear scalarizer maps [3.0, 4.5] to 1.2. */
  lemma LinearExample()
    ensures Apply(LinearScalarization([0.1, 0.2]), [Num(3.0), Num(4.5)]) == Num(1.2)
  {
    assert Numbers([Num(3.0), Num(4.5)]) == [3.0, 4.5];
  }

  /** With weights [0.1, 0.2] the hypervolume scalarizer maps [3.0, 4.5] to 22.5 = min(30, 22.5). */
  lemma HyperVolumeExample()
    ensures Apply(HyperVolumeScalarization([0.1, 0.2]), [Num(3.0), Num(4.5)]) == Num(22.5)
  {
    assert Numbers([Num(3.0), Num(4.5)]) == [3.0, 4.5];
    assert [3.0, 4.5][1..] == [4.5] && [0.1, 0.2][1..] == [0.2];
  }
}
