/**
 The linear model that the wrapper serves: a weight matrix `weights` of shape
 out_features x in_features and a bias vector of length out_features, and the
 affine map `x · weightsᵀ + bias` that NumPy computes for one feature vector.
 Arithmetic is exact (`real`); float64 rounding is not modelled.
 */
module Linear {

  type Vector = seq<real>
  type Matrix = seq<Vector>

  /** The dictionary `{'weights': W, 'bias': b}` that the wrapper loads.
      `inFeatures` is `W.shape[1]`, kept apart so that a matrix without rows
      still has a column count. */
  datatype LinearModel = LinearModel(weights: Matrix, bias: Vector, inFeatures: nat)
  {
    /** W is rectangular (out x in) and the bias has one entry per row of W. */
    predicate Valid() {
      && |bias| == |weights|
      && forall j :: 0 <= j < |weights| ==> |weights[j]| == inFeatures
    }

    function OutFeatures(): nat {
      |weights|
    }
  }

  /** Sum over k of x[k] * w[k]: entry j of `np.matmul(x, W.T)` is Dot(x, W[j]). */
  function Dot(x: Vector, w: Vector): real
    requires |x| == |w|
  {
    if x == [] then 0.0 else x[0] * w[0] + Dot(x[1..], w[1..])
  }

  function Sum(w: Vector): real {
    if w == [] then 0.0 else w[0] + Sum(w[1..])
  }

  function Ones(n: nat): Vector {
    seq(n, _ => 1.0)
  }

  function Zeros(n: nat): Vector {
    seq(n, _ => 0.0)
  }

  /** `np.matmul(x, weights.T) + bias`, row of `weights` by row. */
  function Affine(weights: Matrix, bias: Vector, x: Vector): (r: Vector)
    requires |bias| == |weights|
    requires forall j :: 0 <= j < |weights| ==> |weights[j]| == |x|
    ensures |r| == |weights| == |bias|
    ensures forall j :: 0 <= j < |r| ==> r[j] == Dot(x, weights[j]) + bias[j]
  {
    if weights == [] then []
    else [Dot(x, weights[0]) + bias[0]] + Affine(weights[1..], bias[1..], x)
  }

  /** A vector of ones picks out the sum of each weight row. */
  lemma {:induction false} DotOnes(w: Vector)
    ensures Dot(Ones(|w|), w) == Sum(w)
  {
    if w != [] {
      assert Ones(|w|)[1..] == Ones(|w| - 1);
      DotOnes(w[1..]);
    }
  }

  /** The zero vector is orthogonal to every weight row. */
  lemma {:induction false} DotZeros(w: Vector)
    ensures Dot(Zeros(|w|), w) == 0.0
  {
    if w != [] {
      assert Zeros(|w|)[1..] == Zeros(|w| - 1);
      DotZeros(w[1..]);
    }
  }

  /** Predicting on all-ones features gives each weight row's sum plus its bias. */
  lemma AffineOnes(m: LinearModel)
    requires m.Valid()
    ensures Affine(m.weights, m.bias, Ones(m.inFeatures))
            == seq(m.OutFeatures(), j requires 0 <= j < m.OutFeatures() => Sum(m.weights[j]) + m.bias[j])
  {
    forall j | 0 <= j < m.OutFeatures()
      ensures Dot(Ones(m.inFeatures), m.weights[j]) == Sum(m.weights[j])
    {
      DotOnes(m.weights[j]);
    }
  }

  /** Predicting on the zero vector gives back the bias. */
  lemma AffineZeros(m: LinearModel)
    requires m.Valid()
    ensures Affine(m.weights, m.bias, Zeros(m.inFeatures)) == m.bias
  {
    forall j | 0 <= j < m.OutFeatures()
      ensures Dot(Zeros(m.inFeatures), m.weights[j]) == 0.0
    {
      DotZeros(m.weights[j]);
    }
  }
}
