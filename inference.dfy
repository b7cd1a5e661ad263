/**
 What `ModelWrapper.predict` returns, as pure functions: dispatch on the rank
 of the input, one affine map for a single vector, one per row for a batch,
 and the `ValueError`s it raises.
 */
module Inference {
  import opened Linear

  /** The two `ValueError`s predict can end in: its own 'invalid input shape',
      and the one `np.matmul` raises when a feature vector's length is not
      `W.shape[1]`. */
  datatype Error = InvalidInputShape | DimensionMismatch

  datatype Result<T> = Success(value: T) | Failure(error: Error)

  /** Any value of `len(inputs.shape)` that is neither 1 nor 2. */
  type OtherRankNumber = r: nat | r != 1 && r != 2

  /** The input array, seen through its rank. A rank-2 array is its rows. */
  datatype Input = Rank1(vector: Vector) | Rank2(rows: seq<Vector>) | OtherRank(rank: OtherRankNumber)
  {
    /** `len(inputs.shape)` */
    function Rank(): nat {
      match this
      case Rank1(_) => 1
      case Rank2(_) => 2
      case OtherRank(r) => r
    }
  }

  /** A flat list of floats for a single vector, a list of such lists for a batch. */
  datatype Prediction = Single(vector: Vector) | Batch(rows: seq<Vector>)
  {
    function Rank(): nat {
      if Single? then 1 else 2
    }
  }

  /** `np.matmul(x, W.T) + bias` for one feature vector. */
  function PredictOne(m: LinearModel, x: Vector): (r: Result<Vector>)
    requires m.Valid()
    ensures r.Success? <==> |x| == m.inFeatures
    ensures r.Failure? ==> r.error == DimensionMismatch
    ensures r.Success? ==>
              && |r.value| == m.OutFeatures() == |m.bias|
              && forall j :: 0 <= j < |r.value| ==> r.value[j] == Dot(x, m.weights[j]) + m.bias[j]
  {
    if |x| == m.inFeatures then Success(Affine(m.weights, m.bias, x)) else Failure(DimensionMismatch)
  }

  /** The batch branch: the rows' predictions in row order, or the error of
      the first row whose prediction fails. */
  function PredictRows(m: LinearModel, rows: seq<Vector>): Result<seq<Vector>>
    requires m.Valid()
  {
    if rows == [] then Success([])
    else
      match PredictOne(m, rows[0])
      case Failure(e) => Failure(e)
      case Success(p) =>
        match PredictRows(m, rows[1..])
        case Failure(e) => Failure(e)
        case Success(ps) => Success([p] + ps)
  }

  /** What `predict(context, inputs)` returns or raises. */
  function Predict(m: LinearModel, inputs: Input): (r: Result<Prediction>)
    requires m.Valid()
    ensures r == Failure(InvalidInputShape) <==> inputs.OtherRank?
    ensures r.Success? ==> r.value.Rank() == inputs.Rank()
    ensures inputs.Rank1? ==>
              && (r.Success? <==> |inputs.vector| == m.inFeatures)
              && (r.Failure? ==> r.error == DimensionMismatch)
              && (r.Success? ==> r.value == Single(Affine(m.weights, m.bias, inputs.vector)))
  {
    match inputs
    case Rank2(rows) =>
      PredictRowsMeaning(m, rows);
      (match PredictRows(m, rows)
       case Success(ps) => Success(Batch(ps))
       case Failure(e) => Failure(e))
    case Rank1(x) =>
      (match PredictOne(m, x)
       case Success(p) => Success(Single(p))
       case Failure(e) => Failure(e))
    case OtherRank(_) => Failure(InvalidInputShape)
  }

  /** A batch succeeds exactly when every row has in_features entries; it then
      holds one prediction per row, and prediction k is row k's own. */
  lemma {:induction false} PredictRowsMeaning(m: LinearModel, rows: seq<Vector>)
    requires m.Valid()
    ensures PredictRows(m, rows).Success? <==> forall k :: 0 <= k < |rows| ==> |rows[k]| == m.inFeatures
    ensures PredictRows(m, rows).Failure? ==> PredictRows(m, rows).error == DimensionMismatch
    ensures PredictRows(m, rows).Success? ==>
              && |PredictRows(m, rows).value| == |rows|
              && forall k :: 0 <= k < |rows| ==> PredictOne(m, rows[k]) == Success(PredictRows(m, rows).value[k])
  {
    if rows != [] {
      PredictRowsMeaning(m, rows[1..]);
      if PredictOne(m, rows[0]).Success? && PredictRows(m, rows[1..]).Success? {
        var ps := PredictRows(m, rows).value;
        forall k | 0 <= k < |rows|
          ensures PredictOne(m, rows[k]) == Success(ps[k])
        {
          if k > 0 {
            assert rows[k] == rows[1..][k - 1];
          }
        }
      } else if PredictOne(m, rows[0]).Success? {
        var k :| 0 <= k < |rows[1..]| && |rows[1..][k]| != m.inFeatures;
        assert |rows[k + 1]| != m.inFeatures;
      }
    }
  }

  /** Batches are processed row by row in order: the prediction of two
      batches end to end is the two predictions end to end, and fails when
      either fails. */
  lemma PredictRowsAppend(m: LinearModel, a: seq<Vector>, b: seq<Vector>)
    requires m.Valid()
    ensures PredictRows(m, a + b) ==
              if PredictRows(m, a).Success? && PredictRows(m, b).Success?
              then Success(PredictRows(m, a).value + PredictRows(m, b).value)
              else Failure(DimensionMismatch)
  {
    var ra, rb, rab := PredictRows(m, a), PredictRows(m, b), PredictRows(m, a + b);
    PredictRowsMeaning(m, a);
    PredictRowsMeaning(m, b);
    PredictRowsMeaning(m, a + b);
    if ra.Success? && rb.Success? {
      forall k | 0 <= k < |a + b|
        ensures rab.Success? && rab.value[k] == (ra.value + rb.value)[k]
      {
        if k < |a| {
          assert (a + b)[k] == a[k];
        } else {
          assert (a + b)[k] == b[k - |a|];
        }
      }
      assert rab.value == ra.value + rb.value;
    } else if ra.Failure? {
      var k :| 0 <= k < |a| && |a[k]| != m.inFeatures;
      assert (a + b)[k] == a[k];
    } else {
      var k :| 0 <= k < |b| && |b[k]| != m.inFeatures;
      assert (a + b)[|a| + k] == b[k];
    }
  }

  /** Batch and single inference agree: a rank-2 input succeeds exactly when
      each of its rows succeeds as a rank-1 input, and then holds, in order,
      what each row alone predicts. */
  lemma BatchAgreesWithSingle(m: LinearModel, rows: seq<Vector>)
    requires m.Valid()
    ensures Predict(m, Rank2(rows)).Success? <==> forall k :: 0 <= k < |rows| ==> Predict(m, Rank1(rows[k])).Success?
    ensures Predict(m, Rank2(rows)).Success? ==>
              && |Predict(m, Rank2(rows)).value.rows| == |rows|
              && forall k :: 0 <= k < |rows| ==>
                   Predict(m, Rank1(rows[k])) == Success(Single(Predict(m, Rank2(rows)).value.rows[k]))
  {
    PredictRowsMeaning(m, rows);
  }

  /** A row's prediction depends on that row alone: two batches that share
      row k predict the same for it. */
  lemma RowLocality(m: LinearModel, rows: seq<Vector>, others: seq<Vector>, k: nat)
    requires m.Valid()
    requires k < |rows| && k < |others| && rows[k] == others[k]
    requires PredictRows(m, rows).Success? && PredictRows(m, others).Success?
    ensures && k < |PredictRows(m, rows).value| && k < |PredictRows(m, others).value|
            && PredictRows(m, rows).value[k] == PredictRows(m, others).value[k]
  {
    PredictRowsMeaning(m, rows);
    PredictRowsMeaning(m, others);
  }

  /** An empty batch predicts an empty list, whatever the model. */
  lemma EmptyBatch(m: LinearModel)
    requires m.Valid()
    ensures Predict(m, Rank2([])) == Success(Batch([]))
  {
  }

  /** A 3 x 6 model, as the logged one is built, maps every 6-feature vector
      to 3 outputs. */
  lemma ThreeBySixModel(m: LinearModel, x: Vector)
    requires m.Valid() && m.OutFeatures() == 3 && m.inFeatures == 6
    requires |x| == 6
    ensures Predict(m, Rank1(x)).Success? && |Predict(m, Rank1(x)).value.vector| == 3
  {
  }

  /** End to end through the rank dispatch: a rank-1 vector of ones predicts
      each weight row's sum plus its bias. */
  lemma PredictOnes(m: LinearModel)
    requires m.Valid()
    ensures Predict(m, Rank1(Ones(m.inFeatures)))
            == Success(Single(seq(m.OutFeatures(), j requires 0 <= j < m.OutFeatures() => Sum(m.weights[j]) + m.bias[j])))
  {
    AffineOnes(m);
  }

  /** End to end through the rank dispatch: a rank-1 zero vector predicts the bias. */
  lemma PredictZeros(m: LinearModel)
    requires m.Valid()
    ensures Predict(m, Rank1(Zeros(m.inFeatures))) == Success(Single(m.bias))
  {
    AffineZeros(m);
  }
}
