/**
 The `ModelWrapper` that the serving host drives: `LoadContext` fills the
 `model` field with the logged weights and bias, and `Predict` dispatches on
 the rank of its input, building the batch answer one row at a time.
 */
module NumpyLogging {
  import opened Linear
  import opened Inference

  datatype Option<T> = None | Some(value: T)

  class ModelWrapper {
    /** `self.model`: absent until `LoadContext` has run. */
    var model: Option<LinearModel>

    /** A loaded model has a bias entry per weight row and rectangular weights. */
    predicate Loaded()
      reads this
    {
      model.Some? && model.value.Valid()
    }

    /** `ModelWrapper()`: no model yet. */
    constructor ()
      ensures model == None
    {
      model := None;
    }

    /** `load_context`: the dictionary read back from the artifact becomes the model. */
    method LoadContext(loaded: LinearModel)
      requires loaded.Valid()
      modifies this
      ensures model == Some(loaded) && Loaded()
    {
      model := Some(loaded);
    }

    /** `predict`: a rank-2 input gives one prediction per row, in row order,
        a rank-1 input one prediction, any other rank 'invalid input shape'.
        It has no modifies clause: the model is only read. */
    method Predict(inputs: Input) returns (r: Result<Prediction>)
      requires Loaded()
      ensures r == Inference.Predict(model.value, inputs)
      ensures inputs.Rank2? && r.Success? ==>
                && r.value.Batch? && |r.value.rows| == |inputs.rows|
                && forall k :: 0 <= k < |inputs.rows| ==>
                     PredictOne(model.value, inputs.rows[k]) == Success(r.value.rows[k])
    {
      var m := model.value;
      if inputs.Rank2? {
        var rows := inputs.rows;
        PredictRowsMeaning(m, rows);
        var predictions: seq<Vector> := [];
        var idx := 0;
        while idx < |rows|
          invariant 0 <= idx <= |rows|
          invariant forall k :: 0 <= k < idx ==> |rows[k]| == m.inFeatures
          invariant |predictions| == idx
          invariant forall k :: 0 <= k < idx ==> predictions[k] == Affine(m.weights, m.bias, rows[k])
        {
          if |rows[idx]| != m.inFeatures {
            // np.matmul raises on the first row of the wrong length
            return Failure(DimensionMismatch);
          }
          var prediction := Affine(m.weights, m.bias, rows[idx]);
          predictions := predictions + [prediction];
          idx := idx + 1;
        }
        assert PredictRows(m, rows).value == predictions;
        r := Success(Batch(predictions));
      } else if inputs.Rank1? {
        if |inputs.vector| != m.inFeatures {
          return Failure(DimensionMismatch);
        }
        r := Success(Single(Affine(m.weights, m.bias, inputs.vector)));
      } else {
        r := Failure(InvalidInputShape);
      }
    }
  }
}
