# Linear model wrapper: rank-dispatching prediction

This project models the one piece of logic in the MLflow demonstration scripts:
`ModelWrapper`, the `pyfunc` model that serves a linear model made of a weight
matrix `W` (out_features x in_features, 3 x 6 when logged) and a bias vector `b`
(out_features entries).

- `Linear` holds the model record (`LinearModel`: `weights`, `bias`, and the
  column count `inFeatures`) and the affine map `np.matmul(x, W.T) + b`,
  written as a dot product of `x` with each row of `W`.
- `Inference` is the pure specification of `predict`. The input is seen through
  its rank (`Rank1`, `Rank2`, or `OtherRank`), and the output mirrors that
  rank (`Single` or `Batch`). The two `ValueError`s it can raise are the
  `Error` values: `InvalidInputShape` for a rank other than 1 or 2, and
  `DimensionMismatch` when `np.matmul` rejects a feature vector whose length is
  not `W.shape[1]`.
- `NumpyLogging.ModelWrapper` is the class. Its `model` field is empty until
  `LoadContext` sets it. `Predict` builds the batch answer in a `while` loop,
  appending one row's prediction at a time, and is proved to return exactly
  what `Inference.Predict` specifies.

Arithmetic is exact (`real`), not float64.

A rank-2 NumPy array cannot be ragged. A row whose length is not `W.shape[1]`
fails inside `np.matmul`, not at `predict`'s own `raise`; the model calls that
error `DimensionMismatch`. An empty batch never reaches `np.matmul` and returns
an empty list, whatever its column count.

## Model

| member | source | states |
|---|---|---|
| `Linear.Affine` | numpy_logging.py:36 | the affine map has one entry per weight row (equal to the bias length), and entry j is the dot product of the input with row j of W plus bias[j] |
| `Linear.DotOnes` | numpy_logging.py:36 | the dot product of an all-ones vector with a weight row is the sum of that row |
| `Linear.AffineOnes` | numpy_logging.py:36 | the affine map of an all-ones input is, row by row, the weight row's sum plus its bias |
| `Linear.AffineZeros` | numpy_logging.py:36 | the affine map of the zero vector is the bias |
| `Inference.PredictOne` | numpy_logging.py:36 | one vector's prediction succeeds exactly when its length is in_features (otherwise the matmul error); it then has out_features entries, entry j being dot(x, W[j]) + bias[j] |
| `Inference.Predict` | numpy_logging.py:26-40 | 'invalid input shape' is raised exactly for ranks other than 1 and 2; a successful result has the input's rank; a rank-1 input succeeds exactly when its length is in_features (otherwise the matmul error) and then returns the single vector `x·Wᵀ + b` |
| `Inference.PredictRowsMeaning` | numpy_logging.py:30-33 | the batch loop succeeds exactly when every row has in_features entries; it then yields one prediction per row, prediction k being row k's own single prediction; otherwise it fails with the matmul error |
| `Inference.PredictRowsAppend` | numpy_logging.py:30-33 | rows are processed in order: predicting two batches end to end gives the two prediction lists end to end, and fails if either fails |
| `Inference.BatchAgreesWithSingle` | numpy_logging.py:28-37 | a rank-2 input succeeds exactly when each of its rows succeeds as a rank-1 input, and then returns, in row order, the same vector each row gets alone |
| `Inference.RowLocality` | numpy_logging.py:32 | two batches that share row k predict the same vector at k: a row's prediction depends on that row alone |
| `Inference.EmptyBatch` | numpy_logging.py:30-31 | an empty batch returns an empty list |
| `Inference.ThreeBySixModel` | numpy_logging.py:48-49 | a model of 3 x 6 weights and 3 biases maps every 6-entry vector to a 3-entry prediction |
| `Inference.PredictOnes` | numpy_logging.py:36 | predicting on all ones gives each weight row's sum plus its bias |
| `Inference.PredictZeros` | numpy_logging.py:36 | predicting on the zero vector gives the bias |
| `NumpyLogging.ModelWrapper.constructor` | numpy_logging.py:44 | a new wrapper has no model loaded |
| `NumpyLogging.ModelWrapper.LoadContext` | numpy_logging.py:21-24 | after loading, the wrapper's model is exactly the loaded weights and bias |
| `NumpyLogging.ModelWrapper.Predict` | numpy_logging.py:26-40 | the loop-built result equals `Inference.Predict` for the loaded model; a successful batch result holds one prediction per input row, each equal to that row's single prediction; with no modifies clause, the model is only read |

## Left out

- MLflow tracking setup, run logging, `log_param` and `pyfunc.log_model` (numpy_logging.py:12-16, 56-61): network and foreign-library I/O.
- Saving the artifact with `np.save` and reading it back with `np.load` (numpy_logging.py:21-24, 52-54): file I/O and pickling. `LoadContext` takes the loaded weights and bias as a parameter.
- Random initialisation with `np.random.rand` (numpy_logging.py:48-49): only the 3 x 6 and 3 shapes it fixes are used (`ThreeBySixModel`).
- `print` calls and warning suppression (numpy_logging.py:6-8, 24, 29, 35): output only.
- numpy_inference.py: it loads the logged model through MLflow from a fixed path, calls it on random data and prints the result. It has no logic of its own.
- Float64 rounding in `np.matmul` and the addition: the model uses exact `real` arithmetic.
- NumPy broadcasting of a bias whose shape differs from the weight row count (a length-1 bias, say): `LoadContext` requires a bias entry per weight row and rectangular weights, as in the logged model.
- Calling `predict` before `load_context`: `Predict` requires a loaded model, which the serving host always provides. Without one, Python raises `AttributeError` for a rank-1 input and a non-empty rank-2 input, but still returns `[]` for an empty batch and raises 'invalid input shape' for any other rank, because those paths never read `self.model`; the requires excludes these two cases as well.
- Inputs that are not NumPy arrays (a DataFrame passed by the host, say): the input is taken to be an array seen through its rank.
