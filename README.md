# Iris classification service — a Dafny model

This project models the serving core of a small Iris-flower classification
service and the integer part of its dataset summary.

The service (`src/api/app.py`) keeps one process-wide model. At start-up it
loads that model from the first of three candidate paths that exists and
deserialises, and trains a fresh one only when none does. It then answers
four endpoints:

- `health` and `model/info`, which report 503 "Model not loaded" until a
  model is present;
- `predict`, which runs the classifier on one sample of four measurements;
- `predict/batch`, which runs it on up to 100 samples in order and fails as
  a whole when any sample faults.

Request bodies are validated before a handler runs. Each of the four
fields must be present, numeric and within [0, 10], bounds included.

The data module (`src/data/data_loader.py`) summarises a feature array and
a label vector. It reports the sample count, the feature width, the number
of distinct labels and each label's count. Its preparation pipeline echoes
the `normalize` flag back as `normalized`.

Files:

- `wrappers.dfy` holds the `Option` datatype.
- `serving.dfy` (module `Serving`) models `app.py`. The process-wide model
  is the `model` field of class `Server`. The endpoints that only read it
  are functions of that class. The batch loop and the start-up search are
  methods with loops.
- `data_summary.dfy` (module `DataSummary`) models the summary and the
  flag echo as functions and lemmas.

The classifier is foreign code. It is a value of datatype `Classifier`
with two total functions, one per entry point: `predict` gives a class id
and `predictProba` gives a probability vector. Either may answer `None`,
which stands for an exception. The file system, the deserialiser and the
trainer are the oracle `Environment`: `pathExists`, `loadArtifact`, and
`trained`, which is the result of training and saving a fresh model.

Details of the code's behaviour that the model keeps:

- A body that fails validation is answered with 422 even when no model is
  loaded, because the framework validates before the handler's readiness
  check runs (`Server.PredictRequest`, `Server.PredictBatchRequest`).
- The batch endpoint validates every sample before anything else. Then it
  checks readiness, then the ceiling of 100 samples. A sample that faults
  during inference yields a 500, not a 422.
- `prediction_id` is whatever the classifier's `predict` returns. It is not
  derived from the argmax of the probabilities, and `confidence` is the
  largest probability, whatever class that is.
- The label lookup `target_names[prediction_id]` follows the source
  language's indexing: ids -3 to -1 count from the end of the label list,
  and every other id outside 0..2 is a fault, answered with 500 (`PyIndex`).
- Probabilities are paired with labels positionally and stop at the shorter
  of the two lists. An empty probability vector makes `max` raise, which is
  a 500.
- The class distribution is a list of (label, count) pairs in ascending
  label order. That is the order in which the source builds its
  dictionary from the sorted unique labels.

## Model

| member | source | states |
|---|---|---|
| `Serving.StatusCode` | src/api/app.py:186-237 | each refusal maps to exactly one status: 503 exactly for a missing model, 400 exactly for an oversized batch, 422 exactly for a validation failure, 500 exactly for an inference fault |
| `Serving.AcceptField` | src/api/app.py:45-48 | a field is accepted exactly when it is a number within [0, 10], and its value is kept |
| `Serving.Validate` | src/api/app.py:44-48 | a body is accepted iff all four fields are present, numeric and within [0, 10]; each accepted value is the field's number, so the feature vector lists them in declared feature order; otherwise 422 |
| `Serving.FeatureVector` | src/api/app.py:193-202 | the classifier's input row holds one value per declared feature, in the declared order: sepal length, sepal width, petal length, petal width |
| `Serving.BoundaryValues` | src/api/app.py:45-48 | 0 and 10 are accepted, -0.0001 and 10.0001 are rejected, and a body with any field missing or non-numeric is rejected |
| `Serving.ValidateBatch` | src/api/app.py:61-62 | a batch body is accepted iff every sample is; the accepted samples keep input order and length |
| `Serving.PyIndex` | src/api/app.py:206 | indexing succeeds exactly for -len <= i < len, with negative indices counting from the end |
| `Serving.Max` | src/api/app.py:209-210 | the confidence is an element of the probability vector and no element exceeds it |
| `Serving.PairLabels` | src/api/app.py:212-214 | pair i is (label i, probability i), for i below the shorter length |
| `Serving.Infer` | src/api/app.py:191-221 | the pipeline succeeds iff no step faults; on success the id is the classifier's, the label is the one at that id, the confidence is the maximum probability, and the labels pair with the probabilities |
| `Serving.FirstLoadable` | src/api/app.py:93-107 | the chosen path exists and loads, and no earlier path does; no index means that no path does |
| `Serving.Server.constructor` | src/api/app.py:77-78 | a fresh server has no model |
| `Serving.Server.Health` | src/api/app.py:172-182 | 503 iff no model is loaded, otherwise "healthy" with model_loaded true |
| `Serving.Server.ModelInfo` | src/api/app.py:287-299 | 503 iff no model is loaded, otherwise the feature names and class labels in declared order, with n_features 4 and n_classes 3 |
| `Serving.Server.Predict` | src/api/app.py:185-225 | 503 without a model, without calling the classifier; with one, success iff no pipeline step faults, else 500; a success is the classifier's answer |
| `Serving.Server.PredictRequest` | src/api/app.py:185-189 | an invalid body gives 422 ahead of any readiness check; a valid one gets the predict handler's answer |
| `Serving.Server.PredictBatch` | src/api/app.py:228-284 | 503 before 400 before inference; more than 100 samples gives 400 with no classifier call; success iff every sample predicts; predictions match the single endpoint one by one in input order, with batch_size equal to their number; a fault gives one 500, and the loop stops at the first faulting sample |
| `Serving.Server.PredictBatchRequest` | src/api/app.py:228-284 | one invalid sample gives 422 for the whole batch, ahead of the 503 and 400 checks; success iff the batch is valid, a model is loaded, there are at most 100 samples and every sample predicts; otherwise, past those checks, one 500; a success matches the single endpoint sample by sample |
| `Serving.Server.LoadModel` | src/api/app.py:88-128 | the model comes from the first candidate path that exists and loads; only if none does is a fresh model trained; if training fails the outcome is the error and the model is unchanged |
| `DataSummary.GetDataSummary` | src/data/data_loader.py:87-116 | n_samples is the first axis length; n_features is the row width, or 1 for a vector; n_classes is the number of distinct labels and the size of the distribution; each entry counts its label's occurrences and is at least 1; the counts sum to the label count |
| `DataSummary.ClassDistributionLabels` | src/data/data_loader.py:106-107 | the distribution's labels are in strictly ascending order and are exactly the distinct labels of y |
| `DataSummary.ClassDistributionCounts` | src/data/data_loader.py:107 | the distribution records for every label its number of occurrences in y |
| `DataSummary.ClassDistributionTotal` | src/data/data_loader.py:104-107 | every count in the distribution is at least 1 and the counts add up to the number of labels |
| `DataSummary.AscendingSize` | src/data/data_loader.py:106 | an ascending distribution has one entry per distinct label |
| `DataSummary.CountAtEntry` | src/data/data_loader.py:107 | each entry's count is the count recorded for its label |
| `DataSummary.InsertCounts` | src/data/data_loader.py:107 | counting one more label raises that label's count by one and leaves the others unchanged |
| `DataSummary.InsertTotal` | src/data/data_loader.py:107 | counting one more label raises the total by one |
| `DataSummary.SummaryExample` | tests/test_data_loader.py:70-88 | three rows of width 2 with labels [0, 1, 0] give 3 samples, 2 features, 2 classes and distribution {0: 2, 1: 1} |
| `DataSummary.PrepareDataPipeline` | src/data/data_loader.py:119-157 | `normalized` equals the `normalize` argument, and each half of the split gets the full summary of that half |
| `DataSummary.PipelineDefaultNotNormalized` | src/data/data_loader.py:119-121 | without a flag the pipeline reports `normalized` false; with `true` it reports true |

## Left out

- The framework plumbing is not modelled: application construction, CORS, static files, the `root` and `api` information endpoints, the start-up hook and the server entry point.
- Logging and the fixed timestamp string of the health response are not modelled.
- Deserialising, training, saving and the file-system checks are foreign code. They are the oracle `Environment`. A freshly trained model is saved to `models/iris_model.joblib`, but that save is not fed back into the oracle.
- Serving.Server.LoadModel: a file that deserialises to `None` would leave the model unset while the procedure returns normally; the oracle only yields a classifier or a failure, so this case is not modelled.
- The classifier's decision rule is not modelled. It is an opaque function, and no relation between `predict` and `predictProba` is assumed.
- Probabilities and features are `real`. Floating-point rounding, NaN and infinities are not modelled, so a NaN field is not modelled as rejected.
- Error detail strings that embed the text of the raised exception are not modelled. Each refusal is a `Failure` constructor.
- Per-field and per-sample 422 error lists come from the validation library and are not modelled: the framework lists every failing field and sample, while the model reports any validation failure as one `ValidationFailed`. A missing `samples` key is not modelled.
- Pydantic's coercion of numeric strings is folded into `Number`, and everything not coercible is `NotNumeric`.
- Dataset loading, splitting, the scaler and the floating-point mean and standard deviation of `feature_stats` are not modelled. The pipeline takes the split as a parameter. Its `test_size` and `random_state` defaults (0.2 and 42) therefore have no counterpart; the default `normalize=False` is kept as a default parameter.
- DataSummary.GetDataSummary: labels are integers, and the sample count is the first axis of X even when y has another length. The source does not compare the two either.
- Concurrency is not modelled: the source loads once from its start-up hook and has no single-flight coordination.
