/**
 * The Iris prediction service (src/api/app.py): request validation, the
 * readiness gate on the loaded model, single and batch prediction, the
 * model-information and health endpoints, and the load-or-train start-up
 * procedure.
 *
 * The classifier, the artifact store and the trainer are foreign code; they
 * appear here as oracles (values of the datatypes Classifier and
 * Environment) whose answers are parameters of the model.
 */
module Serving {
  import opened Wrappers

  /** Feature names in the order the classifier expects its input vector. */
  const FeatureNames: seq<string> :=
    ["sepal length (cm)", "sepal width (cm)", "petal length (cm)", "petal width (cm)"]

  /** Class labels, indexed by the classifier's class id. */
  const TargetNames: seq<string> := ["setosa", "versicolor", "virginica"]

  /** Largest batch the batch endpoint accepts. */
  const MaxBatchSize: nat := 100

  /** Where the start-up procedure looks for a saved model, in this order. */
  const ModelPaths: seq<string> :=
    ["models/iris_model.joblib", "/app/models/iris_model.joblib", "iris_model.joblib"]

  /** Inclusive bounds every feature value must lie in. */
  const MinFeature: real := 0.0
  const MaxFeature: real := 10.0

  // ---------------------------------------------------------------------
  // Outcomes
  // ---------------------------------------------------------------------

  /** Every way an endpoint can refuse a request. */
  datatype Failure =
    | ValidationFailed       // the request body does not match the schema
    | ModelNotLoaded         // "Model not loaded"
    | BatchTooLarge          // "Batch size cannot exceed 100 samples"
    | PredictionFailed       // "Prediction failed: ..."
    | BatchPredictionFailed  // "Batch prediction failed: ..."

  /** The HTTP status each failure is reported with. */
  function StatusCode(f: Failure): (code: int)
    ensures code in {400, 422, 500, 503}
    ensures code == 500 <==> f.PredictionFailed? || f.BatchPredictionFailed?
    ensures code == 503 <==> f == ModelNotLoaded
    ensures code == 400 <==> f == BatchTooLarge
    ensures code == 422 <==> f == ValidationFailed
  {
    match f
    case ValidationFailed => 422
    case ModelNotLoaded => 503
    case BatchTooLarge => 400
    case PredictionFailed => 500
    case BatchPredictionFailed => 500
  }

  datatype Result<T> = Ok(value: T) | Err(failure: Failure)

  // ---------------------------------------------------------------------
  // Requests
  // ---------------------------------------------------------------------

  /** One field of a request body as it arrives: absent, not a number, or a number. */
  datatype RawField = Missing | NotNumeric | Number(value: real)

  /** The four measurements a request carries. */
  datatype Feature = SepalLength | SepalWidth | PetalLength | PetalWidth

  /**
   * The declared feature order: FeatureNames[i] names FeatureOrder[i], and
   * the classifier's input row lists the values in this order.
   */
  const FeatureOrder: seq<Feature> := [SepalLength, SepalWidth, PetalLength, PetalWidth]

  /** An unvalidated body of the single-prediction endpoint. */
  datatype RawFeatures = RawFeatures(
    sepalLength: RawField, sepalWidth: RawField, petalLength: RawField, petalWidth: RawField)
  {
    function Field(f: Feature): RawField {
      match f
      case SepalLength => sepalLength
      case SepalWidth => sepalWidth
      case PetalLength => petalLength
      case PetalWidth => petalWidth
    }
  }

  /** A validated body: four numbers, each within [MinFeature, MaxFeature]. */
  datatype IrisFeatures = IrisFeatures(
    sepalLength: real, sepalWidth: real, petalLength: real, petalWidth: real)
  {
    function Value(f: Feature): real {
      match f
      case SepalLength => sepalLength
      case SepalWidth => sepalWidth
      case PetalLength => petalLength
      case PetalWidth => petalWidth
    }
  }

  /**
   * The input row handed to the classifier: one value per declared feature,
   * in the declared order (sepal length, sepal width, petal length, petal
   * width).
   */
  function FeatureVector(x: IrisFeatures): (v: seq<real>)
    ensures |v| == |FeatureNames| == |FeatureOrder|
    ensures forall i :: 0 <= i < |v| ==> v[i] == x.Value(FeatureOrder[i])
    ensures v == [x.sepalLength, x.sepalWidth, x.petalLength, x.petalWidth]
  {
    seq(|FeatureOrder|, i requires 0 <= i < |FeatureOrder| => x.Value(FeatureOrder[i]))
  }

  /** What the schema demands of one field: present, numeric and within the bounds. */
  predicate FieldValid(f: RawField) {
    f.Number? && MinFeature <= f.value <= MaxFeature
  }

  /** The value of one field if the schema accepts it. */
  function AcceptField(f: RawField): (r: Option<real>)
    ensures r.Some? <==> FieldValid(f)
    ensures r.Some? ==> r.value == f.value
  {
    match f
    case Number(v) => if 0.0 <= v && v <= 10.0 then Some(v) else None
    case _ => None
  }

  /** Schema validation of a single-prediction body. */
  function Validate(raw: RawFeatures): (r: Result<IrisFeatures>)
    ensures r.Ok? <==> forall f: Feature :: FieldValid(raw.Field(f))
    ensures r.Ok? ==> forall f: Feature :: raw.Field(f) == Number(r.value.Value(f))
    ensures r.Ok? ==> forall v :: v in FeatureVector(r.value) ==> MinFeature <= v <= MaxFeature
    ensures r.Err? ==> r.failure == ValidationFailed
  {
    match (AcceptField(raw.Field(SepalLength)), AcceptField(raw.Field(SepalWidth)),
           AcceptField(raw.Field(PetalLength)), AcceptField(raw.Field(PetalWidth)))
    case (Some(a), Some(b), Some(c), Some(d)) => Ok(IrisFeatures(a, b, c, d))
    case _ => Err(ValidationFailed)
  }

  /**
   * Both bounds are inclusive: 0 and 10 pass, anything just outside does
   * not; and a body with any field missing or not numeric is refused.
   */
  lemma BoundaryValues(raw: RawFeatures)
    ensures Validate(RawFeatures(Number(0.0), Number(10.0), Number(0.0), Number(10.0))).Ok?
    ensures Validate(RawFeatures(Number(-0.0001), Number(5.0), Number(5.0), Number(5.0))).Err?
    ensures Validate(RawFeatures(Number(5.0), Number(5.0), Number(10.0001), Number(5.0))).Err?
    ensures (exists f: Feature :: !raw.Field(f).Number?) ==> Validate(raw).Err?
  {
  }

  /** Schema validation of a batch body: every sample must be valid. */
  function ValidateBatch(raws: seq<RawFeatures>): (r: Result<seq<IrisFeatures>>)
    ensures r.Ok? <==> forall i :: 0 <= i < |raws| ==> Validate(raws[i]).Ok?
    ensures r.Ok? ==> |r.value| == |raws|
    ensures r.Ok? ==> forall i :: 0 <= i < |raws| ==> Validate(raws[i]) == Ok(r.value[i])
    ensures r.Err? ==> r.failure == ValidationFailed
  {
    if raws == [] then Ok([])
    else
      match (Validate(raws[0]), ValidateBatch(raws[1..]))
      case (Ok(x), Ok(xs)) => Ok([x] + xs)
      case _ => Err(ValidationFailed)
  }

  // ---------------------------------------------------------------------
  // The classifier and the single-prediction pipeline
  // ---------------------------------------------------------------------

  /**
   * The loaded model, seen only through its two entry points. Each answers
   * for one input row; None stands for an exception raised inside it.
   */
  datatype Classifier = Classifier(
    predict: seq<real> -> Option<int>,
    predictProba: seq<real> -> Option<seq<real>>)

  /** The body of a successful single prediction. */
  datatype PredictionResponse = PredictionResponse(
    prediction: string,
    predictionId: int,
    confidence: real,
    probabilities: seq<(string, real)>)

  function Min(a: int, b: int): int {
    if a <= b then a else b
  }

  /**
   * Sequence indexing as the source language does it: an index in
   * [-|s|, -1] counts from the end; anything else is an error (None).
   */
  function PyIndex<T>(s: seq<T>, i: int): (r: Option<T>)
    ensures r.Some? <==> -|s| <= i < |s|
    ensures 0 <= i < |s| ==> r == Some(s[i])
    ensures -|s| <= i < 0 ==> r == Some(s[|s| + i])
  {
    if 0 <= i < |s| then Some(s[i])
    else if -|s| <= i < 0 then Some(s[|s| + i])
    else None
  }

  /** The largest element of a non-empty sequence of probabilities. */
  function Max(s: seq<real>): (m: real)
    requires s != []
    ensures m in s
    ensures forall i :: 0 <= i < |s| ==> s[i] <= m
  {
    if |s| == 1 then s[0]
    else
      var rest := Max(s[1..]);
      if s[0] >= rest then s[0] else rest
  }

  /** Labels paired with probabilities positionally, stopping at the shorter list. */
  function PairLabels(names: seq<string>, probs: seq<real>): (r: seq<(string, real)>)
    ensures |r| == Min(|names|, |probs|)
    ensures forall i :: 0 <= i < |r| ==> r[i] == (names[i], probs[i])
  {
    if names == [] || probs == [] then []
    else [(names[0], probs[0])] + PairLabels(names[1..], probs[1..])
  }

  /** Some step of the prediction pipeline raises on input row v. */
  predicate Faults(c: Classifier, v: seq<real>) {
    || c.predict(v).None?
    || PyIndex(TargetNames, c.predict(v).value).None?
    || c.predictProba(v).None?
    || c.predictProba(v).value == []
  }

  /** resp is the response the classifier's answers on row v call for. */
  predicate Answers(c: Classifier, v: seq<real>, resp: PredictionResponse) {
    && c.predict(v) == Some(resp.predictionId)
    && PyIndex(TargetNames, resp.predictionId) == Some(resp.prediction)
    && c.predictProba(v).Some?
    && var p := c.predictProba(v).value;
       && resp.confidence in p
       && (forall i :: 0 <= i < |p| ==> p[i] <= resp.confidence)
       && |resp.probabilities| == Min(|TargetNames|, |p|)
       && forall i :: 0 <= i < |resp.probabilities| ==> resp.probabilities[i] == (TargetNames[i], p[i])
  }

  /**
   * The guarded part of the predict handler: run the classifier on one
   * validated sample and assemble the response; None when any step raises
   * (an unknown class id, an empty probability vector, or a fault of the
   * classifier itself).
   */
  function Infer(c: Classifier, x: IrisFeatures): (r: Option<PredictionResponse>)
    ensures r.Some? <==> !Faults(c, FeatureVector(x))
    ensures r.Some? ==> Answers(c, FeatureVector(x), r.value)
    ensures r.Some? ==> r.value.prediction in TargetNames
  {
    var v := FeatureVector(x);
    match c.predict(v)
    case None => None
    case Some(id) =>
      match PyIndex(TargetNames, id)
      case None => None
      case Some(name) =>
        match c.predictProba(v)
        case None => None
        case Some(probs) =>
          if probs == [] then None
          else Some(PredictionResponse(name, id, Max(probs), PairLabels(TargetNames, probs)))
  }

  // ---------------------------------------------------------------------
  // Responses of the other endpoints
  // ---------------------------------------------------------------------

  datatype HealthResponse = HealthResponse(status: string, modelLoaded: bool)

  datatype ModelInfoResponse = ModelInfoResponse(
    modelType: string,
    features: seq<string>,
    targetClasses: seq<string>,
    nFeatures: nat,
    nClasses: nat)

  datatype BatchPredictionResponse = BatchPredictionResponse(
    predictions: seq<PredictionResponse>,
    batchSize: nat)

  // ---------------------------------------------------------------------
  // Loading
  // ---------------------------------------------------------------------

  /**
   * The outside world as the start-up procedure sees it: which paths exist,
   * what loading each yields (None when loading raises), and the model that
   * training and saving a fresh one yields (None when either raises).
   */
  datatype Environment = Environment(
    pathExists: string -> bool,
    loadArtifact: string -> Option<Classifier>,
    trained: Option<Classifier>)

  /** Where the start-up procedure took its model from, or that it gave up. */
  datatype LoadOutcome = LoadedFrom(path: string) | Trained | CouldNotLoadOrTrain

  predicate Loadable(env: Environment, path: string) {
    env.pathExists(path) && env.loadArtifact(path).Some?
  }

  /** The index of the first path in paths that exists and loads. */
  function FirstLoadable(env: Environment, paths: seq<string>): (k: Option<nat>)
    ensures k.Some? ==> k.value < |paths| && Loadable(env, paths[k.value])
    ensures k.Some? ==> forall j :: 0 <= j < k.value ==> !Loadable(env, paths[j])
    ensures k.None? ==> forall j :: 0 <= j < |paths| ==> !Loadable(env, paths[j])
  {
    if paths == [] then None
    else if Loadable(env, paths[0]) then Some(0)
    else match FirstLoadable(env, paths[1..])
      case None => None
      case Some(j) => Some(j + 1)
  }

  // ---------------------------------------------------------------------
  // The server: the process-wide model and the endpoints that read it
  // ---------------------------------------------------------------------

  class Server {
    /** The loaded model; None until start-up has loaded or trained one. */
    var model: Option<Classifier>

    /** A fresh process: nothing loaded yet. */
    constructor ()
      ensures model.None?
    {
      model := None;
    }

    /** The health endpoint: 503 until a model is loaded. */
    function Health(): (r: Result<HealthResponse>)
      reads this
      ensures r.Ok? <==> model.Some?
      ensures r.Err? ==> r.failure == ModelNotLoaded
      ensures r.Ok? ==> r.value.status == "healthy" && r.value.modelLoaded
    {
      if model.None? then Err(ModelNotLoaded)
      else Ok(HealthResponse("healthy", true))
    }

    /** The model-information endpoint: 503 until a model is loaded. */
    function ModelInfo(): (r: Result<ModelInfoResponse>)
      reads this
      ensures r.Ok? <==> model.Some?
      ensures r.Err? ==> r.failure == ModelNotLoaded
      ensures r.Ok? ==> r.value.features == FeatureNames && r.value.targetClasses == TargetNames
      ensures r.Ok? ==> r.value.nFeatures == |r.value.features| == 4
      ensures r.Ok? ==> r.value.nClasses == |r.value.targetClasses| == 3
    {
      if model.None? then Err(ModelNotLoaded)
      else Ok(ModelInfoResponse(
        "RandomForestClassifier", FeatureNames, TargetNames, |FeatureNames|, |TargetNames|))
    }

    /**
     * The predict handler on a validated sample: 503 when no model is
     * loaded, 500 when the pipeline raises, otherwise the classifier's
     * answer as a response.
     */
    function Predict(x: IrisFeatures): (r: Result<PredictionResponse>)
      reads this
      ensures model.None? ==> r == Err(ModelNotLoaded)
      ensures model.Some? ==> (r.Ok? <==> !Faults(model.value, FeatureVector(x)))
      ensures model.Some? && r.Err? ==> r.failure == PredictionFailed
      ensures r.Ok? ==> model.Some? && Answers(model.value, FeatureVector(x), r.value)
    {
      if model.None? then Err(ModelNotLoaded)
      else
        match Infer(model.value, x)
        case None => Err(PredictionFailed)
        case Some(resp) => Ok(resp)
    }

    /**
     * The predict endpoint on a raw body: the body is validated before the
     * handler runs, so a schema violation is reported as 422 whether or not
     * a model is loaded.
     */
    function PredictRequest(raw: RawFeatures): (r: Result<PredictionResponse>)
      reads this
      ensures Validate(raw).Err? ==> r == Err(ValidationFailed)
      ensures Validate(raw).Ok? ==> r == Predict(Validate(raw).value)
      ensures r.Ok? ==> forall f: Feature :: FieldValid(raw.Field(f))
    {
      match Validate(raw)
      case Err(e) => Err(e)
      case Ok(x) => Predict(x)
    }

    /**
     * The batch handler on validated samples. The readiness check comes
     * first, then the size ceiling, then one pipeline run per sample in
     * input order, stopping at the first sample that raises. The ghost
     * result ran counts the samples handed to the classifier.
     */
    method PredictBatch(samples: seq<IrisFeatures>)
      returns (r: Result<BatchPredictionResponse>, ghost ran: nat)
      ensures model.None? ==> r == Err(ModelNotLoaded) && ran == 0
      ensures model.Some? && |samples| > MaxBatchSize ==> r == Err(BatchTooLarge) && ran == 0
      ensures r.Ok? <==>
        model.Some? && |samples| <= MaxBatchSize && forall i :: 0 <= i < |samples| ==> Predict(samples[i]).Ok?
      ensures r.Ok? ==> r.value.batchSize == |r.value.predictions| == |samples| == ran
      ensures r.Ok? ==> forall i :: 0 <= i < |samples| ==> Predict(samples[i]) == Ok(r.value.predictions[i])
      ensures model.Some? && |samples| <= MaxBatchSize && r.Err? ==>
        && r.failure == BatchPredictionFailed
        && 1 <= ran <= |samples|
        && Predict(samples[ran - 1]).Err?
        && forall i :: 0 <= i < ran - 1 ==> Predict(samples[i]).Ok?
    {
      if model.None? {
        return Err(ModelNotLoaded), 0;
      }
      if |samples| > MaxBatchSize {
        return Err(BatchTooLarge), 0;
      }
      var c := model.value;
      var predictions: seq<PredictionResponse> := [];
      var i := 0;
      while i < |samples|
        invariant 0 <= i <= |samples|
        invariant |predictions| == i
        invariant forall j :: 0 <= j < i ==> Infer(c, samples[j]) == Some(predictions[j])
      {
        var p := Infer(c, samples[i]);
        if p.None? {
          return Err(BatchPredictionFailed), i + 1;
        }
        predictions := predictions + [p.value];
        i := i + 1;
      }
      r := Ok(BatchPredictionResponse(predictions, |predictions|));
      ran := |samples|;
    }

    /**
     * The batch endpoint on a raw body: every sample is validated before
     * the handler runs, so one invalid sample makes the whole batch a 422,
     * ahead of the readiness and size checks.
     */
    method PredictBatchRequest(raws: seq<RawFeatures>) returns (r: Result<BatchPredictionResponse>)
      ensures ValidateBatch(raws).Err? <==> r == Err(ValidationFailed)
      ensures ValidateBatch(raws).Ok? && model.None? ==> r == Err(ModelNotLoaded)
      ensures ValidateBatch(raws).Ok? && model.Some? && |raws| > MaxBatchSize ==> r == Err(BatchTooLarge)
      ensures r.Ok? <==>
        && ValidateBatch(raws).Ok? && model.Some? && |raws| <= MaxBatchSize
        && forall i :: 0 <= i < |raws| ==> PredictRequest(raws[i]).Ok?
      ensures ValidateBatch(raws).Ok? && model.Some? && |raws| <= MaxBatchSize && r.Err? ==>
        r.failure == BatchPredictionFailed
      ensures r.Ok? ==> |r.value.predictions| == r.value.batchSize == |raws|
      ensures r.Ok? ==> forall i :: 0 <= i < |raws| ==> PredictRequest(raws[i]) == Ok(r.value.predictions[i])
    {
      match ValidateBatch(raws)
      case Err(e) =>
        r := Err(e);
      case Ok(samples) =>
        ghost var ran;
        r, ran := PredictBatch(samples);
    }

    /**
     * Start-up: take the model from the first path that exists and loads,
     * skipping paths that fail; only when none does, train a fresh one.
     * When training fails too, the model is left as it was.
     */
    method LoadModel(env: Environment) returns (outcome: LoadOutcome)
      modifies this
      ensures match FirstLoadable(env, ModelPaths)
        case Some(k) =>
          outcome == LoadedFrom(ModelPaths[k]) && model == env.loadArtifact(ModelPaths[k])
        case None =>
          if env.trained.Some? then outcome == Trained && model == env.trained
          else outcome == CouldNotLoadOrTrain && model == old(model)
      ensures outcome != CouldNotLoadOrTrain ==> model.Some?
    {
      var i := 0;
      while i < |ModelPaths|
        invariant 0 <= i <= |ModelPaths|
        invariant forall j :: 0 <= j < i ==> !Loadable(env, ModelPaths[j])
        invariant model == old(model)
      {
        var path := ModelPaths[i];
        if env.pathExists(path) {
          var loaded := env.loadArtifact(path);
          if loaded.Some? {
            model := loaded;
            return LoadedFrom(path);
          }
        }
        i := i + 1;
      }
      if env.trained.Some? {
        model := env.trained;
        outcome := Trained;
      } else {
        outcome := CouldNotLoadOrTrain;
      }
    }
  }
}
