/** The prediction handler: a static table of models, a lookup that raises
    `ModelNotFoundError` for unknown names, and `predict_with_model`, which
    validates the input before it looks the model up and returns a canned
    result record. Raised exceptions are `Failure` values. */
module ModelHandler {
  import opened Wrappers
  import opened Request

  datatype ModelInfo = ModelInfo(kind: string, version: string)

  const DefaultModel := "default"
  const DefaultVersion := "1.0.0"
  const CannedPrediction := "Example prediction result"

  /** The model table: one entry, "default". */
  function Models(): map<string, ModelInfo> {
    map[DefaultModel := ModelInfo("example", DefaultVersion)]
  }

  /** `ModelNotFoundError(name)` and the `ValueError` raised for missing input. */
  datatype HandlerError = ModelNotFound(name: string) | MissingInput

  const NotFoundPrefix := "Model '"
  const NotFoundSuffix := "' not found"
  const MissingInputMessage := "No input provided for prediction"

  /** `str(e)` of the raised exception. The not-found message carries the
      requested name, recoverably; the input error's message is fixed. */
  function Message(e: HandlerError): (r: string)
    ensures NotFoundName(r) == (if e.ModelNotFound? then Some(e.name) else None)
    ensures e.MissingInput? ==> r == MissingInputMessage
  {
    match e
    case ModelNotFound(name) =>
      var msg := NotFoundPrefix + name + NotFoundSuffix;
      assert msg[..|NotFoundPrefix|] == NotFoundPrefix;
      assert msg[|msg| - |NotFoundSuffix|..] == NotFoundSuffix;
      assert msg[|NotFoundPrefix|..|msg| - |NotFoundSuffix|] == name;
      msg
    case MissingInput =>
      assert MissingInputMessage[..|NotFoundPrefix|] != NotFoundPrefix by {
        assert MissingInputMessage[0] == 'N';
      }
      MissingInputMessage
  }

  /** Reads the model name back out of a "Model '<name>' not found" message. */
  function NotFoundName(msg: string): Option<string> {
    if |NotFoundPrefix| + |NotFoundSuffix| <= |msg|
       && msg[..|NotFoundPrefix|] == NotFoundPrefix
       && msg[|msg| - |NotFoundSuffix|..] == NotFoundSuffix
    then Some(msg[|NotFoundPrefix|..|msg| - |NotFoundSuffix|])
    else None
  }

  /** Distinct errors give distinct messages, so a caller who sees only
      the message can tell which error was raised. */
  lemma MessageInjective(e1: HandlerError, e2: HandlerError)
    ensures Message(e1) == Message(e2) ==> e1 == e2
  {
  }

  /** `load_model(name)`. */
  function LoadModel(name: string): (r: Result<ModelInfo, HandlerError>)
    ensures r.Success? <==> name == DefaultModel
    ensures r.Success? ==> r.value.version == DefaultVersion
    ensures r.Failure? ==> Message(r.error) == NotFoundPrefix + name + NotFoundSuffix
  {
    if name !in Models() then Failure(ModelNotFound(name)) else Success(Models()[name])
  }

  /** The result record of a successful prediction. */
  datatype Prediction = Prediction(modelUsed: string, modelVersion: string, prediction: string)

  /** The record as the dictionary the handler returns. */
  function ToRecord(p: Prediction): (r: map<string, string>)
    ensures r.Keys == {"model_used", "model_version", "prediction"}
    ensures r["model_used"] == p.modelUsed
    ensures r["model_version"] == p.modelVersion
    ensures r["prediction"] == p.prediction
  {
    map["model_used" := p.modelUsed, "model_version" := p.modelVersion, "prediction" := p.prediction]
  }

  /** Reads a result dictionary back as a prediction, when it has the three keys. */
  function FromRecord(r: map<string, string>): Option<Prediction> {
    if "model_used" in r && "model_version" in r && "prediction" in r
    then Some(Prediction(r["model_used"], r["model_version"], r["prediction"]))
    else None
  }

  /** The result dictionary loses nothing: it reads back as the same prediction. */
  lemma RecordRoundTrip(p: Prediction)
    ensures FromRecord(ToRecord(p)) == Some(p)
  {
  }

  /** `data.get("model", "default")`: the named model, "default" when unnamed. */
  function ModelName(data: Body): (r: string)
    ensures "model" in data ==> r == data["model"]
    ensures "model" !in data ==> r == DefaultModel
  {
    Get(data, "model").GetOr(DefaultModel)
  }

  /** `predict_with_model(data)`. */
  function PredictWithModel(data: Body): (r: Result<Prediction, HandlerError>)
    ensures r == Failure(MissingInput) <==> !Truthy(Get(data, "input"))
    ensures r.Success? <==> Truthy(Get(data, "input")) && ModelName(data) == DefaultModel
    ensures Truthy(Get(data, "input")) && r.Failure? ==> r.error == ModelNotFound(ModelName(data))
    ensures r.Success? ==>
              && r.value.modelUsed == ModelName(data)
              && LoadModel(ModelName(data)) == Success(ModelInfo("example", r.value.modelVersion))
              && r.value.prediction == CannedPrediction
  {
    var modelName := ModelName(data);
    var input := Get(data, "input");
    if !Truthy(input) then Failure(MissingInput)
    else
      var model :- LoadModel(modelName);
      Success(Prediction(modelName, model.version, CannedPrediction))
  }

  /** With no "model" field the default model is used. */
  lemma AbsentModelMeansDefault(data: Body)
    requires "model" !in data
    requires Truthy(Get(data, "input"))
    ensures PredictWithModel(data) == Success(Prediction(DefaultModel, DefaultVersion, CannedPrediction))
  {
  }

  /** Validation precedes lookup: a missing input is reported even when the
      model name is unknown. */
  lemma ValidationBeforeLookup(data: Body)
    requires LoadModel(ModelName(data)).Failure?
    requires !Truthy(Get(data, "input"))
    ensures PredictWithModel(data) == Failure(MissingInput)
  {
  }

  /** The result does not depend on the input text, only on its presence. */
  lemma PredictionIgnoresInput(d1: Body, d2: Body)
    requires Get(d1, "model") == Get(d2, "model")
    requires Truthy(Get(d1, "input")) && Truthy(Get(d2, "input"))
    ensures PredictWithModel(d1) == PredictWithModel(d2)
  {
  }
}
