/** POST /api/models/predict: maps the decoded body and the handler's
    outcome to an HTTP status and a JSON reply. */
module ModelRoute {
  import opened Wrappers
  import opened Request
  import opened ModelHandler

  /** A dictionary returned by the handler; `{}` is falsy. */
  type Record = map<string, string>

  /** What calling the handler did: raised an exception with message
      `str(e)`, or returned a record. */
  datatype Outcome = Raised(message: string) | Returned(result: Record)

  /** `{"result": result}` or `{"error": error}`. */
  datatype Payload = ResultPayload(result: Record) | ErrorPayload(error: string)

  datatype Reply = Reply(status: nat, payload: Payload)

  const NoInputData := "No input data provided"
  const NoResults := "No results returned"

  /** The `try` block: a falsy record is turned into a raised `ValueError`,
      and every raised exception into a 500 carrying its message. */
  function Respond(outcome: Outcome): (r: Reply)
    ensures r.status == 200 <==> outcome.Returned? && outcome.result != map[]
    ensures r.status == 200 ==> r.payload == ResultPayload(outcome.result)
    ensures r.status != 200 ==> r.status == 500 && r.payload.ErrorPayload?
    ensures outcome.Raised? ==> r.payload.error == outcome.message
    ensures outcome == Returned(map[]) ==> r.payload.error == NoResults
  {
    var message :=
      match outcome
      case Raised(m) => Some(m)
      case Returned(result) => if result == map[] then Some(NoResults) else None;
    if message.Some? then Reply(500, ErrorPayload(message.value))
    else Reply(200, ResultPayload(outcome.result))
  }

  /** `predict()` with the handler passed in. A falsy body is rejected before
      the handler is reached. */
  function Predict(data: Option<Body>, handler: Body -> Outcome): (r: Reply)
    ensures !BodyTruthy(data) ==> r == Reply(400, ErrorPayload(NoInputData))
    ensures BodyTruthy(data) ==> r.status in {200, 500}
    ensures BodyTruthy(data) && r.status == 200 ==>
              r.payload.ResultPayload? && handler(data.value) == Returned(r.payload.result)
    ensures BodyTruthy(data) && handler(data.value).Raised? ==>
              r == Reply(500, ErrorPayload(handler(data.value).message))
    ensures BodyTruthy(data) ==>
              (r.status == 200 <==> handler(data.value).Returned? && handler(data.value).result != map[])
    ensures BodyTruthy(data) && handler(data.value) == Returned(map[]) ==>
              r == Reply(500, ErrorPayload(NoResults))
  {
    if !BodyTruthy(data) then Reply(400, ErrorPayload(NoInputData))
    else Respond(handler(data.value))
  }

  /** The handler is not invoked on a falsy body: no handler can change the reply. */
  lemma FalsyBodySkipsHandler(data: Option<Body>, h1: Body -> Outcome, h2: Body -> Outcome)
    requires !BodyTruthy(data)
    ensures Predict(data, h1) == Predict(data, h2)
  {
  }

  /** `predict_with_model` seen from the route. */
  function Handler(data: Body): (o: Outcome)
    ensures o.Raised? <==> PredictWithModel(data).Failure?
    ensures o.Raised? ==> o.message == Message(PredictWithModel(data).error)
    ensures o.Returned? ==> o.result == ToRecord(PredictWithModel(data).value)
  {
    match PredictWithModel(data)
    case Success(p) => Returned(ToRecord(p))
    case Failure(e) => Raised(Message(e))
  }

  /** The endpoint as deployed: `predict()` composed with the real handler.
      400 exactly for a falsy body, 200 exactly for a truthy body with input
      and the default model, 500 in every other case. */
  function PredictRoute(data: Option<Body>): (r: Reply)
    ensures r.status == 400 <==> !BodyTruthy(data)
    ensures r.status == 200 <==>
              BodyTruthy(data) && Truthy(Get(data.value, "input")) && ModelName(data.value) == DefaultModel
    ensures r.status == 500 <==>
              BodyTruthy(data) && (!Truthy(Get(data.value, "input")) || ModelName(data.value) != DefaultModel)
  {
    Predict(data, Handler)
  }

  /** A successful reply wraps exactly the handler's record: the requested
      model, its version and the canned prediction. */
  lemma PredictRouteSuccess(data: Option<Body>)
    requires PredictRoute(data).status == 200
    ensures PredictRoute(data).payload
            == ResultPayload(map["model_used" := ModelName(data.value),
                                 "model_version" := DefaultVersion,
                                 "prediction" := CannedPrediction])
  {
  }

  /** A non-empty body without input is a server error (500), not a bad
      request (400), with the handler's validation message. */
  lemma MissingInputIsServerError(data: Option<Body>)
    requires BodyTruthy(data)
    requires !Truthy(Get(data.value, "input"))
    ensures PredictRoute(data) == Reply(500, ErrorPayload(MissingInputMessage))
  {
  }

  /** An unknown model gives 500 with the not-found message naming it. */
  lemma UnknownModelIsServerError(data: Option<Body>)
    requires BodyTruthy(data)
    requires Truthy(Get(data.value, "input"))
    requires ModelName(data.value) != DefaultModel
    ensures PredictRoute(data) == Reply(500, ErrorPayload(Message(ModelNotFound(ModelName(data.value)))))
  {
  }

  /** The deployed handler never returns a falsy record, so the
      "No results returned" reply cannot occur. */
  lemma NoResultsUnreachable(data: Option<Body>)
    ensures PredictRoute(data).payload != ErrorPayload(NoResults)
  {
    // A success record always has three keys, and the two error messages
    // parse differently from "No results returned" (see `Message`).
  }
}
