# app-service core, modelled in Dafny

A model of the server-side logic of the review-sentiment web app:

- **Telemetry endpoints** (`/api/metrics`): `user_visit` raises an active-users
  gauge, `user_leave` lowers it, and `record_feedback` increments a feedback
  counter cell labelled `(feedback, lowercase(sentiment))`. It does so only when
  both fields are present and non-empty. Each handler is a pure transition
  over `MetricsRoute.Telemetry`, which holds an `int` gauge and a
  `map<(string, string), nat>` counter. The transition returns the new state and
  the fixed `{"status": ...}` reply.
- **Prediction handler** (`ModelHandler`): the static model table, `load_model`
  (it raises `ModelNotFoundError` for unknown names) and `predict_with_model`.
  `predict_with_model` picks `"default"` when no model is named. It rejects a
  missing or empty `input` before the lookup, and it returns a canned result
  record. Raised exceptions are `Failure` values.
- **Prediction route** (`ModelRoute`): `predict` maps a falsy body to 400.
  It maps a raised exception or a falsy result to 500 with the message, and
  anything else to 200 `{"result": r}`. It is modelled once over an arbitrary
  handler (`Predict`) and once composed with the real one (`PredictRoute`).

Files: `wrappers.dfy` (Option/Result), `text.dfy` (ASCII lowering),
`request.dfy` (the decoded JSON body and Python truthiness),
`metrics_route.dfy`, `model_handler.dfy`, `model_route.dfy`.

A decoded body is `Option<map<string, string>>`. `None` stands for a body that
decodes to `null`. A body is falsy when it is `None` or `{}`, and a field is
falsy when it is absent or `""`.

A falsy body gets 400 "No input data provided"
(`app/routes/model_route.py:46-47`). A truthy body whose `input` is missing or
empty reaches the handler. The handler raises `ValueError`
(`app/models/model_handler.py:35-36`), and the route's catch-all `except` turns
it into 500 with that message (`app/routes/model_route.py:57-59`). See
`ModelRoute.MissingInputIsServerError`.

## Model

| member | source | states |
|---|---|---|
| Text.Lower | app/routes/metrics_route.py:25 | the lowered sentiment has the same length, lowers each position independently and contains no capital letter |
| Text.LowerEqualIffSameIgnoringCase | app/routes/metrics_route.py:25 | two sentiments lower to the same label if and only if they differ at most in the case of each letter |
| Text.LowerIdempotent | app/routes/metrics_route.py:25 | lowering an already-lowered label changes nothing |
| MetricsRoute.Inc | app/routes/metrics_route.py:23-26 | incrementing a labelled cell creates it if absent, raises it by exactly one and leaves every other cell unchanged |
| MetricsRoute.UserVisit | app/routes/metrics_route.py:6-9 | a visit raises the gauge by exactly one, leaves the feedback counter alone and replies `{"status": "success"}` |
| MetricsRoute.UserLeave | app/routes/metrics_route.py:11-14 | a leave lowers the gauge by exactly one with no floor, so it goes negative from zero; the counter is untouched and the reply is `{"status": "success"}` |
| MetricsRoute.RecordFeedback | app/routes/metrics_route.py:16-27 | with both fields non-empty exactly the cell `(feedback, lower(sentiment))` grows by one, is created if absent, and no other cell changes or appears; otherwise the counter is unchanged; the gauge never changes; the reply is `{"status": "feedback recorded"}` for every body |
| MetricsRoute.SentimentCaseInsensitive | app/routes/metrics_route.py:22-26 | sentiments that differ only in letter case give the same new state and reply |
| MetricsRoute.UnknownFallbackUnreachable | app/routes/metrics_route.py:22-25 | an `"unknown"` cell grows only when a non-empty sentiment that itself lowers to `"unknown"` was sent, so the fallback label is never used |
| MetricsRoute.VisitThenLeave | app/routes/metrics_route.py:6-14 | a visit followed by a leave restores the whole telemetry state |
| MetricsRoute.LeaveThenVisit | app/routes/metrics_route.py:6-14 | a leave followed by a visit restores the whole telemetry state |
| MetricsRoute.RunGauge | app/routes/metrics_route.py:6-14 | after any sequence of requests the gauge equals its start value plus the visits minus the leaves |
| MetricsRoute.RunCounter | app/routes/metrics_route.py:16-27 | after any sequence of requests each counter cell has grown by the number of accepted feedback bodies that name it |
| MetricsRoute.CounterMonotone | app/routes/metrics_route.py:22-26 | no sequence of requests decreases a feedback counter cell |
| ModelHandler.LoadModel | app/models/model_handler.py:9-21 | lookup succeeds exactly for `"default"` and yields version `"1.0.0"`; every other name raises not-found with message `Model '<name>' not found` |
| ModelHandler.Message | app/models/model_handler.py:18-36 | the not-found message carries the requested name, and a separate parser reads it back out; the input error's message is "No input provided for prediction" and parses as no name |
| ModelHandler.MessageInjective | app/models/model_handler.py:17-36 | different raised errors carry different messages |
| ModelHandler.ToRecord | app/models/model_handler.py:41-45 | the result dictionary has exactly the keys `model_used`, `model_version`, `prediction`, holding the model name used, the model's version and the prediction |
| ModelHandler.RecordRoundTrip | app/models/model_handler.py:41-45 | the result dictionary reads back as the same prediction, so no field is lost or swapped |
| ModelHandler.PredictWithModel | app/models/model_handler.py:23-48 | missing/empty input raises the input error whatever the model; with input present it succeeds exactly when the model name is `"default"`, else raises not-found for that name; a success reports the requested name, the loaded model's version and the canned prediction |
| ModelHandler.ModelName | app/models/model_handler.py:32 | the model name is the body's `model` field when present and `"default"` when absent |
| ModelHandler.AbsentModelMeansDefault | app/models/model_handler.py:32 | with no `model` field and a non-empty input the default model is used |
| ModelHandler.ValidationBeforeLookup | app/models/model_handler.py:34-38 | an unknown model name with a missing input raises the input error, not not-found |
| ModelHandler.PredictionIgnoresInput | app/models/model_handler.py:34-45 | any two non-empty inputs with the same model selection give the same result |
| ModelRoute.Respond | app/routes/model_route.py:52-59 | 200 exactly when the handler returned a non-empty record, wrapping that very record; a raised exception gives 500 with its message; an empty record gives 500 "No results returned" |
| ModelRoute.Predict | app/routes/model_route.py:43-59 | a falsy body gives 400 "No input data provided"; for a truthy body the status is 200 exactly when the handler returned a non-empty record, and the reply carries that very record; a raised exception gives 500 with its message; an empty record gives 500 "No results returned" |
| ModelRoute.FalsyBodySkipsHandler | app/routes/model_route.py:46-53 | on a falsy body the reply does not depend on the handler at all |
| ModelRoute.Handler | app/routes/model_route.py:50-53 | the handler outcome raises exactly when prediction fails, with the error's message, and otherwise returns the prediction record |
| ModelRoute.PredictRoute | app/routes/model_route.py:43-59 | the deployed endpoint answers 400 iff the body is falsy, 200 iff the body is truthy, the input non-empty and the model `"default"`, and 500 in every other case |
| ModelRoute.PredictRouteSuccess | app/routes/model_route.py:52-56 | a 200 reply wraps the requested model name, version `"1.0.0"` and the canned prediction |
| ModelRoute.MissingInputIsServerError | app/routes/model_route.py:46-59 | a non-empty body with missing or empty input gives 500 "No input provided for prediction", not 400 |
| ModelRoute.UnknownModelIsServerError | app/routes/model_route.py:52-59 | an unknown model with input present gives 500 with the not-found message naming it |
| ModelRoute.NoResultsUnreachable | app/routes/model_route.py:54-55 | composed with the real handler, the "No results returned" reply never occurs |

## Left out

- Text.Lower: lowers only ASCII `A`-`Z`. Python's `str.lower` also lowers other Unicode letters, and some of them change length. Unicode case tables are not modelled.
- Concurrency and the metrics library: atomic updates, registry internals and the text exposition format are not modelled. Only the effect "add one" / "subtract one" on the gauge and the counter cell is.
- `current_users_gauge` and `user_feedback_counter` are imported from `app/__init__.py`, which does not define them. They are modelled as the abstract state `MetricsRoute.Telemetry`.
- MetricsRoute.UserVisit / MetricsRoute.UserLeave: these assume `current_users_gauge` is declared without labels, as the bare `.inc()` and `.dec()` calls at `app/routes/metrics_route.py:8` and `:13` require. `app/routes/main_route.py:13` calls `.labels(version=...)` on the same object. In prometheus_client, a gauge declared with a `version` label raises `ValueError` on a bare `inc`/`dec`, so the call would end in a Flask 500 with the gauge unchanged. A gauge declared without labels raises on `.labels(...)` instead. One of the two call sites therefore fails, whichever way the gauge is declared. The model describes the unlabelled declaration.
- The application factory registers only `main_bp` and `model_bp` (`app/__init__.py:29-31`), so it never mounts the metrics endpoints. They are modelled as if mounted.
- Request decoding: `Body` maps strings to strings, so field values that are not strings and bodies that are not JSON objects are outside the model. Flask's content-type handling in `request.get_json()` is not modelled either. In Python these inputs behave as follows:
  - A `null` `feedback`, `sentiment` or `input` field reads like an absent one. The feedback is ignored, and a `null` input gives 500 "No input provided for prediction".
  - `{"model": null, "input": "x"}` gives 500 "Model 'None' not found", whereas an absent `model` means `"default"`. The model cannot represent this case.
  - A truthy non-string `input` (for example `5`) counts as present. It gives 200 when `model` is absent or `"default"`, and 500 "Model '<name>' not found" otherwise.
  - A truthy non-string `sentiment` raises on `.lower()` in `record_feedback` when `feedback` is also truthy, so Flask answers with its own error response. With a falsy `feedback` the guard fails first and the body is silently ignored.
  - A truthy non-object body such as `[1]` raises `AttributeError` inside the route's `try` and gets 500 with that message.
  - In `record_feedback`, a body that decodes to `null` raises on `data.get` outside any `try`, so Flask answers with its own error response. The model's feedback handler takes an object body only.
- Logging through `current_app.logger` is an effect with no observable result here. It is not modelled, and neither is a failure inside the logger.
- JSON serialisation by `jsonify` is not modelled. Replies are datatypes holding the same fields.
- `app/routes/main_route.py`: template rendering and the external `VersionUtil` library. Its `index` route increments the same `current_users_gauge` with a `version` label (see the `MetricsRoute.UserVisit` line above). It imports `get_version_number` from `app/routes/metrics_route.py`, which does not define it.
- `app/__init__.py`, `config.py`, `run.py`, `app/routes/__init__.py`: reading the environment and the VERSION file, app factory wiring and process start-up are I/O.
- `app/static/js/script.js`: browser-side code that only issues the requests.
