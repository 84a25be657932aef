# Crop recommender: request-to-response model

A Dafny model of the crop recommender web service in `app.py`. The service
takes seven soil and climate measurements (nitrogen, phosphorus, potassium,
temperature, humidity, pH, rainfall). It rescales them with a fitted min-max
scaler and then a fitted standard scaler. A fitted classifier maps the result
to a class label, and the label is looked up in a 22-entry crop table. Two
endpoints expose this:

- `POST /predict` (`predict_web`) reads HTML form fields. It always answers
  with status 200 and a page that shows either
  `"<Crop> is the best crop to be cultivated right there"` or
  `"Error in prediction: <message>"`.
- `POST /api/predict` (`api_predict`) reads a JSON object. It answers
  `{"recommended_crop": <Crop>}` with status 200 or `{"error": <message>}`
  with status 500.

The fitted artifacts are opaque, so the model takes them as parameters. An
`Artifacts` value holds the two transforms and the classifier as function
values, and each one returns a value or the text of the exception it raised.
Python's `float()` on text is the parameter `parseText: string -> Option<real>`.
Each handler takes a parameter `describe`. It gives the text of the exceptions
that Python and the web framework raise themselves. `describe` receives the
caught exception with the data its text depends on:

- a missing key gives the key;
- a rejected field gives the key and the rejected value;
- a JSON body that is not an object gives that body.

Modules:

- `Wrappers`: `Option` and `Result`.
- `Crops`: the label table, and the lookup that falls back to `"Unknown Crop"`.
- `Features`: the seven features, their order, the field names each handler
  uses, and extraction that stops at the first unreadable field.
- `Pipeline`: the artifacts and `Infer`, which runs min-max scaling, then
  standard scaling, then classification, and takes the first label.
- `Handlers`: JSON values, `float()` on them, the caught exception and its
  text, the shared `Recommend` step, and the two handlers with their
  response shapes.

The source writes the field list, the scaler calls and the crop table twice,
once per handler. The model defines each once and passes in the handler's key
names and value conversion. `HandlersAgree` proves that the two handlers
report the same outcome for the same measurements.

Two points where the code is broader than a plain reading of the service:

- A class label is meant to lie in 1..22, but the code passes any classifier
  output to the lookup. So `Infer` returns any `int`, and `Resolve` handles
  all of them.
- The JSON handler can fail in more ways than a missing or non-numeric field.
  Reading the request as JSON can raise, and a body that is not an object
  cannot be indexed by key. The same `except` catches both. They are modelled
  as `BodyUnreadable` and `BodyNotObject`.

## Model

| member | source | states |
|---|---|---|
| Crops.Resolve | app.py:36-43 | Defined for every integer. The result is a table name or the sentinel. It is the sentinel exactly when the label is outside 1..22, and otherwise it is that label's table entry |
| Crops.SentinelNotInTable | app.py:36-43 | "Unknown Crop" is not one of the 22 table names |
| Crops.ResolveInjective | app.py:36-41 | Two different labels in 1..22 resolve to different crop names |
| Crops.ResolveDetermines | app.py:36-43 | Two labels that resolve to the same name are equal, or both lie outside the table |
| Features.ExtractFrom | app.py:21-27 | Fields are read in the given order. The result is a success exactly when every field is present and parses. A success has one value per field, and each value is that field's parsed value. A failure reports the first unreadable field: a missing key or an unparsable value |
| Features.Extract | app.py:21-29 | Reads the seven measurements in the order N, P, K, temperature, humidity, pH, rainfall. Each vector position holds its own field's value. A failure names the first unreadable field in that order |
| Features.FormKey | app.py:21-27 | Every form field name is a capital letter followed by lower-case letters. The names are case-sensitive |
| Features.JsonKey | app.py:56-62 | Every JSON key is a non-empty string of lower-case letters |
| Features.KeyListsInOrder | app.py:21-27 | The i-th name in each list of seven names is the key of the i-th feature in reading order |
| Features.ErrorFor | app.py:21-27 | A field error always names its key. It is a missing-key error exactly when the key is absent. Otherwise it carries the value that `float()` rejected |
| Features.KeysDistinct | app.py:21-27 | No two features share a field name, in either handler |
| Features.JsonKeyIsLowerFormKey | app.py:56-62 | Each JSON key is the lower-cased form field name, with one exception: phosphorus, whose form field is spelt "Phosporus" |
| Pipeline.Row | app.py:30 | `reshape(1, -1)`: one row that holds the whole vector, in order |
| Pipeline.Infer | app.py:30-34 | The classifier sees the standard scaling of the min-max scaling of the one-row matrix, never the reverse. The label is the first element of its output. Whichever of the three stages raises first gives the error, tagged with that stage. An empty output gives `NoLabel` |
| Pipeline.InferDependsOnlyOnComposition | app.py:32-34 | The outcome depends on the artifacts only through those three calls, made in that order |
| Pipeline.ScalerOrderMatters | app.py:32-33 | Some artifacts and measurements give a different outcome when the two scalers are swapped. So the order can be observed. Which order is used is stated by `Pipeline.Infer` |
| Handlers.JsonFloat | app.py:56-62 | `float()` of a JSON value. A number is kept. A boolean becomes 1 or 0. A string goes through the text parser. Null, lists and objects are rejected |
| Handlers.ExceptionText | app.py:45-46 | For a pipeline stage's exception, `str(e)` is that stage's own text. For any other exception, it is `describe` applied to the caught exception and the data that exception carries |
| Handlers.Recommend | app.py:21-43 | An extraction failure becomes the handler's failure, and so does an inference failure. If the classifier labels the vector n, the result is `Resolve(n)`. A success always names a crop or the sentinel |
| Handlers.Sentence | app.py:44 | The crop name followed by " is the best crop to be cultivated right there". Reading the crop back from the sentence gives the same crop |
| Handlers.PredictWeb | app.py:18-48 | The status is always 200. On success the page sentence names exactly the recommended crop. On failure it reads "Error in prediction: " followed by the exception text |
| Handlers.JsonFields | app.py:54-56 | Fields can be read from the body exactly when it is a JSON object, and then they are that object's members. A body that cannot be read is `BodyUnreadable`. Any other body is `BodyNotObject`, which carries the body |
| Handlers.ApiPredict | app.py:51-82 | The status is 200 or 500. With 200 the body's only key is `recommended_crop` and its value is a crop name. With 500 the body's only key is `error` |
| Handlers.CropInitialNotE | app.py:36-43 | Every name the lookup can return is non-empty and does not start with 'E' |
| Handlers.SentenceIsNotError | app.py:44-46 | A success sentence never starts with the error prefix |
| Handlers.FormOutcomeVisible | app.py:20-48 | The page has status 200 either way. It starts with "Error in prediction: " exactly when some step failed |
| Handlers.FormReportsFirstBadField | app.py:20-46 | If field i is the first field in reading order that is missing or unparsable, the page shows that field's error. The error carries the field's key, and its rejected value if there is one. Nothing from a later field appears |
| Handlers.FormMissingFieldIsError | app.py:20-48 | A form that lacks any of the seven fields gets the error page, still with status 200 |
| Handlers.FormFieldsAsWritten | app.py:21-29 | The vector is read from the form fields "Nitrogen", "Phosporus", "Potassium", "Temperature", "Humidity", "Ph", "Rainfall", in that order |
| Handlers.ApiOutcome | app.py:53-82 | The reply is `{recommended_crop: crop}` with status 200 exactly when the body is an object and every step succeeded. Otherwise it is `{error: text}` with status 500, and the text is the caught exception's. The two keys never appear together |
| Handlers.ApiBadFieldIsError | app.py:53-82 | A JSON object with a missing or non-numeric field gets status 500 and only the `error` key |
| Handlers.JsonFieldsAsWritten | app.py:56-64 | The vector is read from the JSON keys "nitrogen", "phosphorus", "potassium", "temperature", "humidity", "ph", "rainfall", in that order |
| Handlers.RecommendDependsOnVector | app.py:32-43 | Once the fields are read, two requests with the same vector get the same crop, or fail in inference with the same error |
| Handlers.HandlersAgree | app.py:64-82 | Take two requests, one per handler, that read to the same measurements. The form page shows a crop's sentence exactly when the JSON reply recommends that crop. The page shows the error prefix exactly when the reply has status 500. When a pipeline stage raised, the page and the reply show that stage's text |
| Handlers.SentenceInjective | app.py:44 | Two success sentences are equal only if they name the same crop |

## Left out

- Loading the three pickled artifacts at start-up (app.py:7-9). This is file I/O and deserialisation. The artifacts are the `Artifacts` parameter.
- The arithmetic inside the min-max scaler, the standard scaler and the classifier. These are floating-point library internals. Only their call order and their failures are modelled.
- Measurements are reals, not IEEE doubles. NaN, infinities and overflow in `float()` are not modelled.
- Python's text parsing in `float()` and the wording of exception messages are opaque parameters (`parseText`, `describe`).
- The classifier's output is a sequence of `int`. An output of another type, such as a float or a string label, is not modelled.
- A form field that is sent more than once is not modelled. The form is a map from field name to one string.
- Routing, `render_template`, `jsonify`, CORS, the index page and server start-up (app.py:11-16, 85-86). These are HTTP and UI plumbing. A rendered page is its status plus its result string, and a JSON reply is its status plus a string-valued object.
- Handlers.ExceptionText: the text for a request that cannot be read as JSON depends on the raw request (content type, malformed text). The model does not carry the raw request, so `describe` sees only `BodyUnreadable`.
- Handlers.HandlersAgree: it does not claim equal texts when the classifier returns no label. The `IndexError` text comes from each handler's own `describe`, and the model does not tie the two together.
