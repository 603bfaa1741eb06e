/**
  The request normalisation shared by the two generation endpoints of the
  backend (`/api/submit` and `/api/stream_gpt`): the model named in the body
  is checked against an allow-list and silently replaced by the default when
  it is missing or not on the list, and a missing or empty prompt is rejected
  with status 400 before anything else happens.
 */
module Request {
  import opened Wrappers

  /** A field of the JSON request body, as `dict.get` hands it out. Only
      whether it is a string (and which) and its Python truthiness matter. */
  datatype JsonValue =
    | Absent                    // the key is not in the body
    | Str(s: string)            // a JSON string
    | NonString(truthy: bool)   // null, a number, a boolean, an array or an object

  /** Python truthiness of the value `dict.get` returns (`None` when absent). */
  predicate Truthy(v: JsonValue) {
    match v
    case Absent => false
    case Str(s) => s != ""
    case NonString(t) => t
  }

  const SupportedModels: seq<string> := ["llama3", "mistral", "gemma:2b"]
  const DefaultModel: string := "llama3"

  /** The field names a model on the allow-list. */
  predicate Supported(v: JsonValue) {
    v.Str? && v.s in SupportedModels
  }

  /** `data.get('model', DEFAULT_MODEL)` followed by the allow-list fallback:
      the result is always an allowed model; an allowed one is kept as it is
      and anything else (absent, not a string, unknown) becomes the default. */
  function NormaliseModel(v: JsonValue): (m: string)
    ensures m in SupportedModels
    ensures Supported(v) ==> m == v.s
    ensures !Supported(v) ==> m == DefaultModel
  {
    match v
    case Absent => DefaultModel
    case Str(s) => if s in SupportedModels then s else DefaultModel
    case NonString(_) => DefaultModel
  }

  /** Normalising an already normalised model changes nothing. */
  lemma NormaliseModelIdempotent(v: JsonValue)
    ensures NormaliseModel(Str(NormaliseModel(v))) == NormaliseModel(v)
  {
  }

  /** The JSON body of a generation request: its `text` and `model` fields. */
  datatype RequestBody = RequestBody(text: JsonValue, model: JsonValue)

  /** Which endpoint is validating: the two differ only in the message. */
  datatype Route = Submit | StreamGpt

  /** An early reply `jsonify({'error': message}), status`. */
  datatype Rejection = Rejection(status: int, message: string)

  /** A request that passed validation: the prompt as the body gave it and
      the normalised model. */
  datatype GenerationRequest = GenerationRequest(prompt: JsonValue, model: string)

  function MissingPromptMessage(route: Route): string {
    match route
    case Submit => "No text provided"
    case StreamGpt => "No prompt provided"
  }

  /** Normalise the model, then reject a falsy prompt with status 400. A
      request is rejected exactly when its prompt is missing or empty, and an
      accepted one carries the body's prompt and an allowed model. */
  function ParseRequest(body: RequestBody, route: Route): (r: Result<GenerationRequest, Rejection>)
    ensures r.Err? <==> !Truthy(body.text)
    ensures r.Err? ==> r.error == Rejection(400, MissingPromptMessage(route))
    ensures r.Ok? ==> r.value.prompt == body.text && Truthy(r.value.prompt)
    ensures r.Ok? ==> r.value.model == NormaliseModel(body.model) && r.value.model in SupportedModels
  {
    var model := NormaliseModel(body.model);
    if !Truthy(body.text) then
      Err(Rejection(400, MissingPromptMessage(route)))
    else
      Ok(GenerationRequest(body.text, model))
  }

  /** Both endpoints accept the same bodies and normalise them the same way.
      This holds by construction: the two handlers run the same validation
      (`backend/app.py:41-48` and `backend/app.py:75-82`), which
      `ParseRequest` models once, and differ only in the message. */
  lemma RoutesAgree(body: RequestBody)
    ensures ParseRequest(body, Submit).Ok? == ParseRequest(body, StreamGpt).Ok?
    ensures ParseRequest(body, Submit).Ok? ==> ParseRequest(body, Submit).value == ParseRequest(body, StreamGpt).value
  {
  }
}
