/** The request pipeline of the Lambda handler: extract the warp details,
    preprocess, resolve the endpoint, invoke the inference service, decode its
    reply and postprocess, with one error boundary around all of it.

    The two external collaborators are parameters: `loads` and `dumps` stand
    for json.loads and json.dumps, and `invoke` for the runtime client's
    invoke_endpoint call followed by reading and UTF-8 decoding its body. */
module LambdaFunction {
  import opened Wrappers
  import opened JsonValues

  /** The model artifact every request asks for. */
  const TargetModel: string := "face88.tar.gz"

  /** The content type of the outbound request and of both response envelopes. */
  const ContentType: string := "application/json"

  /** The one message the handler raises itself. */
  const EndpointRequired: string := "SageMaker endpoint name is required"

  /** What json.loads does with a string: a value, a JSONDecodeError (the one
      exception the reply decoding catches), or any other exception. */
  datatype LoadOutcome =
    | Loaded(value: Json)
    | JsonDecodeError(message: string)
    | LoadFailed(message: string)

  /** The arguments of the outbound invoke_endpoint call. */
  datatype Invocation = Invocation(
    endpointName: Json,
    targetModel: string,
    contentType: string,
    body: string)

  /** The outcome of the outbound call: the reply body as text, or the
      message of the exception the client raised. */
  datatype InvokeOutcome = Replied(text: string) | Raised(message: string)

  /** The dict the handler returns to the Lambda runtime. */
  datatype Response = Response(
    statusCode: int,
    body: string,
    headers: map<string, string>)

  /** The headers of both envelopes. */
  const JsonHeaders: map<string, string> := map["Content-Type" := ContentType]

  /** get_warp_details: copy warp_id and timestamp (None when absent) and
      parameters (an empty dict when absent). */
  function GetWarpDetails(input: map<string, Json>): (r: map<string, Json>)
    ensures r.Keys == {"warp_id", "timestamp", "parameters"}
    ensures "warp_id" in input ==> r["warp_id"] == input["warp_id"]
    ensures "warp_id" !in input ==> r["warp_id"] == Null
    ensures "timestamp" in input ==> r["timestamp"] == input["timestamp"]
    ensures "timestamp" !in input ==> r["timestamp"] == Null
    ensures "parameters" in input ==> r["parameters"] == input["parameters"]
    ensures "parameters" !in input ==> r["parameters"] == EmptyObject
  {
    map[
      "warp_id" := Get(input, "warp_id", Null),
      "timestamp" := Get(input, "timestamp", Null),
      "parameters" := Get(input, "parameters", EmptyObject)
    ]
  }

  /** preprocess: the input's data (an empty dict when absent) as the cleaned
      payload, and metadata carrying the warp details' identity. The warp
      details are subscripted, so both keys must be there. */
  function Preprocess(input: map<string, Json>, warpDetails: map<string, Json>): (r: map<string, Json>)
    requires "warp_id" in warpDetails && "timestamp" in warpDetails
    ensures r.Keys == {"cleaned_data", "metadata"}
    ensures "data" in input ==> r["cleaned_data"] == input["data"]
    ensures "data" !in input ==> r["cleaned_data"] == EmptyObject
    ensures r["metadata"].Obj?
    ensures r["metadata"].fields.Keys == {"warp_id", "timestamp", "preprocessing_completed"}
    ensures r["metadata"].fields["warp_id"] == warpDetails["warp_id"]
    ensures r["metadata"].fields["timestamp"] == warpDetails["timestamp"]
    ensures r["metadata"].fields["preprocessing_completed"] == Bool(true)
  {
    map[
      "cleaned_data" := Get(input, "data", EmptyObject),
      "metadata" := Obj(map[
        "warp_id" := warpDetails["warp_id"],
        "timestamp" := warpDetails["timestamp"],
        "preprocessing_completed" := Bool(true)
      ])
    ]
  }

  /** os.environ.get('SAGEMAKER_ENDPOINT_NAME'): None when the variable is unset. */
  function EnvironmentValue(envDefault: Option<string>): (r: Json)
    ensures envDefault.None? ==> r == Null
    ensures envDefault.Some? ==> r == Str(envDefault.value)
  {
    match envDefault
    case None => Null
    case Some(name) => Str(name)
  }

  /** The endpoint name: the body's endpoint_name whenever the key is present,
      even when its value is falsy; the environment default only when the key
      is absent. */
  function ResolveEndpoint(input: map<string, Json>, envDefault: Option<string>): (r: Json)
    ensures "endpoint_name" in input ==> r == input["endpoint_name"]
    ensures "endpoint_name" !in input && envDefault.None? ==> r == Null
    ensures "endpoint_name" !in input && envDefault.Some? ==> r == Str(envDefault.value)
  {
    Get(input, "endpoint_name", EnvironmentValue(envDefault))
  }

  /** The event's body, defaulting to the text "{}" only when the key is absent. */
  function EventBody(event: map<string, Json>): (r: Json)
    ensures "body" in event ==> r == event["body"]
    ensures "body" !in event ==> r == Str("{}")
  {
    Get(event, "body", Str("{}"))
  }

  /** The message of the TypeError json.loads raises for a non-string argument. */
  function LoadsTypeError(v: Json): string
  {
    "the JSON object must be str, bytes or bytearray, not " + TypeName(v)
  }

  /** The message of the AttributeError raised by calling .get on a non-dict. */
  function NoGetAttribute(v: Json): string
  {
    "'" + TypeName(v) + "' object has no attribute 'get'"
  }

  /** The first step of the try block: json.loads of the body, which must then
      be a dict for the .get calls that follow. */
  function LoadInput(event: map<string, Json>, loads: string -> LoadOutcome): (r: Result<map<string, Json>>)
    ensures r.Ok? ==> EventBody(event).Str? && loads(EventBody(event).s) == Loaded(Obj(r.value))
    ensures !EventBody(event).Str? ==> r == Err(LoadsTypeError(EventBody(event)))
    ensures EventBody(event).Str? && !loads(EventBody(event).s).Loaded? ==>
      r == Err(loads(EventBody(event).s).message)
    ensures EventBody(event).Str? && loads(EventBody(event).s).Loaded? ==>
      var value := loads(EventBody(event).s).value;
      r == if value.Obj? then Ok(value.fields) else Err(NoGetAttribute(value))
  {
    match EventBody(event)
    case Str(text) =>
      (match loads(text)
       case Loaded(Obj(input)) => Ok(input)
       case Loaded(other) => Err(NoGetAttribute(other))
       case JsonDecodeError(message) => Err(message)
       case LoadFailed(message) => Err(message))
    case other => Err(LoadsTypeError(other))
  }

  /** The inner try: the parsed reply, or the raw text when json.loads raises
      JSONDecodeError. Any other exception from json.loads is not caught here. */
  function DecodeReply(text: string, loads: string -> LoadOutcome): (r: Result<Json>)
    ensures loads(text).Loaded? ==> r == Ok(loads(text).value)
    ensures loads(text).JsonDecodeError? ==> r == Ok(Str(text))
    ensures loads(text).LoadFailed? ==> r == Err(loads(text).message)
  {
    match loads(text)
    case Loaded(value) => Ok(value)
    case JsonDecodeError(_) => Ok(Str(text))
    case LoadFailed(message) => Err(message)
  }

  /** The dict built after the call: the decoded reply, the preprocessing
      metadata and where the request went. */
  function ProcessedData(modelOutput: Json, preprocessed: map<string, Json>, endpointName: Json): (r: map<string, Json>)
    ensures r.Keys == {"sagemaker_response", "metadata", "endpoint_info"}
    ensures r["sagemaker_response"] == modelOutput
    ensures "metadata" in preprocessed ==> r["metadata"] == preprocessed["metadata"]
    ensures "metadata" !in preprocessed ==> r["metadata"] == EmptyObject
    ensures r["endpoint_info"].Obj? && r["endpoint_info"].fields.Keys == {"endpoint_name", "target_model"}
    ensures r["endpoint_info"].fields["endpoint_name"] == endpointName
    ensures r["endpoint_info"].fields["target_model"] == Str("face88.tar.gz")
  {
    map[
      "sagemaker_response" := modelOutput,
      "metadata" := Get(preprocessed, "metadata", EmptyObject),
      "endpoint_info" := Obj(map[
        "endpoint_name" := endpointName,
        "target_model" := Str(TargetModel)
      ])
    ]
  }

  /** The fixed success marker. */
  const Summary: Json := Obj(map[
    "status" := Str("success"),
    "postprocessing_completed" := Bool(true)
  ])

  /** postprocess: copy the reply, the metadata and the endpoint info (each an
      empty dict when missing) and stamp the success marker, whatever the
      reply holds. */
  function Postprocess(processed: map<string, Json>): (r: map<string, Json>)
    ensures r.Keys == {"results", "metadata", "endpoint_info", "summary"}
    ensures "sagemaker_response" in processed ==> r["results"] == processed["sagemaker_response"]
    ensures "sagemaker_response" !in processed ==> r["results"] == EmptyObject
    ensures "metadata" in processed ==> r["metadata"] == processed["metadata"]
    ensures "metadata" !in processed ==> r["metadata"] == EmptyObject
    ensures "endpoint_info" in processed ==> r["endpoint_info"] == processed["endpoint_info"]
    ensures "endpoint_info" !in processed ==> r["endpoint_info"] == EmptyObject
    ensures r["summary"].Obj? && r["summary"].fields.Keys == {"status", "postprocessing_completed"}
    ensures r["summary"].fields["status"] == Str("success")
    ensures r["summary"].fields["postprocessing_completed"] == Bool(true)
  {
    map[
      "results" := Get(processed, "sagemaker_response", EmptyObject),
      "metadata" := Get(processed, "metadata", EmptyObject),
      "endpoint_info" := Get(processed, "endpoint_info", EmptyObject),
      "summary" := Summary
    ]
  }

  /** The try block after json.loads, given the parsed input dict: extract,
      preprocess, check the endpoint name, call, decode and postprocess. */
  function HandleInput(
    input: map<string, Json>,
    envDefault: Option<string>,
    loads: string -> LoadOutcome,
    dumps: Json -> string,
    invoke: Invocation -> InvokeOutcome
  ): (r: Result<map<string, Json>>)
    ensures !Truthy(ResolveEndpoint(input, envDefault)) ==> r == Err(EndpointRequired)
    ensures Truthy(ResolveEndpoint(input, envDefault)) ==>
      var outcome := invoke(Invocation(
        ResolveEndpoint(input, envDefault), "face88.tar.gz", "application/json",
        dumps(if "data" in input then input["data"] else EmptyObject)));
      && (outcome.Raised? ==> r == Err(outcome.message))
      && (outcome.Replied? && loads(outcome.text).LoadFailed? ==> r == Err(loads(outcome.text).message))
      && (outcome.Replied? && !loads(outcome.text).LoadFailed? ==>
            r.Ok?
            && r.value.Keys == {"results", "metadata", "endpoint_info", "summary"}
            && r.value["results"] == (if loads(outcome.text).Loaded? then loads(outcome.text).value else Str(outcome.text))
            && r.value["metadata"] == Obj(map[
                 "warp_id" := if "warp_id" in input then input["warp_id"] else Null,
                 "timestamp" := if "timestamp" in input then input["timestamp"] else Null,
                 "preprocessing_completed" := Bool(true)])
            && r.value["endpoint_info"] == Obj(map[
                 "endpoint_name" := ResolveEndpoint(input, envDefault),
                 "target_model" := Str("face88.tar.gz")])
            && r.value["summary"] == Obj(map[
                 "status" := Str("success"),
                 "postprocessing_completed" := Bool(true)]))
  {
    var warpDetails := GetWarpDetails(input);
    var preprocessed := Preprocess(input, warpDetails);
    var endpointName := ResolveEndpoint(input, envDefault);
    if !Truthy(endpointName) then Err(EndpointRequired)
    else
      var payload := Get(preprocessed, "cleaned_data", Null);
      match invoke(Invocation(endpointName, TargetModel, ContentType, dumps(payload)))
      case Raised(message) => Err(message)
      case Replied(text) =>
        match DecodeReply(text, loads)
        case Err(message) => Err(message)
        case Ok(modelOutput) => Ok(Postprocess(ProcessedData(modelOutput, preprocessed, endpointName)))
  }

  /** The body of the handler's try block: the postprocessed result dict, or
      the message of the exception that escaped it. */
  function HandleRequest(
    event: map<string, Json>,
    envDefault: Option<string>,
    loads: string -> LoadOutcome,
    dumps: Json -> string,
    invoke: Invocation -> InvokeOutcome
  ): (r: Result<map<string, Json>>)
    ensures LoadInput(event, loads).Err? ==> r == Err(LoadInput(event, loads).message)
    ensures r.Err? <==>
      || LoadInput(event, loads).Err?
      || (var input := LoadInput(event, loads).value;
          var endpointName := ResolveEndpoint(input, envDefault);
          var outcome := invoke(Invocation(
            endpointName, "face88.tar.gz", "application/json",
            dumps(if "data" in input then input["data"] else EmptyObject)));
          || !Truthy(endpointName)
          || outcome.Raised?
          || loads(outcome.text).LoadFailed?)
  {
    match LoadInput(event, loads)
    case Err(message) => Err(message)
    case Ok(input) => HandleInput(input, envDefault, loads, dumps, invoke)
  }

  /** The body of the 500 envelope. */
  function ErrorBody(message: string): Json
  {
    Obj(map["error" := Str(message)])
  }

  /** lambda_handler: the try block's result as a 200 envelope, or its
      exception as a 500 envelope; both carry the JSON content type. */
  function LambdaHandler(
    event: map<string, Json>,
    envDefault: Option<string>,
    loads: string -> LoadOutcome,
    dumps: Json -> string,
    invoke: Invocation -> InvokeOutcome
  ): (r: Response)
    ensures r.headers == map["Content-Type" := "application/json"]
    ensures r.statusCode == 200 || r.statusCode == 500
    ensures HandleRequest(event, envDefault, loads, dumps, invoke).Ok? ==>
      r.statusCode == 200 && r.body == dumps(Obj(HandleRequest(event, envDefault, loads, dumps, invoke).value))
    ensures HandleRequest(event, envDefault, loads, dumps, invoke).Err? ==>
      r.statusCode == 500 && r.body == dumps(ErrorBody(HandleRequest(event, envDefault, loads, dumps, invoke).message))
  {
    match HandleRequest(event, envDefault, loads, dumps, invoke)
    case Ok(results) => Response(200, dumps(Obj(results)), JsonHeaders)
    case Err(message) => Response(500, dumps(ErrorBody(message)), JsonHeaders)
  }
}
