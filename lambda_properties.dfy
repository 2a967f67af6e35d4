/** End-to-end properties of the handler: endpoint precedence, the fixed
    outbound call, the decode fallback and the two-outcome error boundary. */
module LambdaProperties {
  import opened Wrappers
  import opened JsonValues
  import opened LambdaFunction

  /** The one call a request that gets that far sends: the resolved endpoint,
      the fixed artifact and content type, and the serialised data field. */
  function ExpectedInvocation(input: map<string, Json>, envDefault: Option<string>, dumps: Json -> string): Invocation
  {
    Invocation(
      ResolveEndpoint(input, envDefault),
      "face88.tar.gz",
      "application/json",
      dumps(if "data" in input then input["data"] else Obj(map[])))
  }

  /** The 500 envelope for a message. */
  function ErrorResponse(message: string, dumps: Json -> string): Response
  {
    Response(500, dumps(Obj(map["error" := Str(message)])), map["Content-Type" := "application/json"])
  }

  /** With no endpoint name (absent, null or empty, from the body or the
      environment) the handler answers 500 with the configuration message, and
      what the inference client would do makes no difference: it is not called. */
  lemma MissingEndpointFails(
    event: map<string, Json>, envDefault: Option<string>,
    loads: string -> LoadOutcome, dumps: Json -> string,
    invoke1: Invocation -> InvokeOutcome, invoke2: Invocation -> InvokeOutcome,
    input: map<string, Json>)
    requires LoadInput(event, loads) == Ok(input)
    requires !Truthy(ResolveEndpoint(input, envDefault))
    ensures LambdaHandler(event, envDefault, loads, dumps, invoke1)
         == ErrorResponse("SageMaker endpoint name is required", dumps)
    ensures LambdaHandler(event, envDefault, loads, dumps, invoke1)
         == LambdaHandler(event, envDefault, loads, dumps, invoke2)
  {
  }

  /** A body present but not a string (null, say) is not replaced by "{}":
      json.loads raises TypeError and the handler answers 500. */
  lemma NonStringBodyFails(
    event: map<string, Json>, envDefault: Option<string>,
    loads: string -> LoadOutcome, dumps: Json -> string, invoke: Invocation -> InvokeOutcome)
    requires "body" in event && !event["body"].Str?
    ensures LambdaHandler(event, envDefault, loads, dumps, invoke)
         == ErrorResponse("the JSON object must be str, bytes or bytearray, not " + TypeName(event["body"]), dumps)
  {
  }

  /** A body json.loads rejects (JSONDecodeError or any other exception) is
      answered 500 carrying the loader's message. */
  lemma MalformedBodyFails(
    event: map<string, Json>, envDefault: Option<string>,
    loads: string -> LoadOutcome, dumps: Json -> string, invoke: Invocation -> InvokeOutcome)
    requires EventBody(event).Str? && !loads(EventBody(event).s).Loaded?
    ensures LambdaHandler(event, envDefault, loads, dumps, invoke)
         == ErrorResponse(loads(EventBody(event).s).message, dumps)
  {
  }

  /** A body that loads to something other than a dict fails at the first
      .get call: 500 with the AttributeError message. */
  lemma NonDictBodyFails(
    event: map<string, Json>, envDefault: Option<string>,
    loads: string -> LoadOutcome, dumps: Json -> string, invoke: Invocation -> InvokeOutcome)
    requires EventBody(event).Str? && loads(EventBody(event).s).Loaded?
    requires !loads(EventBody(event).s).value.Obj?
    ensures LambdaHandler(event, envDefault, loads, dumps, invoke)
         == ErrorResponse("'" + TypeName(loads(EventBody(event).s).value) + "' object has no attribute 'get'", dumps)
  {
  }

  /** A body endpoint_name key wins even when its value is falsy: a configured
      environment default does not rescue it. */
  lemma FalsyEndpointKeyOverridesEnvironment(
    event: map<string, Json>, configured: string,
    loads: string -> LoadOutcome, dumps: Json -> string, invoke: Invocation -> InvokeOutcome,
    input: map<string, Json>)
    requires LoadInput(event, loads) == Ok(input)
    requires "endpoint_name" in input && !Truthy(input["endpoint_name"])
    ensures LambdaHandler(event, Some(configured), loads, dumps, invoke)
         == ErrorResponse("SageMaker endpoint name is required", dumps)
  {
  }

  /** The response depends on the inference client only through its answer to
      ExpectedInvocation: two clients that agree there give the same response,
      however they differ elsewhere. */
  lemma OutboundCallIsFixed(
    event: map<string, Json>, envDefault: Option<string>,
    loads: string -> LoadOutcome, dumps: Json -> string,
    invoke1: Invocation -> InvokeOutcome, invoke2: Invocation -> InvokeOutcome,
    input: map<string, Json>)
    requires LoadInput(event, loads) == Ok(input)
    requires invoke1(ExpectedInvocation(input, envDefault, dumps))
          == invoke2(ExpectedInvocation(input, envDefault, dumps))
    ensures LambdaHandler(event, envDefault, loads, dumps, invoke1)
         == LambdaHandler(event, envDefault, loads, dumps, invoke2)
  {
  }

  /** A request that reaches the call and gets back a body json.loads either
      parses or rejects with JSONDecodeError is answered 200 with the full
      result: the decoded reply (the raw text when it is not JSON), the
      request's warp_id and timestamp, where the request went, and the fixed
      success marker. */
  lemma SuccessEnvelope(
    event: map<string, Json>, envDefault: Option<string>,
    loads: string -> LoadOutcome, dumps: Json -> string, invoke: Invocation -> InvokeOutcome,
    input: map<string, Json>, text: string)
    requires LoadInput(event, loads) == Ok(input)
    requires Truthy(ResolveEndpoint(input, envDefault))
    requires invoke(ExpectedInvocation(input, envDefault, dumps)) == Replied(text)
    requires !loads(text).LoadFailed?
    ensures LambdaHandler(event, envDefault, loads, dumps, invoke) == Response(
      200,
      dumps(Obj(map[
        "results" := if loads(text).Loaded? then loads(text).value else Str(text),
        "metadata" := Obj(map[
          "warp_id" := if "warp_id" in input then input["warp_id"] else Null,
          "timestamp" := if "timestamp" in input then input["timestamp"] else Null,
          "preprocessing_completed" := Bool(true)
        ]),
        "endpoint_info" := Obj(map[
          "endpoint_name" := ResolveEndpoint(input, envDefault),
          "target_model" := Str("face88.tar.gz")
        ]),
        "summary" := Obj(map[
          "status" := Str("success"),
          "postprocessing_completed" := Bool(true)
        ])
      ])),
      map["Content-Type" := "application/json"])
  {
    var r := HandleInput(input, envDefault, loads, dumps, invoke);
    assert HandleRequest(event, envDefault, loads, dumps, invoke) == r;
    assert r.Ok?;
  }

  /** A call that raises is answered 500 with the client's own message. */
  lemma InvokeFailureFails(
    event: map<string, Json>, envDefault: Option<string>,
    loads: string -> LoadOutcome, dumps: Json -> string, invoke: Invocation -> InvokeOutcome,
    input: map<string, Json>, message: string)
    requires LoadInput(event, loads) == Ok(input)
    requires Truthy(ResolveEndpoint(input, envDefault))
    requires invoke(ExpectedInvocation(input, envDefault, dumps)) == Raised(message)
    ensures LambdaHandler(event, envDefault, loads, dumps, invoke) == ErrorResponse(message, dumps)
  {
  }

  /** A reply on which json.loads raises something other than JSONDecodeError
      is not rescued by the fallback: 500 with that exception's message. */
  lemma ReplyLoadFailureFails(
    event: map<string, Json>, envDefault: Option<string>,
    loads: string -> LoadOutcome, dumps: Json -> string, invoke: Invocation -> InvokeOutcome,
    input: map<string, Json>, text: string, message: string)
    requires LoadInput(event, loads) == Ok(input)
    requires Truthy(ResolveEndpoint(input, envDefault))
    requires invoke(ExpectedInvocation(input, envDefault, dumps)) == Replied(text)
    requires loads(text) == LoadFailed(message)
    ensures LambdaHandler(event, envDefault, loads, dumps, invoke) == ErrorResponse(message, dumps)
  {
  }

  /** A 500 arises exactly from: a body that does not load as a dict, a
      missing endpoint name, a failing call, or a reply json.loads fails on
      with an exception other than JSONDecodeError. */
  lemma FailureCauses(
    event: map<string, Json>, envDefault: Option<string>,
    loads: string -> LoadOutcome, dumps: Json -> string, invoke: Invocation -> InvokeOutcome)
    ensures LambdaHandler(event, envDefault, loads, dumps, invoke).statusCode == 500 <==>
      || LoadInput(event, loads).Err?
      || (var input := LoadInput(event, loads).value;
          var outcome := invoke(ExpectedInvocation(input, envDefault, dumps));
          || !Truthy(ResolveEndpoint(input, envDefault))
          || outcome.Raised?
          || loads(outcome.text).LoadFailed?)
  {
  }

  /** The parameters field is extracted into the warp details but never
      reaches the call or the response: two bodies that differ only there are
      answered alike. */
  lemma ParametersNeverObserved(
    event1: map<string, Json>, event2: map<string, Json>, envDefault: Option<string>,
    loads: string -> LoadOutcome, dumps: Json -> string, invoke: Invocation -> InvokeOutcome,
    input1: map<string, Json>, input2: map<string, Json>)
    requires LoadInput(event1, loads) == Ok(input1)
    requires LoadInput(event2, loads) == Ok(input2)
    requires input1 - {"parameters"} == input2 - {"parameters"}
    ensures LambdaHandler(event1, envDefault, loads, dumps, invoke)
         == LambdaHandler(event2, envDefault, loads, dumps, invoke)
  {
    AgreeOutsideParameters(input1, input2, "warp_id");
    AgreeOutsideParameters(input1, input2, "timestamp");
    AgreeOutsideParameters(input1, input2, "data");
    AgreeOutsideParameters(input1, input2, "endpoint_name");
    HandleInputReadsFourKeys(input1, input2, envDefault, loads, dumps, invoke);
  }

  /** Two dicts hold the same thing under a key: both lack it or both map it
      to the same value. */
  ghost predicate AgreeOn(input1: map<string, Json>, input2: map<string, Json>, key: string)
  {
    (key in input1 <==> key in input2) && (key in input1 ==> input1[key] == input2[key])
  }

  /** Two dicts that are equal once parameters is removed agree on every
      other key. */
  lemma AgreeOutsideParameters(input1: map<string, Json>, input2: map<string, Json>, key: string)
    requires input1 - {"parameters"} == input2 - {"parameters"}
    requires key != "parameters"
    ensures AgreeOn(input1, input2, key)
  {
    assert key in input1 <==> key in input1 - {"parameters"};
    assert key in input2 <==> key in input2 - {"parameters"};
  }

  /** After json.loads, the try block reads only warp_id, timestamp, data and
      endpoint_name from the input. */
  lemma HandleInputReadsFourKeys(
    input1: map<string, Json>, input2: map<string, Json>, envDefault: Option<string>,
    loads: string -> LoadOutcome, dumps: Json -> string, invoke: Invocation -> InvokeOutcome)
    requires AgreeOn(input1, input2, "warp_id") && AgreeOn(input1, input2, "timestamp")
    requires AgreeOn(input1, input2, "data") && AgreeOn(input1, input2, "endpoint_name")
    ensures HandleInput(input1, envDefault, loads, dumps, invoke)
         == HandleInput(input2, envDefault, loads, dumps, invoke)
  {
    var endpointName := ResolveEndpoint(input1, envDefault);
    assert endpointName == ResolveEndpoint(input2, envDefault);
    var preprocessed := Preprocess(input1, GetWarpDetails(input1));
    assert preprocessed == Preprocess(input2, GetWarpDetails(input2)) by {
      assert GetWarpDetails(input1)["warp_id"] == GetWarpDetails(input2)["warp_id"];
      assert GetWarpDetails(input1)["timestamp"] == GetWarpDetails(input2)["timestamp"];
    }
  }
}
