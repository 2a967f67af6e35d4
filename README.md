# A model of the SageMaker Triton Lambda request pipeline

The handler in `lambda_function.py` takes an HTTP-shaped event and parses its
`body` as JSON. It derives the warp details (`warp_id`, `timestamp`,
`parameters`) and preprocesses the input into a cleaned payload plus metadata.
It resolves the inference endpoint name from the body or from the
`SAGEMAKER_ENDPOINT_NAME` environment default, and calls the endpoint with the
fixed model artifact `face88.tar.gz`. It decodes the reply, falling back to
the raw text when the reply is not JSON, and postprocesses everything into the
result shape. One `try/except` turns any exception into a 500 envelope;
otherwise the answer is a 200 envelope.

The model is pure Dafny, following the source's shape:

- `wrappers.dfy` (`Wrappers`): `Option` and `Result` (a value, or an
  exception's message).
- `json.dfy` (`JsonValues`): the JSON value type and the Python semantics
  the handler relies on: `dict.get` (`Get`), truthiness (`Truthy`) and
  class names in exception messages (`TypeName`).
- `lambda_function.dfy` (`LambdaFunction`): `GetWarpDetails`, `Preprocess`,
  `Postprocess` and the handler, split the way the source runs it.
  `LoadInput` is `json.loads` of the body plus the implicit requirement that
  it be a dict. `HandleInput` is the rest of the try block. `HandleRequest`
  is the whole try block. `LambdaHandler` is the error boundary that builds
  the envelopes.
- `lambda_properties.dfy` (`LambdaProperties`): end-to-end lemmas about
  the handler.

The external collaborators are parameters of the handler:

- `loads: string -> LoadOutcome` stands for `json.loads`. It yields a value, a
  `JSONDecodeError`, or any other exception (`LoadFailed`).
- `dumps: Json -> string` stands for `json.dumps`.
- `invoke: Invocation -> InvokeOutcome` stands for `invoke_endpoint` followed
  by reading the body and UTF-8 decoding it. It yields the reply text or the
  message of a raised exception.
- `envDefault: Option<string>` stands for
  `os.environ.get('SAGEMAKER_ENDPOINT_NAME')`.

One function call stands for one request. "The client is not called" is
stated as: the response is the same whatever `invoke` is. "The client is
called with exactly X" is stated as: two clients that agree on X give the
same response.

Some edge cases follow what the code does rather than what its docstrings and
comments suggest:

- A `body` key that is present with a value that is not a string (a JSON
  null, say) is not replaced by `"{}"`. `json.loads` raises `TypeError` on
  it, so the answer is 500.
- A body that parses to something other than a dict (a list, a number) fails
  at the first `.get` call with `AttributeError`, so the answer is 500.
- A present `endpoint_name` key wins even when its value is falsy, and the
  environment default is then ignored.
- The reply fallback catches only `JSONDecodeError`. Any other exception from
  `json.loads` on the reply (`LoadFailed`) still gives 500.
- The endpoint name is checked only for truthiness, so a truthy non-string
  (a number, a list) is passed to the client unchanged. What the client does
  with it is up to `invoke`.

## Model

| member | source | states |
|---|---|---|
| `JsonValues.Get` | lambda_function.py:22-24 | `d.get(key, default)`: the stored value whenever the key is present, whatever it is, and the default only when the key is absent |
| `JsonValues.Truthy` | lambda_function.py:79 | `not endpoint_name` holds exactly for None, False, 0, the empty string, the empty list and the empty dict |
| `LambdaFunction.GetWarpDetails` | lambda_function.py:21-25 | the result has exactly the keys warp_id, timestamp and parameters; warp_id and timestamp are the input's values, or null when the key is absent; parameters is the input's value, or `{}` when absent |
| `LambdaFunction.Preprocess` | lambda_function.py:43-50 | cleaned_data is the input's data, or `{}` when absent; metadata holds exactly warp_id and timestamp from the warp details and preprocessing_completed = true |
| `LambdaFunction.EnvironmentValue` | lambda_function.py:78 | `os.environ.get('SAGEMAKER_ENDPOINT_NAME')` is None when the variable is unset and its text otherwise |
| `LambdaFunction.ResolveEndpoint` | lambda_function.py:78 | a present endpoint_name key decides the name whatever its value; only when the key is absent is the environment default used (null when unset) |
| `LambdaFunction.EventBody` | lambda_function.py:69 | the event's body when the key is present, whatever its value; the text "{}" only when it is absent |
| `LambdaFunction.LoadInput` | lambda_function.py:69-72 | success means the body is a string that loads to a dict, and the result is that dict; a non-string body gives json.loads' TypeError; a loader exception gives its message; a loaded non-dict gives the AttributeError of `.get` |
| `LambdaFunction.DecodeReply` | lambda_function.py:96-101 | a reply that loads gives the loaded value; a JSONDecodeError gives the raw text as a string value; any other loader exception propagates |
| `LambdaFunction.ProcessedData` | lambda_function.py:104-111 | the dict has exactly sagemaker_response (the decoded reply), metadata (copied from the preprocessed data, `{}` when missing) and endpoint_info with exactly the resolved endpoint name and target_model "face88.tar.gz" |
| `LambdaFunction.Postprocess` | lambda_function.py:152-163 | the result has exactly results, metadata, endpoint_info and summary; the first three are copied from sagemaker_response, metadata and endpoint_info, each `{}` when missing; summary is always {status: "success", postprocessing_completed: true} |
| `LambdaFunction.HandleInput` | lambda_function.py:72-114 | given the loaded dict: a falsy endpoint name gives the configuration error; otherwise the call goes to the resolved name with "face88.tar.gz", "application/json" and the serialised data (`{}` when absent); a raising call or a reply that fails to load other than by JSONDecodeError gives that message; any other reply gives the four-key result dict with the decoded reply or raw text, the input's warp_id/timestamp (null when absent) with preprocessing_completed, the endpoint info and the fixed summary |
| `LambdaFunction.HandleRequest` | lambda_function.py:69-114 | the try block fails exactly when the body does not load as a dict, the endpoint name is falsy, the call raises, or the reply fails to load other than by JSONDecodeError; a load failure carries LoadInput's message |
| `LambdaFunction.LambdaHandler` | lambda_function.py:117-137 | the status is 200 or 500 and the headers are exactly Content-Type: application/json; a completed try block gives 200 with the serialised result dict, an exception gives 500 with the serialised `{error: message}` |
| `LambdaProperties.MissingEndpointFails` | lambda_function.py:78-80 | a falsy resolved endpoint name (absent from body and environment, null or empty) gives the 500 envelope with "SageMaker endpoint name is required", and the response is the same for any inference client, so none is called |
| `LambdaProperties.FalsyEndpointKeyOverridesEnvironment` | lambda_function.py:78-80 | a present but falsy body endpoint_name gives the missing-endpoint 500 even when the environment default is set |
| `LambdaProperties.NonStringBodyFails` | lambda_function.py:69 | a present body that is not a string is not defaulted to "{}": the answer is 500 with json.loads' TypeError message |
| `LambdaProperties.MalformedBodyFails` | lambda_function.py:69 | a body json.loads rejects, by JSONDecodeError or any other exception, gives 500 with the loader's message, whatever the endpoint configuration and client |
| `LambdaProperties.NonDictBodyFails` | lambda_function.py:69-72 | a body that loads to a non-dict gives 500 with the message "'<type>' object has no attribute 'get'" |
| `LambdaProperties.OutboundCallIsFixed` | lambda_function.py:83-91 | the response depends on the client only through its answer to one call: endpoint = the resolved name, TargetModel = "face88.tar.gz", ContentType = "application/json", Body = the serialised data field (`{}` when absent) |
| `LambdaProperties.SuccessEnvelope` | lambda_function.py:94-123 | when the call replies with text that loads or raises JSONDecodeError, the answer is 200 with results = the loaded value or the raw text, metadata = the input's warp_id/timestamp (null when absent) with preprocessing_completed, endpoint_info = the resolved name with target_model "face88.tar.gz", and the fixed summary |
| `LambdaProperties.InvokeFailureFails` | lambda_function.py:86-91 | a call that raises gives 500 with the client's own message |
| `LambdaProperties.ReplyLoadFailureFails` | lambda_function.py:96-99 | a reply on which json.loads raises anything but JSONDecodeError gives 500 with that message; the fallback does not apply |
| `LambdaProperties.FailureCauses` | lambda_function.py:67-137 | the status is 500 exactly when the body does not load as a dict, the endpoint name is falsy, the call raises, or the reply fails to load with an exception other than JSONDecodeError |
| `LambdaProperties.ParametersNeverObserved` | lambda_function.py:24 | two requests whose inputs differ only in parameters get identical responses: the field never reaches the call or the result |
| `LambdaProperties.HandleInputReadsFourKeys` | lambda_function.py:72-114 | after loading, the try block reads only warp_id, timestamp, data and endpoint_name: two inputs that agree on those four keys give the same outcome |

## Left out

- The boto3 client creation at import time, and the network behaviour of
  `invoke_endpoint`. The call is the abstract `invoke` parameter, and an
  AWS-side or transport failure is its `Raised` outcome.
- The UTF-8 decoding of the reply bytes. It is part of what `invoke` returns,
  so a decode error is a `Raised` outcome.
- `json.loads` and `json.dumps` are abstract parameters, not verified
  parsers or serialisers. `dumps` is total, because serialising a value that
  `json.loads` produced cannot fail.
- Exception messages other than "SageMaker endpoint name is required" and the
  two Python messages modelled by class name (`TypeError` from `json.loads`,
  `AttributeError` from `.get`). These messages are carried as opaque strings.
- The `print` of the error, which is a side effect only.
- The `os.environ` lookup. It is the `envDefault` parameter.
- The unused Lambda `context` argument.
- Floating-point JSON numbers. Numbers are integers, so the falsiness of
  `0.0` is not modelled.
- The event is always a dict (`map<string, Json>`). An event of another type
  would fail at `event.get`, and that case is not modelled.
- `Preprocess` requires the warp details to hold warp_id and timestamp,
  because the source subscripts them. A direct call without them would raise
  KeyError, but inside the handler they always come from `GetWarpDetails`, so
  that path cannot occur.
- Dict key order. Python dicts keep insertion order and `json.dumps` writes
  keys in that order, but `Obj` is an unordered map. So the key order of the
  serialised payload (the request's `data` keys) and of the response body
  (results, metadata, endpoint_info, summary) is not modelled. Nothing in the
  handler branches on key order.
