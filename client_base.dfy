/**
 * The transport-independent part of the API client: configuration checks
 * of the constructor, the request headers and payload, the mapping from an
 * HTTP status to an exception class, and the decisions taken on a
 * response. The HTTP exchange itself is not modelled: a response is its
 * status code and its decoded body.
 */
module ClientBase {
  import opened Wrappers
  import opened Text
  import opened Decimals
  import opened Json

  // ---------------------------------------------------------------------
  // configuration
  // ---------------------------------------------------------------------

  /** A configured client; `timeout` is in seconds. */
  datatype BaseClient = BaseClient(baseUrl: string, apiKey: string, timeout: int)

  /** The environment variables the constructor falls back on. */
  const BaseUrlVariable := "OAGI_BASE_URL"
  const ApiKeyVariable := "OAGI_API_KEY"

  const MissingBaseUrl :=
    ConfigurationError("OAGI base URL must be provided either as 'base_url' parameter or OAGI_BASE_URL environment variable")
  const MissingApiKey :=
    ConfigurationError("OAGI API key must be provided either as 'api_key' parameter or OAGI_API_KEY environment variable")

  /** A Python string is truthy when it is given and not empty. */
  predicate Truthy(s: Option<string>) { s.Some? && s.value != "" }

  /** `given or os.getenv(name)`. */
  function OrEnv(given: Option<string>, env: map<string, string>, name: string): (r: Option<string>)
    ensures Truthy(given) ==> r == given
    ensures !Truthy(given) ==> r == (if name in env then Some(env[name]) else None)
  {
    if Truthy(given) then given else if name in env then Some(env[name]) else None
  }

  /** `s.rstrip("/")`. */
  function TrimSlashes(s: string): (r: string)
  {
    RStripWhile(s, c => c == '/')
  }

  /**
   * `BaseClient.__init__`: each setting is the argument when truthy, else
   * the environment variable; a falsy base URL, then a falsy API key, is a
   * ConfigurationError; the base URL loses its trailing slashes and the
   * timeout is 60 seconds.
   */
  function NewClient(baseUrl: Option<string>, apiKey: Option<string>, env: map<string, string>): (r: Result<BaseClient>)
  {
    var url := OrEnv(baseUrl, env, BaseUrlVariable);
    var key := OrEnv(apiKey, env, ApiKeyVariable);
    if !Truthy(url) then Err(MissingBaseUrl)
    else if !Truthy(key) then Err(MissingApiKey)
    else Ok(BaseClient(TrimSlashes(url.value), key.value, 60))
  }

  /**
   * The constructor fails exactly when a setting is falsy in both places,
   * the base URL being checked first; otherwise the stored base URL is the
   * chosen one up to, and without, its trailing slashes.
   */
  lemma NewClientChecks(baseUrl: Option<string>, apiKey: Option<string>, env: map<string, string>)
    ensures var r := NewClient(baseUrl, apiKey, env);
      var url := if Truthy(baseUrl) then baseUrl.value else if BaseUrlVariable in env then env[BaseUrlVariable] else "";
      var key := if Truthy(apiKey) then apiKey.value else if ApiKeyVariable in env then env[ApiKeyVariable] else "";
      && (url == "" ==> r == Err(MissingBaseUrl))
      && (url != "" && key == "" ==> r == Err(MissingApiKey))
      && (url != "" && key != "" ==>
            r.Ok? && r.value.apiKey == key && r.value.timeout == 60 && SlashTrimmed(url, r.value.baseUrl))
  {
    var url := OrEnv(baseUrl, env, BaseUrlVariable);
    if Truthy(url) {
      TrimSlashesSpec(url.value);
    }
  }

  /** `t` is `s` without its trailing slashes: a prefix of `s`, followed only by slashes, and not ending in one. */
  predicate SlashTrimmed(s: string, t: string)
  {
    && |t| <= |s| && t == s[..|t|]
    && (forall i :: |t| <= i < |s| ==> s[i] == '/')
    && (t == [] || t[|t| - 1] != '/')
  }

  lemma TrimSlashesSpec(s: string)
    ensures SlashTrimmed(s, TrimSlashes(s))
  {
    var t := TrimSlashes(s);
    assert forall i :: |t| <= i < |s| ==> (c => c == '/')(s[i]);
  }

  /** Trimming the stored base URL again changes nothing. */
  lemma TrimSlashesIdempotent(s: string)
    ensures TrimSlashes(TrimSlashes(s)) == TrimSlashes(s)
  {
    var t := TrimSlashes(s);
    TrimSlashesSpec(s);
    if t != [] {
      assert !(c => c == '/')(t[|t| - 1]);
    }
  }

  /** A base URL made only of slashes passes the check and is stored empty. */
  lemma SlashesOnlyStoredEmpty(env: map<string, string>)
    ensures NewClient(Some("//"), Some("k"), env) == Ok(BaseClient("", "k", 60))
  {
    assert TrimSlashes("//"[..1]) == "";
  }

  // ---------------------------------------------------------------------
  // request
  // ---------------------------------------------------------------------

  /** `_build_headers`: the API version and the API key, each only when truthy. */
  function BuildHeaders(client: BaseClient, apiVersion: Option<string>): (h: map<string, string>)
    ensures "x-api-version" in h <==> Truthy(apiVersion)
    ensures "x-api-version" in h ==> h["x-api-version"] == apiVersion.value
    ensures "x-api-key" in h <==> client.apiKey != ""
    ensures "x-api-key" in h ==> h["x-api-key"] == client.apiKey
    ensures h.Keys <= {"x-api-version", "x-api-key"}
  {
    var withVersion := if Truthy(apiVersion) then map["x-api-version" := apiVersion.value] else map[];
    if client.apiKey != "" then withVersion["x-api-key" := client.apiKey] else withVersion
  }

  /** A client the constructor built always sends its key. */
  lemma ConstructedClientSendsKey(baseUrl: Option<string>, apiKey: Option<string>, env: map<string, string>, apiVersion: Option<string>)
    requires NewClient(baseUrl, apiKey, env).Ok?
    ensures var c := NewClient(baseUrl, apiKey, env).value;
      "x-api-key" in BuildHeaders(c, apiVersion) && BuildHeaders(c, apiVersion)["x-api-key"] == c.apiKey
  {
  }

  /** A binding that is present only when its value is. */
  function Entry(key: string, v: Option<Json>): (e: seq<(string, Json)>)
  {
    if v.Some? then [(key, v.value)] else []
  }

  lemma GetEntry(fields: seq<(string, Json)>, key: string, v: Option<Json>, k: string)
    ensures Get(fields + Entry(key, v), k) == if k == key && v.Some? then v else Get(fields, k)
  {
    if v.Some? {
      GetPush(fields, key, v.value, k);
    } else {
      assert fields + [] == fields;
    }
  }

  function JsonText(s: Option<string>): Option<Json>
  {
    if s.Some? then Some(JStr(s.value)) else None
  }

  function SamplingParams(temperature: Option<Decimal>): Option<Json>
  {
    if temperature.Some? then Some(JObj([("temperature", JFloat(temperature.value))])) else None
  }

  /**
   * `_build_payload`: the model and the messages, then the task description,
   * the task id and the sampling parameters, each only when given; the
   * bindings in insertion order.
   */
  function BuildPayload(model: string, messages: seq<Json>, taskDescription: Option<string>, taskId: Option<string>,
                        temperature: Option<Decimal>): (p: seq<(string, Json)>)
    ensures |p| == 2 + (if taskDescription.Some? then 1 else 0) + (if taskId.Some? then 1 else 0) + (if temperature.Some? then 1 else 0)
    ensures p[..2] == [("model", JStr(model)), ("messages", JArr(messages))]
  {
    [("model", JStr(model)), ("messages", JArr(messages))]
      + Entry("task_description", JsonText(taskDescription))
      + Entry("task_id", JsonText(taskId))
      + Entry("sampling_params", SamplingParams(temperature))
  }

  /** What the payload holds under each key: optional keys exactly when their value is given, the temperature nested under `sampling_params`. */
  lemma PayloadFields(model: string, messages: seq<Json>, taskDescription: Option<string>, taskId: Option<string>,
                      temperature: Option<Decimal>, k: string)
    ensures var p := BuildPayload(model, messages, taskDescription, taskId, temperature);
      Get(p, k) == (
        if k == "sampling_params" then SamplingParams(temperature)
        else if k == "task_id" then JsonText(taskId)
        else if k == "task_description" then JsonText(taskDescription)
        else if k == "messages" then Some(JArr(messages))
        else if k == "model" then Some(JStr(model))
        else None)
  {
    var p0 := [("model", JStr(model)), ("messages", JArr(messages))];
    var p1 := p0 + Entry("task_description", JsonText(taskDescription));
    var p2 := p1 + Entry("task_id", JsonText(taskId));
    GetPair("model", JStr(model), "messages", JArr(messages), k);
    GetEntry(p0, "task_description", JsonText(taskDescription), k);
    GetEntry(p1, "task_id", JsonText(taskId), k);
    GetEntry(p2, "sampling_params", SamplingParams(temperature), k);
  }

  // ---------------------------------------------------------------------
  // response
  // ---------------------------------------------------------------------

  /** The exception classes of the client, all subclasses of APIError. */
  datatype ApiErrorClass = ApiError | AuthenticationError | NotFoundError | ValidationError | RateLimitError | ServerError

  /** A raised client exception: its class, message, error code and status. */
  datatype ApiFailure = ApiFailure(cls: ApiErrorClass, message: string, code: Option<string>, status: int)

  /** `_get_exception_class`: 5xx is a server error, four statuses have their own class, the rest are plain API errors. */
  function ExceptionClass(status: int): (c: ApiErrorClass)
    ensures c == ServerError <==> status >= 500
    ensures c == AuthenticationError <==> status == 401
    ensures c == NotFoundError <==> status == 404
    ensures c == ApiErrorClass.ValidationError <==> status == 422
    ensures c == RateLimitError <==> status == 429
    ensures c == ApiError <==> status < 500 && status !in {401, 404, 422, 429}
  {
    if status >= 500 then ServerError
    else if status == 401 then AuthenticationError
    else if status == 404 then NotFoundError
    else if status == 422 then ApiErrorClass.ValidationError
    else if status == 429 then RateLimitError
    else ApiError
  }

  /** `ErrorDetail`. */
  datatype ErrorDetail = ErrorDetail(code: string, message: string)

  /** The `error` member of a decoded body: absent, null, or a detail. */
  datatype ErrorField = Absent | Null | Detail(detail: ErrorDetail)

  /** The fields of a validated `LLMResponse` that the client reports. */
  datatype LLMResponse = LLMResponse(taskId: string, isComplete: bool, actionCount: nat)

  /**
   * A decoded JSON body: its `error` member, and the `LLMResponse` it
   * validates to, None when the rest of it does not.
   */
  datatype Body = Body(error: ErrorField, response: Option<LLMResponse>)

  /**
   * What processing a response ends in: the validated response, a client
   * exception, or a validation error of the response models (raised by the
   * model library before any client exception).
   */
  datatype Outcome = Success(response: LLMResponse) | Raised(failure: ApiFailure) | Malformed

  /**
   * `_handle_response_error`: `ErrorResponse` requires the `error` member;
   * with a detail, the detail's message and code; with null, a message
   * naming the status. Both raise the class of the status.
   */
  function HandleResponseError(status: int, error: ErrorField): (o: Outcome)
    ensures error.Absent? <==> o.Malformed?
    ensures o.Raised? ==> o.failure.cls == ExceptionClass(status) && o.failure.status == status
  {
    match error
    case Absent => Malformed
    case Detail(d) => Raised(ApiFailure(ExceptionClass(status), d.message, Some(d.code), status))
    case Null => Raised(ApiFailure(ExceptionClass(status), "API error (status " + IntToString(status) + ")", None, status))
  }

  /**
   * `_process_response`: a body that is not JSON is an API error naming
   * the status; a status other than 200 is handled as an error response;
   * a 200 body must validate, and an error in it is an API error with
   * status 200. Only a valid 200 body without an error detail succeeds.
   */
  function ProcessResponse(status: int, body: Option<Body>): (o: Outcome)
    ensures o.Success? <==> status == 200 && body.Some? && body.value.response.Some? && !body.value.error.Detail?
    ensures o.Success? ==> o.response == body.value.response.value
    ensures body.None? ==> o.Raised? && o.failure.cls == ApiError && o.failure.status == status
    ensures body.Some? && status != 200 && !body.value.error.Absent? ==>
      o.Raised? && o.failure.cls == ExceptionClass(status) && o.failure.status == status
    ensures body.Some? && status != 200 && body.value.error.Detail? ==>
      o.failure.message == body.value.error.detail.message && o.failure.code == Some(body.value.error.detail.code)
    ensures body.Some? && status == 200 && body.value.response.Some? && body.value.error.Detail? ==>
      o == Raised(ApiFailure(ApiError, body.value.error.detail.message, Some(body.value.error.detail.code), 200))
  {
    if body.None? then Raised(ApiFailure(ApiError, "Invalid response format (status " + IntToString(status) + ")", None, status))
    else if status != 200 then HandleResponseError(status, body.value.error)
    else if body.value.response.None? then Malformed
    else if body.value.error.Detail? then
      Raised(ApiFailure(ApiError, body.value.error.detail.message, Some(body.value.error.detail.code), 200))
    else Success(body.value.response.value)
  }

  /** Every JSON response with a status other than 200 fails: it raises, or its error body does not validate. */
  lemma Non200NeverSucceeds(status: int, body: Body)
    requires status != 200
    ensures !ProcessResponse(status, Some(body)).Success?
    ensures ProcessResponse(status, Some(body)).Malformed? <==> body.error.Absent?
  {
  }
}
