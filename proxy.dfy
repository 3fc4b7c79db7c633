/** The non-streaming completion proxy (functions/inference-proxy-lambda/main.py):
    validates a chat request, clamps its token budget, forwards it to one
    Bedrock model and turns the reply, or the failure, into an HTTP response.
    The Bedrock call is the parameter `backend`; `ceiling` is the
    GLOBAL_MAX_TOKENS_PER_CALL setting. */
module CompletionProxy {
  import opened Common

  /** The ceiling used when the setting is absent. */
  const DefaultCeiling := 1024

  /** The token budget used when the request names none. */
  const DefaultMaxTokens := 256

  const AnthropicVersion := "bedrock-2023-05-31"

  /** The headers every response carries. */
  const CorsHeaders: map<string, string> := map[
    "Access-Control-Allow-Origin" := "*",
    "Access-Control-Allow-Headers" := "Content-Type,Authorization,x-api-key,Accept,Origin,X-Requested-With",
    "Access-Control-Allow-Methods" := "POST,OPTIONS",
    "Content-Type" := "application/json"]

  const MissingFieldsMessage := "Missing required fields: modelId, messages"
  const AccessDeniedMessage := "Access denied. Check IAM permissions and model access in Bedrock console."
  const InvalidRequestMessage := "Invalid request parameters."
  const InternalErrorMessage := "Internal server error"

  /** What `str(err)` describes: a service error's own text, or an exception
      the handler raised itself. */
  datatype Cause = ServiceText(text: string) | HandlerException(exception: PyError)

  /** The object `json.dumps` serialises into the response body. */
  datatype Reply =
    | Completion(response: Value)
    | Problem(error: string, details: Option<Cause>)

  datatype Response = Response(statusCode: int, headers: map<string, string>, body: Reply)

  /** The `invoke_model` call: the model id and the JSON payload. */
  datatype Invocation = Invocation(modelId: Value, payload: Value)

  /** How `invoke_model` ends: a reply whose body is JSON text (None when it is
      not), a botocore ClientError with its error code, or any other exception. */
  datatype Outcome =
    | Replied(body: Option<Value>)
    | ClientError(code: string, message: string)
    | OtherError(message: string)

  /** A response and the invocation the handler made, if any. */
  datatype Handled = Handled(response: Response, invoked: Option<Invocation>)

  /** `min(requested, ceiling)`: the requested value itself unless the ceiling
      is smaller; comparing a non-number with an int raises TypeError. */
  function Clamp(requested: Value, ceiling: int): (r: Result<Value, PyError>)
    ensures r.Ok? <==> AsNumber(requested).Some?
    ensures r.Err? ==> r.error == TypeError
    ensures r.Ok? ==> AsNumber(r.value).Some? && AsNumber(r.value).value <= ceiling as real
    ensures r.Ok? ==> r.value == requested || r.value == Int(ceiling)
    ensures r.Ok? && AsNumber(requested).value <= ceiling as real ==> r.value == requested
  {
    match AsNumber(requested)
    case None => Err(TypeError)
    case Some(n) => if (ceiling as real) < n then Ok(Int(ceiling)) else Ok(requested)
  }

  /** The request body Bedrock receives: the client's messages as the content
      of one user turn, the clamped budget, and the temperature (0.5 unless
      the request sets one). */
  function Payload(messages: Value, maxTokens: Value, temperature: Value): (p: Value)
    ensures p.Dict? && p.fields.Keys == {"anthropic_version", "messages", "max_tokens", "temperature"}
    ensures p.fields["anthropic_version"] == Str(AnthropicVersion)
    ensures p.fields["messages"] == List([Dict(map["role" := Str("user"), "content" := messages])])
    ensures p.fields["max_tokens"] == maxTokens && p.fields["temperature"] == temperature
  {
    Dict(map[
      "anthropic_version" := Str(AnthropicVersion),
      "messages" := List([Dict(map["role" := Str("user"), "content" := messages])]),
      "max_tokens" := maxTokens,
      "temperature" := temperature])
  }

  /** `x[0]` on a value from JSON: the first element of a list or a string;
      IndexError when it is empty, KeyError on a dict (whose keys are strings),
      TypeError on anything else. */
  function First(v: Value): (r: Result<Value, PyError>)
    ensures v.List? && v.items != [] ==> r == Ok(v.items[0])
    ensures r.Ok? ==> (v.List? && v.items != []) || (v.Str? && v.s != [])
  {
    match v
    case List(items) => if items == [] then Err(IndexError) else Ok(items[0])
    case Str(s) => if s == [] then Err(IndexError) else Ok(Str([s[0]]))
    case Dict(_) => Err(KeyError)
    case _ => Err(TypeError)
  }

  /** The `text` of the first content block of a reply, if it has one. */
  function FirstBlockText(reply: Value): Option<Value> {
    if reply.Dict? && "content" in reply.fields && reply.fields["content"].List? && reply.fields["content"].items != []
       && reply.fields["content"].items[0].Dict? && "text" in reply.fields["content"].items[0].fields
    then Some(reply.fields["content"].items[0].fields["text"])
    else None
  }

  /** Line 47: `content[0]["text"]` of the reply when present, the whole reply
      when the first content block has no text; a reply without `content`
      reads as `[{}]` and so also yields the whole reply. */
  function ResultText(reply: Value): (r: Result<Value, PyError>)
    ensures !reply.Dict? ==> r == Err(AttributeError)
    ensures reply.Dict? && "content" !in reply.fields ==> r == Ok(reply)
    ensures reply.Dict? && "content" in reply.fields && reply.fields["content"].List?
            && reply.fields["content"].items != [] && reply.fields["content"].items[0].Dict? ==>
      var block := reply.fields["content"].items[0].fields;
      r == Ok(if "text" in block then block["text"] else reply)
    ensures r.Ok? ==> r.value == reply || FirstBlockText(reply) == Some(r.value)
  {
    if !reply.Dict? then Err(AttributeError)
    else
      var first :- First(LookupOr(reply.fields, "content", List([EmptyDict])));
      if !first.Dict? then Err(AttributeError)
      else Ok(LookupOr(first.fields, "text", reply))
  }

  /** Lines 55-80: a ClientError's status by its code. */
  function ClientErrorStatus(code: string): (status: int)
    ensures status in {400, 403, 500}
    ensures status == 403 <==> code == "AccessDeniedException"
    ensures status == 400 <==> code == "ValidationException"
  {
    if code == "AccessDeniedException" then 403
    else if code == "ValidationException" then 400
    else 500
  }

  function ClientErrorMessage(code: string): string {
    if code == "AccessDeniedException" then AccessDeniedMessage
    else if code == "ValidationException" then InvalidRequestMessage
    else InternalErrorMessage
  }

  /** The 500 answer of the final `except Exception`. */
  function InternalError(cause: Cause): Response {
    Response(500, CorsHeaders, Problem(InternalErrorMessage, Some(cause)))
  }

  /** The status and body for a completed `invoke_model` call. */
  function Answer(outcome: Outcome): (r: Response)
    ensures r.headers == CorsHeaders && r.statusCode in {200, 400, 403, 500}
    ensures outcome.ClientError? ==> r.statusCode == ClientErrorStatus(outcome.code)
    ensures outcome.OtherError? ==> r == InternalError(ServiceText(outcome.message))
    ensures outcome.Replied? && outcome.body.Some? && ResultText(outcome.body.value).Ok? ==>
      r == Response(200, CorsHeaders, Completion(ResultText(outcome.body.value).value))
    ensures r.statusCode == 200 <==> outcome.Replied? && outcome.body.Some? && ResultText(outcome.body.value).Ok?
  {
    match outcome
    case ClientError(code, message) =>
      Response(ClientErrorStatus(code), CorsHeaders, Problem(ClientErrorMessage(code), Some(ServiceText(message))))
    case OtherError(message) => InternalError(ServiceText(message))
    case Replied(None) => InternalError(HandlerException(JsonDecodeError))
    case Replied(Some(reply)) =>
      match ResultText(reply)
      case Err(e) => InternalError(HandlerException(e))
      case Ok(text) => Response(200, CorsHeaders, Completion(text))
  }

  /** The handler, given the parsed request body (None when `json.loads`
      raised). A missing or falsy `modelId` or `messages` is answered with
      400 before anything is sent; a non-numeric `max_tokens` raises before
      the call; every other outcome is mapped by `Answer`. */
  function Handle(body: Option<Value>, ceiling: int, backend: Invocation -> Outcome): (r: Handled)
    ensures r.response.headers == CorsHeaders
    ensures r.response.statusCode in {200, 400, 403, 500}
    ensures body.None? ==> r == Handled(InternalError(HandlerException(JsonDecodeError)), None)
    ensures body.Some? && !body.value.Dict? ==> r == Handled(InternalError(HandlerException(AttributeError)), None)
    ensures body.Some? && body.value.Dict? ==>
      var f := body.value.fields;
      (!Truthy(Lookup(f, "modelId")) || !Truthy(Lookup(f, "messages")) ==>
        r == Handled(Response(400, CorsHeaders, Problem(MissingFieldsMessage, None)), None))
    ensures r.invoked.Some? ==>
      && body.Some? && body.value.Dict?
      && var f := body.value.fields;
      && Truthy(Lookup(f, "modelId")) && Truthy(Lookup(f, "messages"))
      && var clamped := Clamp(LookupOr(f, "max_tokens", Int(DefaultMaxTokens)), ceiling);
      && clamped.Ok?
      && r.invoked.value == Invocation(Lookup(f, "modelId"),
           Payload(Lookup(f, "messages"), clamped.value, LookupOr(f, "temperature", Float(0.5))))
      && r.response == Answer(backend(r.invoked.value))
    ensures body.Some? && body.value.Dict?
            && Truthy(Lookup(body.value.fields, "modelId")) && Truthy(Lookup(body.value.fields, "messages"))
            && Clamp(LookupOr(body.value.fields, "max_tokens", Int(DefaultMaxTokens)), ceiling).Ok? ==>
      r.invoked.Some?
    ensures r.invoked.None? && body.Some? && body.value.Dict?
            && Truthy(Lookup(body.value.fields, "modelId")) && Truthy(Lookup(body.value.fields, "messages")) ==>
      r == Handled(InternalError(HandlerException(TypeError)), None)
  {
    match body
    case None => Handled(InternalError(HandlerException(JsonDecodeError)), None)
    case Some(b) =>
      if !b.Dict? then Handled(InternalError(HandlerException(AttributeError)), None)
      else
        var modelId, messages := Lookup(b.fields, "modelId"), Lookup(b.fields, "messages");
        if !Truthy(modelId) || !Truthy(messages) then
          Handled(Response(400, CorsHeaders, Problem(MissingFieldsMessage, None)), None)
        else
          match Clamp(LookupOr(b.fields, "max_tokens", Int(DefaultMaxTokens)), ceiling)
          case Err(e) => Handled(InternalError(HandlerException(e)), None)
          case Ok(maxTokens) =>
            var call := Invocation(modelId, Payload(messages, maxTokens, LookupOr(b.fields, "temperature", Float(0.5))));
            Handled(Answer(backend(call)), Some(call))
  }

  /** Whatever the backend does, the budget sent never exceeds the ceiling,
      and a request without its own budget asks for the smaller of 256 and
      the ceiling: 256 under the default ceiling. */
  lemma BudgetWithinCeiling(body: Option<Value>, ceiling: int, backend: Invocation -> Outcome)
    requires Handle(body, ceiling, backend).invoked.Some?
    ensures var p := Handle(body, ceiling, backend).invoked.value.payload;
      && AsNumber(p.fields["max_tokens"]).Some?
      && AsNumber(p.fields["max_tokens"]).value <= ceiling as real
      && ("max_tokens" !in body.value.fields ==>
            p.fields["max_tokens"] == Int(if ceiling < DefaultMaxTokens then ceiling else DefaultMaxTokens))
      && (ceiling == DefaultCeiling && "max_tokens" !in body.value.fields ==>
            p.fields["max_tokens"] == Int(DefaultMaxTokens))
  {
  }

  /** A request answered before the call does not depend on the backend at all. */
  lemma OnlyTheCallMatters(body: Option<Value>, ceiling: int, b1: Invocation -> Outcome, b2: Invocation -> Outcome)
    requires Handle(body, ceiling, b1).invoked.None?
    ensures Handle(body, ceiling, b2) == Handle(body, ceiling, b1)
  {
  }

  /** Two backends that give the same outcome for the call the handler makes
      lead to the same response: nothing else of the backend is consulted. */
  lemma SameOutcomeSameResponse(body: Option<Value>, ceiling: int, b1: Invocation -> Outcome, b2: Invocation -> Outcome)
    requires Handle(body, ceiling, b1).invoked.Some?
    requires b2(Handle(body, ceiling, b1).invoked.value) == b1(Handle(body, ceiling, b1).invoked.value)
    ensures Handle(body, ceiling, b2) == Handle(body, ceiling, b1)
  {
  }
}
