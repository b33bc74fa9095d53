/**
 * The completion relay of js/proxy-server.js: one request handler in front of
 * OpenAI's chat-completions endpoint that speaks the local model server's
 * `/api/tags` and `/api/generate` dialect to the browser widgets.
 *
 * The only state is the API key, which `/api/update-key` overwrites. The call
 * to the backend is not performed: the handler is given the outcome that call
 * would have (`BackendOutcome`) and reports the request it would have sent
 * (`Exchange.sent`). A `None` there means the backend was never contacted,
 * and then the outcome is not looked at.
 */
module Relay {
  import opened JsText

  const CompletionsUrl := "https://api.openai.com/v1/chat/completions"
  const MaxPromptLength := 12000
  const TruncationMarker := "\n\n[Content truncated due to length]"
  const DefaultModel := "gpt-3.5-turbo"
  const MockModels := ["gpt-3.5-turbo", "gpt-4", "gpt-4-turbo"]
  const KeyPrefix := "sk-"
  const MaxTokens := 1500

  const MsgNotFound := "Not Found"
  const MsgEndpointNotFound := "Endpoint not found"
  const MsgKeyMissing := "OpenAI API key not configured. Please set your API key in the chat interface."
  const MsgKeyFormat := "Invalid API key format. OpenAI API keys should start with \"sk-\"."
  const MsgBadPrompt := "Invalid or missing prompt in request."
  const MsgUpstream := "OpenAI API error"
  const MsgUnauthorized := "Invalid API key. Please check your OpenAI API key."
  const MsgRateLimited := "Rate limit exceeded. Please try again in a few moments."
  const MsgNoCredits := "Insufficient credits. Please check your OpenAI account billing."
  const MsgBadRequest := "Bad request. The prompt may be too long or contain invalid content."
  const MsgUnavailable := "OpenAI service is temporarily unavailable. Please try again later."
  const MsgNetwork := "Network error occurred while contacting OpenAI"
  const MsgTimeout := "Request timed out. Please try again with a shorter prompt."
  const MsgNoConnection := "Cannot connect to OpenAI. Please check your internet connection."
  const ProxyErrorPrefix := "Proxy Error: "
  /** What V8 throws when `startsWith` / `includes` is called on a non-string. */
  const KeyNotString := "OPENAI_API_KEY.startsWith is not a function"
  const ModelNotString := "ollamaRequest.model.includes is not a function"
  /** What V8 throws when a property of `null` is read. */
  const NullApiKeyRead := "Cannot read properties of null (reading 'apiKey')"
  const NullModelRead := "Cannot read properties of null (reading 'model')"

  /**
   * A value read from a parsed JSON body: a missing property (`undefined`) or
   * one of the JSON values. Only the presence of an object matters, not its
   * members. Numbers that overflow to `Infinity` are not modelled.
   */
  datatype JsonValue =
    | Undefined
    | Null
    | Bool(b: bool)
    | Num(x: real)
    | Str(s: string)
    | Arr(elems: seq<JsonValue>)
    | Obj

  /** JavaScript truthiness. */
  predicate Truthy(v: JsonValue) {
    match v
    case Undefined => false
    case Null => false
    case Bool(b) => b
    case Num(x) => x != 0.0
    case Str(s) => s != ""
    case Arr(_) => true
    case Obj => true
  }

  /** A JavaScript number as far as `Math.max`/`Math.min` and `JSON.stringify` see it. */
  datatype Numeric = Finite(value: real) | NaN

  function Pow10(n: nat): (r: nat)
    ensures r >= 1
  {
    if n == 0 then 1 else 10 * Pow10(n - 1)
  }

  /**
   * An unsigned decimal literal: digits, optionally with a `.` and more
   * digits, with at least one digit in all.
   */
  function DecimalValue(u: string): (r: Option<real>)
    ensures r.Some? ==> r.value >= 0.0
  {
    match IndexOf(u, '.')
    case None =>
      if u != "" && AllDigits(u) then Some(DigitsValue(u) as real) else None
    case Some(k) =>
      var whole, fraction := u[..k], u[k + 1..];
      if AllDigits(whole) && AllDigits(fraction) && |whole| + |fraction| > 0 then
        Some(DigitsValue(whole) as real + DigitsValue(fraction) as real / Pow10(|fraction|) as real)
      else None
  }

  /**
   * `Number(s)`: white space around the text is ignored, the empty text is 0,
   * and otherwise a signed decimal literal is read; anything else is NaN.
   */
  function StringToNumber(s: string): (r: Numeric)
    ensures Trim(s) == "" ==> r == Finite(0.0)
  {
    var t := Trim(s);
    if t == "" then Finite(0.0)
    else
      var negative := t[0] == '-';
      var unsigned := if t[0] == '-' || t[0] == '+' then t[1..] else t;
      match DecimalValue(unsigned)
      case None => NaN
      case Some(x) => Finite(if negative then -x else x)
  }

  /**
   * `Number(v)`. An array goes through its `join(",")` text: the empty array
   * is 0, a one-element array is the number of its element's text, and a
   * longer one holds a comma and is NaN. An object's text is
   * `[object Object]`, NaN.
   */
  function ToNumber(v: JsonValue): Numeric {
    match v
    case Undefined => NaN
    case Null => Finite(0.0)
    case Bool(b) => Finite(if b then 1.0 else 0.0)
    case Num(x) => Finite(x)
    case Str(s) => StringToNumber(s)
    case Arr(elems) => ArrayToNumber(elems)
    case Obj => NaN
  }

  function ArrayToNumber(elems: seq<JsonValue>): Numeric
    decreases elems
  {
    if |elems| == 0 then Finite(0.0)
    else if |elems| > 1 then NaN
    else match elems[0]
      // `join` writes `null` as the empty text, and `true`/`false` as words
      case Undefined => Finite(0.0)
      case Null => Finite(0.0)
      case Bool(_) => NaN
      case Num(x) => Finite(x)
      case Str(s) => StringToNumber(s)
      case Arr(inner) => ArrayToNumber(inner)
      case Obj => NaN
  }

  /**
   * The request body as the handler reads it. `Malformed(reason)` is a body
   * on which `JSON.parse` throws, `reason` being the thrown error's message;
   * `NullBody` is the JSON text `null`, on which every property read throws.
   * Otherwise the four properties the handler reads: `apiKey`, `model`,
   * `prompt` and `options?.temperature`. A body that parses to a number, a
   * string, a boolean or an array reads `Undefined` for each of them.
   */
  datatype Body =
    | Malformed(reason: string)
    | NullBody
    | Fields(apiKey: JsonValue, model: JsonValue, prompt: JsonValue, temperature: JsonValue)

  /** `verb` is the HTTP method, `path` the URL's pathname. */
  datatype Request = Request(verb: string, path: string, body: Body)

  datatype Header = Header(name: string, value: string)

  const CorsHeaders := [
    Header("Access-Control-Allow-Origin", "*"),
    Header("Access-Control-Allow-Methods", "GET, POST, OPTIONS"),
    Header("Access-Control-Allow-Headers", "Content-Type, Authorization")]
  const JsonHeaders := CorsHeaders + [Header("Content-Type", "application/json")]

  /**
   * The JSON object written back (`Empty` is no body at all). A completion
   * carries the backend's `content` as it came: `Undefined` is the `response`
   * key that `JSON.stringify` leaves out.
   */
  datatype Payload =
    | Empty
    | Health(hasApiKey: bool)
    | ErrorText(error: string)
    | Updated
    | Models(names: seq<string>)
    | Completion(response: JsonValue)

  datatype Response = Response(status: int, headers: seq<Header>, payload: Payload)

  /**
   * The chat-completions request sent to the backend. The model is the JSON
   * value forwarded (a string, or an array naming `gpt-4`); a NaN temperature
   * is written as `null`.
   */
  datatype Outbound = Outbound(
    url: string, authorization: string, model: JsonValue, content: string,
    temperature: Numeric, maxTokens: int, topP: int, frequencyPenalty: int, presencePenalty: int)

  /**
   * The backend's reply body: not JSON, or JSON of which two paths matter:
   * `error.message` and `choices[0].message.content`. `firstMessage` is
   * `None` when `choices`, `choices[0]` or its `message` is missing, and
   * otherwise holds `content`, which is `Undefined` when the message has no
   * such field. A body of JSON `null` behaves as `NotJson`: reading
   * `errorData.error` or `openaiData.choices` on it throws, into the same
   * handlers as a parse failure.
   */
  datatype ReplyBody = NotJson | JsonReply(errorMessage: Option<string>, firstMessage: Option<JsonValue>)

  /**
   * What the fetch did: rejected with an error of the given `name` and `code`
   * (the 30-second abort gives name `AbortError`; resolution and connection
   * failures carry codes such as `ENOTFOUND`), or answered with an HTTP status.
   */
  datatype BackendOutcome =
    | Thrown(name: string, code: string)
    | Replied(status: int, statusText: string, body: ReplyBody)

  /** The response, and the backend request made on the way (`None`: no call). */
  datatype Exchange = Exchange(response: Response, sent: Option<Outbound>)

  function JsonResponse(status: int, payload: Payload): Response {
    Response(status, JsonHeaders, payload)
  }

  function Fail(status: int, message: string): Exchange {
    Exchange(JsonResponse(status, ErrorText(message)), None)
  }

  function Preflight(): Exchange {
    Exchange(Response(200, CorsHeaders, Empty), None)
  }

  /** `model.includes('gpt-4')` on the two kinds of value that have an `includes` method. */
  predicate MentionsGpt4(v: JsonValue) {
    || (v.Str? && Contains(v.s, "gpt-4"))
    || (v.Arr? && Str("gpt-4") in v.elems)
  }

  /**
   * The outbound model: a requested value mentioning `gpt-4` is forwarded
   * as it is, any other string or array and every falsy value fall back to
   * the default, and `None` is the TypeError of a truthy value without
   * `includes`.
   */
  function MapModel(requested: JsonValue): (r: Option<JsonValue>)
    ensures r.None? <==> Truthy(requested) && !requested.Str? && !requested.Arr?
    ensures MentionsGpt4(requested) ==> r == Some(requested)
    ensures r.Some? && !MentionsGpt4(requested) ==> r == Some(Str(DefaultModel))
  {
    if !Truthy(requested) then Some(Str(DefaultModel))
    else if requested.Str? || requested.Arr? then
      Some(if MentionsGpt4(requested) then requested else Str(DefaultModel))
    else None
  }

  /** The prompt as sent: at most 12000 characters of it, then a marker if anything was cut. */
  function TruncatePrompt(p: string): (r: string)
    ensures |p| <= MaxPromptLength ==> r == p
    ensures |p| > MaxPromptLength ==>
      && |r| == MaxPromptLength + |TruncationMarker|
      && r[..MaxPromptLength] == p[..MaxPromptLength]
      && r[MaxPromptLength..] == TruncationMarker
    ensures |r| <= MaxPromptLength + |TruncationMarker|
  {
    if |p| > MaxPromptLength then p[..MaxPromptLength] + TruncationMarker else p
  }

  function Max(a: real, b: real): real { if a < b then b else a }
  function Min(a: real, b: real): real { if a < b then a else b }

  /** `Math.min(Math.max(options?.temperature || 0.7, 0), 2)`. */
  function OutboundTemperature(t: JsonValue): (r: Numeric)
    ensures r.Finite? ==> 0.0 <= r.value <= 2.0
    ensures !Truthy(t) ==> r == Finite(0.7)
    ensures Truthy(t) ==> (r.NaN? <==> ToNumber(t).NaN?)
    ensures Truthy(t) && ToNumber(t).Finite? && 0.0 <= ToNumber(t).value <= 2.0 ==> r == ToNumber(t)
    ensures Truthy(t) && ToNumber(t).Finite? && ToNumber(t).value < 0.0 ==> r == Finite(0.0)
    ensures Truthy(t) && ToNumber(t).Finite? && ToNumber(t).value > 2.0 ==> r == Finite(2.0)
  {
    if !Truthy(t) then Finite(0.7)
    else match ToNumber(t)
      case NaN => NaN
      case Finite(x) => Finite(Min(Max(x, 0.0), 2.0))
  }

  /** A number in range is sent as given, and only absent or falsy values take the default. */
  lemma NumericTemperatures(x: real)
    ensures 0.0 < x <= 2.0 ==> OutboundTemperature(Num(x)) == Finite(x)
    ensures x == 0.0 ==> OutboundTemperature(Num(x)) == Finite(0.7)
    ensures x < 0.0 ==> OutboundTemperature(Num(x)) == Finite(0.0)
    ensures x > 2.0 ==> OutboundTemperature(Num(x)) == Finite(2.0)
  {
  }

  /** The decimal text of a whole number reads as that number. */
  lemma {:induction false} NumberOfNumeral(n: nat)
    ensures StringToNumber(NatToString(n)) == Finite(n as real)
  {
    var t := NatToString(n);
    assert !IsSpace(t[0]) && !IsSpace(t[|t| - 1]);
    TrimmedIffUnchanged(t);
    assert '.' !in t by {
      forall i | 0 <= i < |t| ensures t[i] != '.' {
        assert IsDigit(t[i]);
      }
    }
    assert t[0] != '-' && t[0] != '+' by {
      assert IsDigit(t[0]);
    }
    DigitsValueOfNatToString(n);
  }

  /** A temperature sent as the decimal text of a whole number counts as that number, clamped to 2. */
  lemma TemperatureFromNumeral(n: nat)
    requires n > 0
    ensures OutboundTemperature(Str(NatToString(n))) == Finite(if n >= 2 then 2.0 else n as real)
  {
    NumberOfNumeral(n);
  }

  /** Text that is not a number gives NaN, which is sent as `null`; other values go through `Number` too. */
  lemma TemperatureFromText()
    ensures OutboundTemperature(Str("warm")) == NaN
    ensures OutboundTemperature(Bool(true)) == Finite(1.0)
    ensures OutboundTemperature(Arr([])) == Finite(0.0)
    ensures OutboundTemperature(Obj) == NaN
  {
    WarmIsNotANumber();
  }

  lemma WarmIsNotANumber()
    ensures StringToNumber("warm") == NaN
  {
    var t := "warm";
    assert t[0] == 'w' && !IsSpace(t[0]) && !IsSpace(t[|t| - 1]);
    TrimmedIffUnchanged(t);
    assert IndexOf(t, '.') == None by {
      forall i | 0 <= i < |t| ensures t[i] != '.' {
      }
    }
    assert !IsDigit(t[0]);
  }

  /** The message the backend's own error body yields, before the per-status overrides. */
  function ReportedMessage(status: int, statusText: string, body: ReplyBody): (r: string)
    ensures r != ""
    ensures body.JsonReply? && body.errorMessage.Some? && body.errorMessage.value != "" ==> r == body.errorMessage.value
  {
    match body
    case NotJson => "HTTP " + IntToString(status) + ": " + statusText
    case JsonReply(Some(m), _) => if m != "" then m else MsgUpstream
    case JsonReply(None, _) => MsgUpstream
  }

  /** The error text sent to the client for a non-OK backend status. */
  function UpstreamErrorMessage(status: int, statusText: string, body: ReplyBody): (m: string)
    ensures status == 401 ==> m == MsgUnauthorized
    ensures status == 429 ==> m == MsgRateLimited
    ensures status == 402 ==> m == MsgNoCredits
    ensures status == 400 ==> m == MsgBadRequest
    ensures status >= 500 ==> m == MsgUnavailable
    ensures status !in {400, 401, 402, 429} && status < 500 ==>
      (body == NotJson ==> m == "HTTP " + IntToString(status) + ": " + statusText) &&
      (body.JsonReply? && body.errorMessage.Some? && body.errorMessage.value != "" ==> m == body.errorMessage.value) &&
      (body.JsonReply? && (body.errorMessage.None? || body.errorMessage == Some("")) ==> m == MsgUpstream)
  {
    if status == 401 then MsgUnauthorized
    else if status == 429 then MsgRateLimited
    else if status == 402 then MsgNoCredits
    else if status == 400 then MsgBadRequest
    else if status >= 500 then MsgUnavailable
    else ReportedMessage(status, statusText, body)
  }

  /** The text for a rejected fetch (or an error thrown while reading an OK reply). */
  function FetchErrorMessage(name: string, code: string): (r: string)
    ensures r == MsgTimeout || r == MsgNoConnection || r == MsgNetwork
    ensures r == MsgTimeout <==> name == "AbortError"
    ensures r == MsgNoConnection <==> name != "AbortError" && code in {"ENOTFOUND", "ECONNREFUSED"}
  {
    if name == "AbortError" then MsgTimeout
    else if code == "ENOTFOUND" || code == "ECONNREFUSED" then MsgNoConnection
    else MsgNetwork
  }

  predicate IsOkStatus(status: int) { 200 <= status <= 299 }

  /** How the backend's outcome is turned into the client's response. */
  function UpstreamResponse(outcome: BackendOutcome): (r: Response)
    ensures outcome.Replied? && !IsOkStatus(outcome.status) ==>
      r == JsonResponse(outcome.status, ErrorText(UpstreamErrorMessage(outcome.status, outcome.statusText, outcome.body)))
    ensures outcome.Replied? && IsOkStatus(outcome.status) && outcome.body.JsonReply? && outcome.body.firstMessage.Some? ==>
      r == JsonResponse(200, Completion(outcome.body.firstMessage.value))
    ensures outcome.Replied? && IsOkStatus(outcome.status) && (outcome.body.NotJson? || outcome.body.firstMessage.None?) ==>
      r == JsonResponse(500, ErrorText(MsgNetwork))
    ensures outcome.Thrown? && outcome.name == "AbortError" ==> r == JsonResponse(500, ErrorText(MsgTimeout))
    ensures outcome.Thrown? && outcome.name != "AbortError" && outcome.code in {"ENOTFOUND", "ECONNREFUSED"} ==>
      r == JsonResponse(500, ErrorText(MsgNoConnection))
    ensures r.payload.Completion? <==> r.status == 200
  {
    match outcome
    case Thrown(name, code) => JsonResponse(500, ErrorText(FetchErrorMessage(name, code)))
    case Replied(status, statusText, body) =>
      if !IsOkStatus(status) then
        JsonResponse(status, ErrorText(UpstreamErrorMessage(status, statusText, body)))
      else if body.JsonReply? && body.firstMessage.Some? then
        JsonResponse(200, Completion(body.firstMessage.value))
      else
        // the shape check throws, and the catch reports a network error
        JsonResponse(500, ErrorText(MsgNetwork))
  }

  /** The request forwarded for a validated prompt. */
  function BuildOutbound(key: string, model: JsonValue, prompt: string, temperature: JsonValue): (r: Outbound)
    ensures r.url == CompletionsUrl && r.authorization == "Bearer " + key && r.model == model
    ensures |r.content| <= MaxPromptLength + |TruncationMarker| && (|prompt| <= MaxPromptLength ==> r.content == prompt)
    ensures r.temperature.Finite? ==> 0.0 <= r.temperature.value <= 2.0
    ensures !Truthy(temperature) ==> r.temperature == Finite(0.7)
  {
    Outbound(CompletionsUrl, "Bearer " + key, model, TruncatePrompt(prompt),
             OutboundTemperature(temperature), MaxTokens, 1, 0, 0)
  }

  /** The guards of a request accepted for forwarding, in the order the handler tries them. */
  predicate Forwardable(key: JsonValue, body: Body) {
    && key.Str? && key.s != "" && StartsWith(key.s, KeyPrefix)
    && body.Fields?
    && MapModel(body.model).Some?
    && body.prompt.Str? && body.prompt.s != ""
  }

  /** The key passes both key guards. */
  predicate KeyAccepted(key: JsonValue) {
    key.Str? && StartsWith(key.s, KeyPrefix)
  }

  /**
   * The `/api/generate` route after the body has parsed. The key guards come
   * first and read only the key, so a `null` body fails only afterwards, on
   * reading its `model`.
   */
  function Generate(key: JsonValue, body: Body, backend: BackendOutcome): (x: Exchange)
    requires !body.Malformed?
    ensures !Truthy(key) ==> x == Fail(400, MsgKeyMissing)
    ensures Truthy(key) && !key.Str? ==> x == Fail(500, ProxyErrorPrefix + KeyNotString)
    ensures key.Str? && key.s != "" && !StartsWith(key.s, KeyPrefix) ==> x == Fail(400, MsgKeyFormat)
    ensures KeyAccepted(key) && body.NullBody? ==> x == Fail(500, ProxyErrorPrefix + NullModelRead)
    ensures KeyAccepted(key) && body.Fields? && MapModel(body.model).None? ==>
      x == Fail(500, ProxyErrorPrefix + ModelNotString)
    ensures (KeyAccepted(key) && body.Fields? && MapModel(body.model).Some? &&
             !(body.prompt.Str? && body.prompt.s != "")) ==> x == Fail(400, MsgBadPrompt)
    ensures x.sent.Some? <==> Forwardable(key, body)
    ensures x.sent.Some? ==>
      && x.sent.value == BuildOutbound(key.s, MapModel(body.model).value, body.prompt.s, body.temperature)
      && x.response == UpstreamResponse(backend)
  {
    if !Truthy(key) then Fail(400, MsgKeyMissing)
    else if !key.Str? then Fail(500, ProxyErrorPrefix + KeyNotString)
    else if !StartsWith(key.s, KeyPrefix) then Fail(400, MsgKeyFormat)
    else if body.NullBody? then Fail(500, ProxyErrorPrefix + NullModelRead)
    else match MapModel(body.model)
      case None => Fail(500, ProxyErrorPrefix + ModelNotString)
      case Some(model) =>
        if !(body.prompt.Str? && body.prompt.s != "") then Fail(400, MsgBadPrompt)
        else
          var out := BuildOutbound(key.s, model, body.prompt.s, body.temperature);
          Exchange(UpstreamResponse(backend), Some(out))
  }

  /** The whole handler as a function of the key it reads. */
  function Respond(key: JsonValue, req: Request, backend: BackendOutcome): (x: Exchange)
    ensures req.verb == "OPTIONS" ==> x == Preflight()
    ensures req.verb != "OPTIONS" && req.path == "/api/health" ==>
      x == Exchange(JsonResponse(200, Health(Truthy(key))), None)
    ensures req.verb != "OPTIONS" && req.path != "/api/health" && !StartsWith(req.path, "/api/") ==>
      x == Fail(404, MsgNotFound)
    ensures req.verb != "OPTIONS" && req.path == "/api/tags" ==>
      x == Exchange(JsonResponse(200, Models(MockModels)), None)
    ensures req.verb != "OPTIONS" && StartsWith(req.path, "/api/") &&
            req.path !in {"/api/health", "/api/update-key", "/api/tags", "/api/generate"} ==>
      x == Fail(404, MsgEndpointNotFound)
    ensures req.verb != "OPTIONS" && req.path in {"/api/update-key", "/api/generate"} && req.body.Malformed? ==>
      x == Fail(500, ProxyErrorPrefix + req.body.reason)
    ensures req.verb != "OPTIONS" && req.path == "/api/update-key" && req.body.NullBody? ==>
      x == Fail(500, ProxyErrorPrefix + NullApiKeyRead)
    ensures req.verb != "OPTIONS" && req.path == "/api/update-key" && req.body.Fields? ==>
      x == Exchange(JsonResponse(200, Updated), None)
    ensures req.verb != "OPTIONS" && req.path == "/api/generate" && !req.body.Malformed? ==>
      x == Generate(key, req.body, backend)
    ensures x.sent.Some? <==> req.verb != "OPTIONS" && req.path == "/api/generate" && Forwardable(key, req.body)
  {
    if req.verb == "OPTIONS" then Preflight()
    else if req.path == "/api/health" then Exchange(JsonResponse(200, Health(Truthy(key))), None)
    else if !StartsWith(req.path, "/api/") then Fail(404, MsgNotFound)
    else if req.path == "/api/update-key" then
      match req.body
      case Malformed(reason) => Fail(500, ProxyErrorPrefix + reason)
      case NullBody => Fail(500, ProxyErrorPrefix + NullApiKeyRead)
      case Fields(_, _, _, _) => Exchange(JsonResponse(200, Updated), None)
    else if req.path == "/api/tags" then Exchange(JsonResponse(200, Models(MockModels)), None)
    else if req.path == "/api/generate" then
      if req.body.Malformed? then Fail(500, ProxyErrorPrefix + req.body.reason)
      else Generate(key, req.body, backend)
    else Fail(404, MsgEndpointNotFound)
  }

  /** The key after the request: only an `/api/update-key` body that parsed, and is not `null`, replaces it. */
  function NextKey(key: JsonValue, req: Request): (k: JsonValue)
    ensures k != key ==> req.path == "/api/update-key" && req.body.Fields? && k == req.body.apiKey
    ensures req.verb != "OPTIONS" && req.path == "/api/update-key" && req.body.Fields? ==> k == req.body.apiKey
  {
    if req.verb != "OPTIONS" && req.path == "/api/update-key" && req.body.Fields? then req.body.apiKey
    else key
  }

  /** A rejected request does not depend on what the backend would have done. */
  lemma RejectionIgnoresBackend(key: JsonValue, req: Request, b1: BackendOutcome, b2: BackendOutcome)
    requires Respond(key, req, b1).sent.None?
    ensures Respond(key, req, b1) == Respond(key, req, b2)
  {
  }

  /**
   * Read-after-write on the key: a `generate` that follows an `update-key`
   * with key `s` is judged, and authorised, with `s`.
   */
  lemma GenerateSeesUpdatedKey(key: JsonValue, s: string, update: Request, gen: Request, backend: BackendOutcome)
    requires update.verb != "OPTIONS" && update.path == "/api/update-key" && update.body.Fields?
    requires update.body.apiKey == Str(s)
    requires gen.verb != "OPTIONS" && gen.path == "/api/generate" && !gen.body.Malformed?
    ensures s == "" ==> Respond(NextKey(key, update), gen, backend) == Fail(400, MsgKeyMissing)
    ensures s != "" && !StartsWith(s, KeyPrefix) ==> Respond(NextKey(key, update), gen, backend) == Fail(400, MsgKeyFormat)
    ensures Respond(NextKey(key, update), gen, backend).sent.Some? ==>
      Respond(NextKey(key, update), gen, backend).sent.value.authorization == "Bearer " + s
  {
  }

  /** An array naming `gpt-4` is forwarded as the model, the empty array falls back. */
  lemma ArrayModels(names: seq<JsonValue>)
    ensures Str("gpt-4") in names ==> MapModel(Arr(names)) == Some(Arr(names))
    ensures MapModel(Arr([])) == Some(Str(DefaultModel))
  {
  }

  /** The process-wide relay state: the API key. */
  class Server {
    var apiKey: JsonValue

    /** `OPENAI_API_KEY` from the environment, `""` when unset. */
    constructor (environmentKey: string)
      ensures apiKey == Str(environmentKey)
    {
      apiKey := Str(environmentKey);
    }

    method Handle(req: Request, backend: BackendOutcome) returns (x: Exchange)
      modifies this
      ensures apiKey == NextKey(old(apiKey), req)
      ensures x == Respond(old(apiKey), req, backend)
    {
      if req.verb == "OPTIONS" {
        return Preflight();
      }
      if req.path == "/api/health" {
        return Exchange(JsonResponse(200, Health(Truthy(apiKey))), None);
      }
      if !StartsWith(req.path, "/api/") {
        return Fail(404, MsgNotFound);
      }
      if req.path == "/api/update-key" {
        match req.body {
          case Malformed(reason) =>
            return Fail(500, ProxyErrorPrefix + reason);
          case NullBody =>
            return Fail(500, ProxyErrorPrefix + NullApiKeyRead);
          case Fields(k, _, _, _) =>
            apiKey := k;
            return Exchange(JsonResponse(200, Updated), None);
        }
      }
      if req.path == "/api/tags" {
        return Exchange(JsonResponse(200, Models(MockModels)), None);
      }
      if req.path == "/api/generate" {
        if req.body.Malformed? {
          return Fail(500, ProxyErrorPrefix + req.body.reason);
        }
        return Generate(apiKey, req.body, backend);
      }
      return Fail(404, MsgEndpointNotFound);
    }
  }
}
