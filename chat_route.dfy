/**
 * The recommendation request handler (`POST /api/chat`): a credential
 * guard, the choice of the user's message, the prompt sent to the
 * generation provider, and the clean-up and classification of the text the
 * provider returns. The handler is a pure function of its inputs; the
 * provider call, `JSON.parse` and `JSON.stringify` are parameters.
 */
module ChatRoute {
  import opened Wrappers
  import opened JsonValue
  import opened Protocol
  import opened Strings

  /** The two environment variables the credential may come from. */
  datatype Env = Env(geminiApiKey: Option<string>, googleApiKey: Option<string>)

  /** One call of the generation provider: credential, model identifier, prompt. */
  datatype ProviderCall = ProviderCall(apiKey: string, model: string, prompt: string)

  /** What one request produces: the response, and the provider call made on the way, if any. */
  datatype Handled = Handled(response: Response, call: Option<ProviderCall>)

  const ModelName: string := "gemini-2.5-flash"

  const MissingKeyError: string := "API Key 未設定"
  const ParseFailureError: string := "格式解析失敗，但有回應"
  const ServerError: string := "伺服器發生錯誤"
  /** The TypeError V8 (Node.js) throws on `undefined.content`. */
  const UndefinedContentError: string := "Cannot read properties of undefined (reading 'content')"
  /** The TypeError V8 (Node.js) throws on `null.messages`. */
  const NullMessagesError: string := "Cannot read properties of null (reading 'messages')"

  /** The fixed instruction block; the template's CRLF line ends read as LF. */
  const SystemPrompt: string :=
    "\n      你是一個送禮專家 \"The Gift Guru\"。"
    + "\n      請根據使用者的需求 (包含對象、預算、興趣、地雷)，推薦 3 個送禮方案。"
    + "\n      "
    + "\n      【嚴格規則】"
    + "\n      1. 只回傳純 JSON 陣列 (Array)。"
    + "\n      2. 絕對不要使用 Markdown 標記 (不要寫 ```json)。"
    + "\n      3. 每個項目必須包含：name (名稱), price (價格), reason (原因), shoppingTips (購買建議)。"
    + "\n    "

  /** What separates the instruction block from the user's message. */
  const RequestHeading: string := "\n\n使用者需求:\n"

  const Fence: string := "```"
  const JsonFence: string := "```json"

  /**
   * `GEMINI_API_KEY || GOOGLE_GENERATIVE_AI_API_KEY`, with a falsy result
   * (both unset or empty) as `None`.
   */
  function ApiKey(env: Env): (k: Option<string>)
    ensures k.Some? <==> Truthy(env.geminiApiKey) || Truthy(env.googleApiKey)
    ensures k.Some? ==> k.value != "" && (k == env.geminiApiKey || k == env.googleApiKey)
    ensures Truthy(env.geminiApiKey) ==> k == env.geminiApiKey
  {
    if Truthy(env.geminiApiKey) then env.geminiApiKey
    else if Truthy(env.googleApiKey) then env.googleApiKey
    else None
  }

  /**
   * The user's message: the `content` of the last element of `messages`, or
   * the serialised body when it has no `messages` array. An empty array makes
   * the last element `undefined`, and reading its `content` throws; so does
   * reading `messages` of a `null` body.
   */
  function UserMessage(body: Body, stringify: Json -> string): (r: Result<string>)
    ensures r.Err? <==> (body.Chat? && |body.messages| == 0) || body == Other(Null)
    ensures r.Err? ==> r.message == (if body.Chat? then UndefinedContentError else NullMessagesError)
    ensures body.Chat? && r.Ok? ==> r.value == body.messages[|body.messages| - 1].content
    ensures body.Other? && r.Ok? ==> r.value == stringify(body.value)
  {
    match body
    case Chat(messages) =>
      if |messages| == 0 then Err(UndefinedContentError)
      else Ok(messages[|messages| - 1].content)
    case Other(value) =>
      if value == Null then Err(NullMessagesError) else Ok(stringify(value))
  }

  /**
   * The prompt sent to the provider: the instruction block, then the
   * heading, then the whole user message, with nothing in between.
   */
  function FinalPrompt(userMessage: string): (p: string)
    ensures SystemPrompt + RequestHeading <= p
    ensures |p| == |SystemPrompt| + |RequestHeading| + |userMessage|
    ensures p[|SystemPrompt| + |RequestHeading|..] == userMessage
  {
    SystemPrompt + RequestHeading + userMessage
  }

  /** `text.replace(/```json/g, "").replace(/```/g, "").trim()`: never longer, and trimmed. */
  function Clean(text: string): (r: string)
    ensures |r| <= |text| && IsTrimmed(r)
  {
    Trim(RemoveAll(RemoveAll(text, JsonFence), Fence))
  }

  /** The 500 response for a thrown error: its message, or the fallback when that is empty. */
  function ServerFailure(message: string): (r: Response)
    ensures r.status == 500 && r.body.suggestions.None? && r.body.raw.None?
    ensures Truthy(r.body.error)
    ensures message != "" ==> r.body.error == Some(message)
    ensures message == "" ==> r.body.error == Some(ServerError)
  {
    Response(500, Envelope(None, None, Some(if message != "" then message else ServerError)))
  }

  /** The response built from the provider's text: its parse, or the raw text on a parse failure. */
  function Respond(text: string, parse: string -> Option<Json>): (r: Response)
    ensures r.status == 200 && r.body.suggestions.Some?
    ensures r.body.raw.Some? <==> parse(Clean(text)).None?
    ensures r.body.raw.Some? ==> r.body.raw == Some(text) && r.body.error == Some(ParseFailureError)
    ensures r.body.raw.None? ==> r.body.suggestions == parse(Clean(text)) && r.body.error.None?
  {
    match parse(Clean(text))
    case Some(v) => Response(200, Envelope(Some(v), None, None))
    case None => Response(200, Envelope(Some(Arr([])), Some(text), Some(ParseFailureError)))
  }

  /**
   * The handler. `request` is the outcome of `req.json()`; `generate` is the
   * provider, returning the response text or the message it threw. A body
   * `req.json()` reads is in resolved form.
   */
  function Post(env: Env, request: Result<Body>, stringify: Json -> string,
                generate: ProviderCall -> Result<string>, parse: string -> Option<Json>): (h: Handled)
    requires request.Ok? ==> Resolved(request.value)
    // every path ends in a 200 or a 500 response; none escapes
    ensures h.response.status == 200 || h.response.status == 500
    // a 200 always carries `suggestions`, a 500 carries a non-empty `error` and nothing else
    ensures h.response.status == 200 <==> h.response.body.suggestions.Some?
    ensures h.response.status == 500 ==> Truthy(h.response.body.error) && h.response.body.raw.None?
    // the provider is called at most once, with the credential, the fixed model and a prompt
    // that starts with the instruction block
    ensures h.call.Some? ==> ApiKey(env) == Some(h.call.value.apiKey)
                             && h.call.value.model == ModelName
                             && SystemPrompt <= h.call.value.prompt
    // a 200 response means the provider was called
    ensures h.response.status == 200 ==> h.call.Some?
  {
    match ApiKey(env)
    case None => Handled(Response(500, Envelope(None, None, Some(MissingKeyError))), None)
    case Some(key) =>
      match request
      case Err(m) => Handled(ServerFailure(m), None)
      case Ok(body) =>
        match UserMessage(body, stringify)
        case Err(m) => Handled(ServerFailure(m), None)
        case Ok(userMessage) =>
          var call := ProviderCall(key, ModelName, FinalPrompt(userMessage));
          match generate(call)
          case Err(m) => Handled(ServerFailure(m), Some(call))
          case Ok(text) => Handled(Respond(text, parse), Some(call))
  }

  // ----- The credential guard -----

  /** Without a truthy credential the answer is the fixed 500, and the provider is never called. */
  lemma MissingKeyIsServerError(env: Env, request: Result<Body>, stringify: Json -> string,
                                generate: ProviderCall -> Result<string>, parse: string -> Option<Json>)
    requires !Truthy(env.geminiApiKey) && !Truthy(env.googleApiKey)
    requires request.Ok? ==> Resolved(request.value)
    ensures Post(env, request, stringify, generate, parse)
            == Handled(Response(500, Envelope(None, None, Some(MissingKeyError))), None)
  {
  }

  // ----- The choice of the user's message -----

  /**
   * With a credential and a readable body, the provider gets the last
   * message's content (or the serialised body) as the end of its prompt; an
   * empty `messages` array or a `null` body is a 500 carrying the TypeError's
   * message.
   */
  lemma MessageSelection(env: Env, body: Body, stringify: Json -> string,
                         generate: ProviderCall -> Result<string>, parse: string -> Option<Json>)
    requires ApiKey(env).Some? && Resolved(body)
    ensures var h := Post(env, Ok(body), stringify, generate, parse);
            match body
            case Chat(messages) =>
              if |messages| == 0 then h == Handled(ServerFailure(UndefinedContentError), None)
              else h.call.Some? && h.call.value.prompt == FinalPrompt(messages[|messages| - 1].content)
            case Other(value) =>
              if value == Null then h == Handled(ServerFailure(NullMessagesError), None)
              else h.call.Some? && h.call.value.prompt == FinalPrompt(stringify(value))
  {
  }

  /** Whatever appears in order in the user's message still does in the prompt. */
  lemma FinalPromptKeepsOrder(userMessage: string, parts: seq<string>)
    requires AppearInOrder(userMessage, parts)
    ensures AppearInOrder(FinalPrompt(userMessage), parts)
  {
    AppearInOrderPrefix(SystemPrompt + RequestHeading, userMessage, parts);
    assert FinalPrompt(userMessage) == SystemPrompt + RequestHeading + userMessage;
  }

  /** A body `req.json()` cannot read is a 500 with the thrown message, and no provider call. */
  lemma UnreadableBodyIsServerError(env: Env, message: string, stringify: Json -> string,
                                    generate: ProviderCall -> Result<string>, parse: string -> Option<Json>)
    requires ApiKey(env).Some?
    ensures Post(env, Err(message), stringify, generate, parse) == Handled(ServerFailure(message), None)
  {
  }

  // ----- Fence stripping -----

  /** Removing fences keeps a first character that is no backtick. */
  lemma RemoveFenceKeepsHead(s: string)
    requires |s| > 0 && s[0] != '`'
    ensures |RemoveAll(s, Fence)| > 0 && RemoveAll(s, Fence)[0] == s[0]
  {
    if |s| >= |Fence| {
      assert s[..|Fence|][0] == s[0];
    }
  }

  /** A fence-removal scan that keeps the first character does not start its result with a fence. */
  lemma NoFenceAtHead(s: string)
    requires |s| >= |Fence| && s[..|Fence|] != Fence
    ensures !OccursAt([s[0]] + RemoveAll(s[1..], Fence), Fence, 0)
  {
    var rest := RemoveAll(s[1..], Fence);
    if s[0] != '`' {
    } else if s[1] != '`' {
      RemoveFenceKeepsHead(s[1..]);
    } else {
      assert s[2] != '`' by { assert s[..|Fence|] == [s[0], s[1], s[2]]; }
      var t := s[1..];
      if |t| >= |Fence| {
        assert t[..|Fence|] != Fence by { assert t[..|Fence|][1] == s[2]; }
        assert t[1..] == s[2..];
        assert rest == [s[1]] + RemoveAll(s[2..], Fence);
        RemoveFenceKeepsHead(s[2..]);
      }
      assert rest[1] == s[2];
    }
  }

  /** After the left-to-right removal of every "```" none is left, although removals join text. */
  lemma {:induction false} RemoveFenceLeavesNone(s: string)
    ensures !Occurs(RemoveAll(s, Fence), Fence)
    decreases |s|
  {
    if |s| < |Fence| {
      assert RemoveAll(s, Fence) == s;
    } else if s[..|Fence|] == Fence {
      RemoveFenceLeavesNone(s[|Fence|..]);
    } else {
      var rest := RemoveAll(s[1..], Fence);
      RemoveFenceLeavesNone(s[1..]);
      NoFenceAtHead(s);
      OccursCons(s[0], rest, Fence);
    }
  }

  /** A "```json" is a "```" followed by more text. */
  lemma JsonFenceHasFence(s: string)
    requires Occurs(s, JsonFence)
    ensures Occurs(s, Fence)
  {
    var i: nat :| i <= |s| && OccursAt(s, JsonFence, i);
    var inS := s[i..i + |Fence|];
    assert forall k :: 0 <= k < |Fence| ==> inS[k] == JsonFence[k];
    assert OccursAt(s, Fence, i);
  }

  /** The cleaned text holds no fence and has no whitespace at either end. */
  lemma CleanHasNoFence(text: string)
    ensures !Occurs(Clean(text), Fence)
    ensures IsTrimmed(Clean(text))
  {
    var unfenced := RemoveAll(RemoveAll(text, JsonFence), Fence);
    RemoveFenceLeavesNone(RemoveAll(text, JsonFence));
    TrimKeepsAbsence(unfenced, Fence);
  }

  /** Cleaning leaves a text unchanged exactly when it has no fence and is trimmed. */
  lemma CleanFixpoint(text: string)
    ensures Clean(text) == text <==> !Occurs(text, Fence) && IsTrimmed(text)
  {
    CleanHasNoFence(text);
    if !Occurs(text, Fence) && IsTrimmed(text) {
      if Occurs(text, JsonFence) {
        JsonFenceHasFence(text);
      }
      RemoveAllIdentity(text, JsonFence);
      RemoveAllIdentity(text, Fence);
      TrimFixpoint(text);
    }
  }

  /** Cleaning twice is cleaning once. */
  lemma CleanIdempotent(text: string)
    ensures Clean(Clean(text)) == Clean(text)
  {
    CleanHasNoFence(text);
    CleanFixpoint(Clean(text));
  }

  // ----- Classification of the provider's text -----

  /** A parse of the cleaned text is returned as `suggestions`, unchecked and alone. */
  lemma ParsedTextIsSuggestions(env: Env, request: Result<Body>, stringify: Json -> string,
                                generate: ProviderCall -> Result<string>, parse: string -> Option<Json>,
                                text: string, value: Json)
    requires request.Ok? ==> Resolved(request.value)
    requires var h := Post(env, request, stringify, generate, parse);
             h.call.Some? && generate(h.call.value) == Ok(text)
    requires parse(Clean(text)) == Some(value)
    ensures Post(env, request, stringify, generate, parse).response
            == Response(200, Envelope(Some(value), None, None))
  {
  }

  /**
   * Text that does not parse is a 200 with no suggestions, the provider's
   * original text (not the cleaned one) as `raw`, and the fixed error.
   */
  lemma UnparsedTextIsRaw(env: Env, request: Result<Body>, stringify: Json -> string,
                          generate: ProviderCall -> Result<string>, parse: string -> Option<Json>,
                          text: string)
    requires request.Ok? ==> Resolved(request.value)
    requires var h := Post(env, request, stringify, generate, parse);
             h.call.Some? && generate(h.call.value) == Ok(text)
    requires parse(Clean(text)).None?
    ensures Post(env, request, stringify, generate, parse).response
            == Response(200, Envelope(Some(Arr([])), Some(text), Some(ParseFailureError)))
  {
  }

  /** A provider that throws makes a 500 with its message, or the fallback when that is empty. */
  lemma ProviderFailureIsServerError(env: Env, request: Result<Body>, stringify: Json -> string,
                                     generate: ProviderCall -> Result<string>, parse: string -> Option<Json>,
                                     message: string)
    requires request.Ok? ==> Resolved(request.value)
    requires var h := Post(env, request, stringify, generate, parse);
             h.call.Some? && generate(h.call.value) == Err(message)
    ensures Post(env, request, stringify, generate, parse).response == ServerFailure(message)
  {
  }
}
