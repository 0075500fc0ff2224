/**
 * The page and the handler together: what the page posts reaches the
 * provider inside the prompt, and what the handler answers is what the page
 * shows. The wire is taken to carry the request body and the response
 * envelope unchanged through `JSON.stringify` and `req.json()`/`res.json()`.
 */
module EndToEnd {
  import opened Wrappers
  import opened JsonValue
  import opened Protocol
  import opened Strings
  import opened ChatRoute
  import opened GiftPage

  /** The handler's response as the page's `fetch` sees it: `ok` for a 2xx status. */
  function Delivered(r: Response): FetchOutcome {
    Responded(200 <= r.status < 300, r.status, r.body)
  }

  /**
   * With a credential configured, the page's prompt is the user's message:
   * the provider receives the instruction block followed by every form value
   * in the page's order.
   */
  lemma FormReachesProvider(form: FormData, env: Env, stringify: Json -> string,
                            generate: ProviderCall -> Result<string>, parse: string -> Option<Json>)
    requires ApiKey(env).Some?
    ensures var h := Post(env, Ok(RequestBody(form)), stringify, generate, parse);
            && h.call.Some?
            && h.call.value.prompt == FinalPrompt(PromptContent(form))
            && AppearInOrder(h.call.value.prompt, PromptFields(form))
  {
    MessageSelection(env, RequestBody(form), stringify, generate, parse);
    FinalPromptKeepsOrder(PromptContent(form), PromptFields(form));
  }

  /**
   * What a submission shows for each of the handler's answers: the parsed
   * suggestions when they are a non-empty array; the fixed "no valid
   * suggestions" message for any other parsed value; the parse-failure
   * message (never the raw text) when the text does not parse; the server's
   * error message on a 500.
   */
  lemma PageShowsHandlerAnswer(form: FormData, env: Env, stringify: Json -> string,
                               generate: ProviderCall -> Result<string>, parse: string -> Option<Json>)
    ensures var h := Post(env, Ok(RequestBody(form)), stringify, generate, parse);
            var shown := Outcome(Delivered(h.response));
            && (h.response.status == 500 ==> shown == Shown([], h.response.body.error.value))
            && (h.response.status == 200 ==>
                  var text := generate(h.call.value).value;
                  match parse(Clean(text))
                  case None => shown == Shown([], ParseFailureError)
                  case Some(v) =>
                    if v.Arr? && |v.items| > 0 then shown == Shown(v.items, "")
                    else shown == Shown([], NoSuggestionsError))
  {
  }

  /** Without a credential the page shows the handler's "API key not set" message. */
  lemma MissingKeyIsShown(form: FormData, env: Env, stringify: Json -> string,
                          generate: ProviderCall -> Result<string>, parse: string -> Option<Json>)
    requires ApiKey(env).None?
    ensures Outcome(Delivered(Post(env, Ok(RequestBody(form)), stringify, generate, parse).response))
            == Shown([], MissingKeyError)
  {
  }
}
