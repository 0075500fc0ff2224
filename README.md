# Gift Guru: the request handler and the submit state machine in Dafny

Gift Guru is a small web application. A page collects gift-recommendation
parameters: recipient, details, budget, interests and taboos. It composes
them into a prompt and posts the prompt to one handler, `POST /api/chat`.
The handler forwards the prompt to a hosted text-generation model. It strips
markdown fences from the model's answer and tries to parse it as JSON. It
returns either the parsed suggestions or the raw text with an error.

The model covers the two pieces of logic in that pipeline.

- **The handler** (`app/api/chat/route.ts`), modelled as pure functions in module `ChatRoute`:
  - the credential guard;
  - the choice of the user's message (the last chat message, or the serialised body);
  - the final prompt;
  - the fence-stripping chain `replace(/```json/g, "").replace(/```/g, "").trim()`;
  - the three response envelopes: parsed, parse failure and server error.

  The provider call, `JSON.parse` and `JSON.stringify` are function
  parameters. `Post` also returns the provider call it made, if any. That
  makes "the provider is never called" a statement about its result.
- **The page** (`app/page.tsx`), modelled as the class `GiftPage.GiftGuruPage`.
  Its fields are `formData`, `loading`, `suggestions` and `error`.
  - `HandleInputChange` updates one form field.
  - `HandleSubmit` runs the state reset (`BeginSubmit`), sorts the server's
    answer and runs the `finally` block (`FinishSubmit`).
  - The function `Outcome` specifies what a submission ends in.
  - `fetch` plus `res.json()` is one abstract `FetchOutcome`.

Shared pieces:
- `Protocol` holds the wire types: request body and response envelope.
- `Strings` holds the JavaScript string operations: global literal
  replacement, `trim` over ECMAScript's whitespace set, and the decimal
  rendering of integers.
- `EndToEnd` connects the two halves. The form's values reach the provider
  in order, and the page shows the right thing for each handler answer.

Two behaviours of the code are worth stating plainly:
- Only `` ```json `` and `` ``` `` are removed (route.ts:52), so a fence such
  as `` ```js `` leaves `js` behind. `Clean` does the same.
- An unreadable body makes `req.json()` throw (route.ts:15). An empty
  `messages` array makes `lastMsg.content` throw (route.ts:20-21), and a
  `null` body makes `body.messages` throw (route.ts:19). All three end in the
  catch-all 500. `UnreadableBodyIsServerError` and `MessageSelection` state
  this.

## Model

| member | source | states |
|---|---|---|
| `ChatRoute.ApiKey` | app/api/chat/route.ts:9-10 | the credential is present exactly when one of the two variables is a non-empty string; the Gemini variable wins when both are |
| `ChatRoute.MissingKeyIsServerError` | app/api/chat/route.ts:9-12 | without a truthy credential the result is the fixed 500 "API Key 未設定" and no provider call is made |
| `ChatRoute.UnreadableBodyIsServerError` | app/api/chat/route.ts:15 | a body `req.json()` cannot read yields a 500 carrying the thrown message, with no provider call |
| `ChatRoute.UserMessage` | app/api/chat/route.ts:19-25 | the user's message is the last element's `content` of a non-empty `messages` array, or the serialisation of any other body; it throws exactly for an empty array (reading `content` of `undefined`) and for a `null` body (reading `messages` of `null`) |
| `ChatRoute.MessageSelection` | app/api/chat/route.ts:15-25 | with a credential, a non-empty `messages` array sends the last message's content; any other non-null body sends its serialisation; an empty array or a `null` body is a 500 carrying the TypeError message and makes no call |
| `ChatRoute.FinalPrompt` | app/api/chat/route.ts:43 | the prompt is the instruction block, then the heading "\n\n使用者需求:\n", then the whole user message, with nothing in between |
| `ChatRoute.FinalPromptKeepsOrder` | app/api/chat/route.ts:43 | values that appear in order in the user's message still appear in order in the prompt sent to the provider |
| `ChatRoute.Post` | app/api/chat/route.ts:6-71 | every path ends in a 200 or a 500. A 200 carries `suggestions` and a 500 does not. A 500 carries a non-empty `error` and no `raw`. The provider is called at most once, with the chosen credential, model "gemini-2.5-flash" and a prompt starting with the instruction block. A 200 implies that call happened |
| `ChatRoute.ServerFailure` | app/api/chat/route.ts:67-69 | a thrown error becomes a 500 with its message, or with the fallback message when that is empty; never an empty error |
| `ChatRoute.Respond` | app/api/chat/route.ts:52-64 | the provider's text always yields a 200 with `suggestions`; `raw` is present exactly when the cleaned text does not parse, and then it is the original text with the fixed parse-failure error; otherwise `suggestions` is the parse and there is no `error` |
| `ChatRoute.ProviderFailureIsServerError` | app/api/chat/route.ts:45-47 | a provider call that throws yields the 500 of the catch-all with its message |
| `ChatRoute.ParsedTextIsSuggestions` | app/api/chat/route.ts:54-56 | when the cleaned text parses, the response is 200 with `suggestions` equal to the parsed value, no `raw`, no `error`, no shape check |
| `ChatRoute.UnparsedTextIsRaw` | app/api/chat/route.ts:57-64 | when the cleaned text does not parse, the response is 200 with `suggestions` = [], `raw` = the original uncleaned text and the fixed parse-failure error |
| `ChatRoute.Clean` | app/api/chat/route.ts:52 | the cleaned text is never longer than the provider's text and has no whitespace at either end |
| `ChatRoute.RemoveFenceKeepsHead` | app/api/chat/route.ts:52 | removing fences keeps a leading character that is not a backtick |
| `ChatRoute.NoFenceAtHead` | app/api/chat/route.ts:52 | when the scan keeps the first character, its result does not start with a fence |
| `ChatRoute.RemoveFenceLeavesNone` | app/api/chat/route.ts:52 | after the left-to-right removal of every "```" none remains, even where removals join neighbouring backticks |
| `ChatRoute.JsonFenceHasFence` | app/api/chat/route.ts:52 | any text containing "```json" contains "```" |
| `ChatRoute.CleanHasNoFence` | app/api/chat/route.ts:52 | the cleaned text contains no "```" and has no whitespace at either end |
| `ChatRoute.CleanFixpoint` | app/api/chat/route.ts:52 | cleaning leaves a text unchanged exactly when it contains no "```" and has no surrounding whitespace |
| `ChatRoute.CleanIdempotent` | app/api/chat/route.ts:52 | cleaning twice gives the same text as cleaning once |
| `Strings.RemoveAll` | app/api/chat/route.ts:52 | a global replacement by "" never lengthens the text |
| `Strings.RemoveAllIdentity` | app/api/chat/route.ts:52 | a global removal changes the text exactly when the pattern occurs in it |
| `Strings.OccursCons` | app/api/chat/route.ts:52 | an occurrence in `[c] + rest` starts at index 0 or lies in `rest` |
| `Strings.OccursInSlice` | app/api/chat/route.ts:52 | an occurrence inside a slice is an occurrence in the whole text |
| `Strings.OccursTail` | app/api/chat/route.ts:52 | when the pattern does not start at the first character, it occurs in the text exactly when it occurs in the tail |
| `Strings.IsWhitespace` | app/api/chat/route.ts:52 | the characters `trim` removes: ECMAScript's WhiteSpace (tab, vertical tab, form feed, space, no-break space, byte order mark, the Zs category) and LineTerminator (line feed, carriage return, line and paragraph separators) |
| `Strings.TextStart` | app/api/chat/route.ts:52 | the index where the leading whitespace ends: everything before it is whitespace and the character there is not |
| `Strings.TextEnd` | app/api/chat/route.ts:52 | the index where the trailing whitespace begins: everything from it on is whitespace and the character before it is not |
| `Strings.Trim` | app/api/chat/route.ts:52 | the result of `trim` is never longer than its input and neither of its ends is whitespace |
| `Strings.TrimIsSlice` | app/api/chat/route.ts:52 | `trim` yields the slice of the input that starts where the leading whitespace ends, with only whitespace before and after it |
| `Strings.TrimCharacterised` | app/api/chat/route.ts:52 | any slice that has no whitespace at either end and only whitespace around it is the result of `trim` |
| `Strings.TrimFixpoint` | app/api/chat/route.ts:52 | trimming leaves a text unchanged exactly when neither end is whitespace |
| `Strings.TrimKeepsAbsence` | app/api/chat/route.ts:52 | trimming never creates an occurrence of a pattern |
| `Strings.NatToString` | app/page.tsx:63 | the status in the fallback message is rendered as a non-empty string of decimal digits with no leading zero; 0 is rendered as "0" |
| `Strings.NatToStringRoundTrip` | app/page.tsx:63 | reading the rendered digits back gives the number |
| `Strings.IntToString` | app/page.tsx:46 | the rendered budget starts with "-" exactly when negative, and the rest is a non-empty run of decimal digits with no leading zero; 0 is rendered as "0" |
| `Strings.IntToStringRoundTrip` | app/page.tsx:46 | the rendered budget is a numeral (optional "-", then digits) and reading it back gives the number |
| `Strings.NegativeRoundTrip` | app/page.tsx:46 | a minus sign before the digits of a positive number is a numeral that reads back as its negation |
| `Strings.AppearInOrderAt` | app/page.tsx:43-49 | the parts appear in order when the first is found at some index and the rest appear in order after it |
| `Strings.AppearInOrderPrefix` | app/page.tsx:43-49 | text put in front keeps the parts in order |
| `Strings.AppearInOrderAppend` | app/page.tsx:43-49 | text put after keeps the parts in order |
| `Strings.AppearInOrderSnoc` | app/page.tsx:43-49 | a value put after becomes the last part |
| `Strings.AppearInOrderSnocAppend` | app/page.tsx:43-49 | a value followed by fixed text, put after a text, becomes its last part |
| `Strings.FiveInOrder` | app/page.tsx:43-49 | five values separated by fixed text appear in order |
| `GiftPage.Field` | app/page.tsx:44-48 | a field interpolated into the template: a text field as it is, the budget as `IntToString` renders it (canonical decimal, reading back as the number), "undefined" for a field the form lacks |
| `GiftPage.PromptContent` | app/page.tsx:43-49 | the prompt contains target, details, budget, interests and taboos, in that order and without overlapping |
| `GiftPage.RequestBody` | app/page.tsx:54-56 | the posted body is a resolved `messages` array whose last element is the user message holding the prompt |
| `GiftPage.HasSuggestions` | app/page.tsx:67 | `data.suggestions` is present, an array, and not empty |
| `GiftPage.GiftGuruPage.constructor` | app/page.tsx:16-27 | the initial form values, not loading, no suggestions, no error |
| `GiftPage.GiftGuruPage.HandleInputChange` | app/page.tsx:30-33 | only `formData[name]` changes, to the event's value; every other field and the rest of the state stay as they were, so suggestions and an error are still never shown together |
| `GiftPage.GiftGuruPage.BeginSubmit` | app/page.tsx:37-39 | a submission starts with `loading` true, `error` empty and `suggestions` empty |
| `GiftPage.GiftGuruPage.FinishSubmit` | app/page.tsx:78-80 | the `finally` block sets `loading` to false and changes nothing else, so suggestions and an error are still never shown together |
| `GiftPage.GiftGuruPage.HandleSubmit` | app/page.tsx:36-81 | posts one user message holding the prompt of the form. It ends with `loading` false, the form unchanged and `(suggestions, error)` equal to `Outcome` of the fetch result. It never shows suggestions and an error together |
| `GiftPage.Thrown` | app/page.tsx:61-73 | the try block throws on every outcome except an ok response whose `suggestions` is a non-empty array |
| `GiftPage.Outcome` | app/page.tsx:67-77 | after a submission exactly one of "suggestions non-empty" and "error non-empty" holds |
| `GiftPage.OutcomeOnRejection` | app/page.tsx:75-77 | a rejected fetch or unreadable response shows its message, or the generic fallback when that is empty |
| `GiftPage.OutcomeOnErrorStatus` | app/page.tsx:61-64 | a non-ok response shows `data.error` if truthy, else "伺服器回應錯誤: " and the status; suggestions stay empty |
| `GiftPage.OutcomeOnSuggestions` | app/page.tsx:67-68 | an ok response with a non-empty suggestions array shows exactly that array and an empty error |
| `GiftPage.OutcomeOnNoSuggestions` | app/page.tsx:69-73 | an ok response without one shows `data.error` if truthy, else the fixed "no valid suggestions" message; suggestions stay empty |
| `EndToEnd.FormReachesProvider` | app/page.tsx:51-57 | with a credential, the page's body makes the handler call the provider with the instruction block followed by the page's prompt, so every form value appears in the provider's prompt in order |
| `EndToEnd.PageShowsHandlerAnswer` | app/page.tsx:61-77 | a 500 shows the handler's error. A parse failure shows the parse-failure message, never the raw text. A parsed non-empty array shows that array. Any other parsed value shows "no valid suggestions" |
| `EndToEnd.MissingKeyIsShown` | app/api/chat/route.ts:9-12 | without a credential the page shows "API Key 未設定" |

## Left out

- The generation SDK (`GoogleGenerativeAI`, `getGenerativeModel`, `generateContent`, `response.text()`, route.ts lines 39-47) is a parameter `generate` from the call to its text or thrown message. The network, latency and the 60-second `maxDuration` are not modelled.
- `JSON.parse` and `JSON.stringify` are the parameters `parse` and `stringify`. The JSON grammar is not modelled, and JSON numbers are integers only (no floating point).
- Reading `process.env`, `NextResponse`, `console.log`/`console.error` and the HTTP framing are environment and framework details. The two variables are `Env`; a response is a status and an envelope.
- The request body is a tagged union: a `messages` array of role/content strings, or any other JSON value (including `null`, which throws). `Post` requires the body in resolved form (`Resolved`): an object whose `messages` field is an array is a `Chat`. So `messages` arrays whose elements are not role/content objects, or whose `content` is not a string, are not modelled; the source would interpolate such a `content` as `undefined` or its string conversion, or throw on a `null` element.
- The wire between page and handler is taken to carry bodies and envelopes unchanged. In the page, `data.error` is an optional string; a non-string `error` is not modelled.
- `fetch` and `res.json()` are one `FetchOutcome`. A rejected fetch and an unreadable response body are both `Rejected` with the thrown message. `ok` is the 2xx test.
- Asynchrony, overlapping submissions and the button's `disabled={loading}` are not modelled. Neither is the intermediate render of `loading` between the reset and the `finally`. `BeginSubmit` and `FinishSubmit` state the two ends.
- The budget slider (page.tsx lines 126-135): the browser enforces its range and step, and its handler calls `parseInt`. The model keeps the budget as an integer field and renders it.
- JSX rendering (page.tsx lines 83-203) is presentation only.
- `gift-guru/components/gift-form.tsx` is a presentational form. Its only logic forwards `formData` to `onSubmit` and sets single fields, as `HandleInputChange` does.
- `gift-guru/types/index.ts` holds type declarations only, and the page does not use them.
- JavaScript strings are sequences of UTF-16 code units; here they are sequences of Unicode scalar values. `trim`'s whitespace set is ECMAScript's WhiteSpace and LineTerminator with the Unicode Zs category as of today.
